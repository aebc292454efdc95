/**
 * The request handlers of the mission service over an in-memory store.
 * Each table is a sequence in insertion order whose ids come from a
 * counter that only grows, as the database allocates them; each handler
 * reports a result tag where the web layer answers with a status code.
 */
module App {
  import opened Text
  import opened Ranks
  import opened Models
  import opened Exporters

  /** The outcome of a handler (201/200, 404, 400 for rank, 400 for format). */
  datatype Status = Ok | NotFound | Ineligible | Unsupported

  /** What an export hands back: the CSV text, or the JSON document's data. */
  datatype ExportBody =
    | CsvBody(text: string)
    | JsonBody(data: map<string, seq<JsonObject>>)

  /** Ids strictly increasing in table order, all positive and below the next id to allocate. */
  ghost predicate IdsAllocated(ids: seq<nat>, next: nat)
  {
    0 < next
    && (forall i :: 0 <= i < |ids| ==> 0 < ids[i] < next)
    && (forall i, j :: 0 <= i < j < |ids| ==> ids[i] < ids[j])
  }

  /** Allocating the next id keeps the table's ids in order, below the advanced counter. */
  lemma AllocateNext(ids: seq<nat>, next: nat)
    requires IdsAllocated(ids, next)
    ensures IdsAllocated(ids + [next], next + 1)
  {
  }

  /** Ids in order are distinct, so a stored id names exactly one row. */
  lemma IdsDistinct(ids: seq<nat>, next: nat, i: nat, j: nat)
    requires IdsAllocated(ids, next) && i < |ids| && j < |ids| && ids[i] == ids[j]
    ensures i == j
  {
  }

  ghost function AldeaIds(s: seq<Aldea>): seq<nat> { seq(|s|, i requires 0 <= i < |s| => s[i].id) }
  ghost function NinjaIds(s: seq<Ninja>): seq<nat> { seq(|s|, i requires 0 <= i < |s| => s[i].id) }
  ghost function MisionIds(s: seq<Mision>): seq<nat> { seq(|s|, i requires 0 <= i < |s| => s[i].id) }
  ghost function AsignacionIds(s: seq<AsignacionMision>): seq<nat> { seq(|s|, i requires 0 <= i < |s| => s[i].id) }

  /** Adding a ninja keeps every assignment's ninja stored. */
  lemma AppendKeepsNinjaRefs(ninjas: seq<Ninja>, asignaciones: seq<AsignacionMision>, ninja: Ninja)
    requires forall i :: 0 <= i < |asignaciones| ==> FindNinja(ninjas, asignaciones[i].ninjaId).Some?
    ensures forall i :: 0 <= i < |asignaciones| ==> FindNinja(ninjas + [ninja], asignaciones[i].ninjaId).Some?
  {
    forall i | 0 <= i < |asignaciones|
      ensures FindNinja(ninjas + [ninja], asignaciones[i].ninjaId).Some?
    {
      var wanted := asignaciones[i].ninjaId;
      FindAppend(ninjas, ninja, (n: Ninja) => n.id == wanted);
    }
  }

  /** Adding a mission keeps every assignment's mission stored. */
  lemma AppendKeepsMisionRefs(misiones: seq<Mision>, asignaciones: seq<AsignacionMision>, mision: Mision)
    requires forall i :: 0 <= i < |asignaciones| ==> FindMision(misiones, asignaciones[i].misionId).Some?
    ensures forall i :: 0 <= i < |asignaciones| ==> FindMision(misiones + [mision], asignaciones[i].misionId).Some?
  {
    forall i | 0 <= i < |asignaciones|
      ensures FindMision(misiones + [mision], asignaciones[i].misionId).Some?
    {
      var wanted := asignaciones[i].misionId;
      FindAppend(misiones, mision, (m: Mision) => m.id == wanted);
    }
  }

  /** The database: four tables and the id counter of each. */
  class Store {
    var aldeas: seq<Aldea>
    var ninjas: seq<Ninja>
    var misiones: seq<Mision>
    var asignaciones: seq<AsignacionMision>
    var nextAldeaId: nat
    var nextNinjaId: nat
    var nextMisionId: nat
    var nextAsignacionId: nat

    /**
     * The schema's constraints: ids allocated by the counters, unique village
     * names, every ninja's village stored, every mission's minimum rank a
     * recognised rank, and every assignment naming a stored ninja and a
     * stored mission.
     */
    ghost predicate Valid()
      reads this
    {
      IdsAllocated(AldeaIds(aldeas), nextAldeaId)
      && IdsAllocated(NinjaIds(ninjas), nextNinjaId)
      && IdsAllocated(MisionIds(misiones), nextMisionId)
      && IdsAllocated(AsignacionIds(asignaciones), nextAsignacionId)
      && NombresUnicos(aldeas)
      && (forall i :: 0 <= i < |ninjas| ==> ninjas[i].aldea in aldeas)
      && (forall i :: 0 <= i < |misiones| ==> misiones[i].rangoMinimo in RangoOrden)
      && (forall i :: 0 <= i < |asignaciones| ==>
            FindNinja(ninjas, asignaciones[i].ninjaId).Some?
            && FindMision(misiones, asignaciones[i].misionId).Some?)
    }

    /** An empty database (`db.create_all()` on a fresh file). */
    constructor ()
      ensures Valid()
      ensures aldeas == [] && ninjas == [] && misiones == [] && asignaciones == []
      ensures nextAldeaId == 1 && nextNinjaId == 1 && nextMisionId == 1 && nextAsignacionId == 1
    {
      aldeas, ninjas, misiones, asignaciones := [], [], [], [];
      nextAldeaId, nextNinjaId, nextMisionId, nextAsignacionId := 1, 1, 1, 1;
    }

    /**
     * The village lookup of `crear_ninja`: the stored village of that name,
     * or a new one added with the next village id.
     */
    method FindOrCreateAldea(nombre: string) returns (aldea: Aldea)
      requires Valid()
      modifies this
      ensures Valid()
      ensures aldea.nombre == nombre && aldea in aldeas
      ensures old(FindAldeaNamed(aldeas, nombre)).Some? ==>
                aldeas == old(aldeas) && nextAldeaId == old(nextAldeaId)
                && aldea == aldeas[old(FindAldeaNamed(aldeas, nombre)).value]
      ensures old(FindAldeaNamed(aldeas, nombre)).None? ==>
                aldea == Aldea(old(nextAldeaId), nombre)
                && aldeas == old(aldeas) + [aldea] && nextAldeaId == old(nextAldeaId) + 1
      ensures ninjas == old(ninjas) && misiones == old(misiones) && asignaciones == old(asignaciones)
      ensures nextNinjaId == old(nextNinjaId) && nextMisionId == old(nextMisionId)
      ensures nextAsignacionId == old(nextAsignacionId)
    {
      var found := FindAldeaNamed(aldeas, nombre);
      if found.Some? {
        aldea := aldeas[found.value];
      } else {
        aldea := Aldea(nextAldeaId, nombre);
        assert AldeaIds(aldeas + [aldea]) == AldeaIds(aldeas) + [aldea.id];
        AllocateNext(AldeaIds(aldeas), nextAldeaId);
        aldeas := aldeas + [aldea];
        nextAldeaId := nextAldeaId + 1;
      }
    }

    /**
     * `crear_ninja`. A request field is `None` when its key is missing or
     * its value is null; such a request fails (the handler raises, and the
     * server answers with an error) and the result is `None`. The village is
     * read first: without one nothing is stored. The village is found or
     * added, and committed, before the name and the rank are read, so a
     * request with a village but no name or no rank still leaves the
     * village stored. Otherwise the ninja is added with the given stats, or
     * 0 for a stat not given, and its new id is returned.
     */
    method CrearNinja(nombre: Option<string>, rango: Option<string>, aldeaNombre: Option<string>,
                      ataque: Option<int>, defensa: Option<int>, chakra: Option<int>)
      returns (id: Option<nat>)
      requires Valid()
      modifies this
      ensures Valid()
      ensures id.Some? <==> nombre.Some? && rango.Some? && aldeaNombre.Some?
      ensures aldeaNombre.None? ==> aldeas == old(aldeas) && nextAldeaId == old(nextAldeaId)
      ensures aldeaNombre.Some? && old(FindAldeaNamed(aldeas, aldeaNombre.value)).Some? ==>
                aldeas == old(aldeas) && nextAldeaId == old(nextAldeaId)
      ensures aldeaNombre.Some? && old(FindAldeaNamed(aldeas, aldeaNombre.value)).None? ==>
                aldeas == old(aldeas) + [Aldea(old(nextAldeaId), aldeaNombre.value)]
                && nextAldeaId == old(nextAldeaId) + 1
      ensures id.Some? ==>
                id.value == old(nextNinjaId) && nextNinjaId == id.value + 1
                && exists aldea :: aldea in aldeas && aldea.nombre == aldeaNombre.value
                     && ninjas == old(ninjas) + [NewNinja(id.value, nombre.value, rango.value,
                                                          ataque, defensa, chakra, aldea)]
      ensures id.None? ==> ninjas == old(ninjas) && nextNinjaId == old(nextNinjaId)
      ensures misiones == old(misiones) && asignaciones == old(asignaciones)
      ensures nextMisionId == old(nextMisionId) && nextAsignacionId == old(nextAsignacionId)
    {
      if aldeaNombre.None? {
        return None;
      }
      var aldea := FindOrCreateAldea(aldeaNombre.value);
      if nombre.None? || rango.None? {
        return None;
      }
      var newId := nextNinjaId;
      var ninja := NewNinja(newId, nombre.value, rango.value, ataque, defensa, chakra, aldea);
      AppendKeepsNinjaRefs(ninjas, asignaciones, ninja);
      assert NinjaIds(ninjas + [ninja]) == NinjaIds(ninjas) + [newId];
      AllocateNext(NinjaIds(ninjas), nextNinjaId);
      ninjas := ninjas + [ninja];
      nextNinjaId := nextNinjaId + 1;
      id := Some(newId);
    }

    /** `crear_mision`: add the mission with the minimum rank its letter demands. Returns the new id. */
    method CrearMision(nombre: string, rango: string, recompensa: string) returns (id: nat)
      requires Valid()
      modifies this
      ensures Valid()
      ensures id == old(nextMisionId) && nextMisionId == id + 1
      ensures misiones == old(misiones) + [Mision(id, nombre, rango, recompensa, MinimumRankFor(rango))]
      ensures aldeas == old(aldeas) && ninjas == old(ninjas) && asignaciones == old(asignaciones)
      ensures nextAldeaId == old(nextAldeaId) && nextNinjaId == old(nextNinjaId)
      ensures nextAsignacionId == old(nextAsignacionId)
    {
      id := nextMisionId;
      var mision := Mision(id, nombre, rango, recompensa, MinimumRankFor(rango));
      AppendKeepsMisionRefs(misiones, asignaciones, mision);
      assert MisionIds(misiones + [mision]) == MisionIds(misiones) + [id];
      AllocateNext(MisionIds(misiones), nextMisionId);
      misiones := misiones + [mision];
      nextMisionId := nextMisionId + 1;
    }

    /**
     * `asignar_mision`: NotFound when either id is not stored, Ineligible
     * when the ninja's rank is below the mission's minimum, and otherwise
     * one new, uncompleted assignment of this ninja to this mission.
     */
    method AsignarMision(ninjaId: int, misionId: int) returns (status: Status)
      requires Valid()
      modifies this
      ensures Valid()
      ensures var n, m := FindNinja(ninjas, ninjaId), FindMision(misiones, misionId);
        && (status == NotFound <==> n.None? || m.None?)
        && (status == Ineligible <==>
              n.Some? && m.Some? && !IsEligible(ninjas[n.value].rango, misiones[m.value].rangoMinimo))
        && (status == Ok <==>
              n.Some? && m.Some? && IsEligible(ninjas[n.value].rango, misiones[m.value].rangoMinimo))
      ensures status == Ok ==>
                0 <= ninjaId && 0 <= misionId
                && asignaciones == old(asignaciones) + [NewAsignacion(old(nextAsignacionId), ninjaId, misionId)]
                && nextAsignacionId == old(nextAsignacionId) + 1
      ensures status != Ok ==>
                asignaciones == old(asignaciones) && nextAsignacionId == old(nextAsignacionId)
      ensures aldeas == old(aldeas) && ninjas == old(ninjas) && misiones == old(misiones)
      ensures nextAldeaId == old(nextAldeaId) && nextNinjaId == old(nextNinjaId)
      ensures nextMisionId == old(nextMisionId)
    {
      var n := FindNinja(ninjas, ninjaId);
      var m := FindMision(misiones, misionId);
      if n.None? || m.None? {
        return NotFound;
      }
      var ninja, mision := ninjas[n.value], misiones[m.value];
      if NinjaRankValue(ninja.rango) < RequiredRankValue(mision.rangoMinimo) {
        return Ineligible;
      }
      var asignacion := NewAsignacion(nextAsignacionId, ninja.id, mision.id);
      assert AsignacionIds(asignaciones + [asignacion]) == AsignacionIds(asignaciones) + [asignacion.id];
      AllocateNext(AsignacionIds(asignaciones), nextAsignacionId);
      asignaciones := asignaciones + [asignacion];
      nextAsignacionId := nextAsignacionId + 1;
      status := Ok;
    }

    /**
     * `completar_mision`: NotFound and no change when the id is not stored;
     * otherwise that assignment, and only it, is marked completed, whether
     * or not it already was.
     */
    method CompletarMision(asignacionId: int) returns (status: Status)
      requires Valid()
      modifies this
      ensures Valid()
      ensures status == Ok || status == NotFound
      ensures status == NotFound <==> old(FindAsignacion(asignaciones, asignacionId)).None?
      ensures |asignaciones| == |old(asignaciones)|
      ensures forall i :: 0 <= i < |asignaciones| ==>
                asignaciones[i] == if old(asignaciones[i]).id == asignacionId
                                   then old(asignaciones[i]).(completada := true)
                                   else old(asignaciones[i])
      ensures aldeas == old(aldeas) && ninjas == old(ninjas) && misiones == old(misiones)
      ensures nextAldeaId == old(nextAldeaId) && nextNinjaId == old(nextNinjaId)
      ensures nextMisionId == old(nextMisionId) && nextAsignacionId == old(nextAsignacionId)
    {
      var k := FindAsignacion(asignaciones, asignacionId);
      if k.None? {
        return NotFound;
      }
      var i := k.value;
      forall j | 0 <= j < |asignaciones| && asignaciones[j].id == asignacionId
        ensures j == i
      {
        IdsDistinct(AsignacionIds(asignaciones), nextAsignacionId, i, j);
      }
      assert AsignacionIds(asignaciones[i := asignaciones[i].(completada := true)]) == AsignacionIds(asignaciones);
      asignaciones := asignaciones[i := asignaciones[i].(completada := true)];
      status := Ok;
    }

    /**
     * `exportar`: for `csv` and `json`, visit every ninja in table order and
     * then every mission in table order with a fresh visitor of that format
     * and hand back what it built; for any other format, Unsupported.
     */
    method Exportar(formato: string) returns (status: Status, body: Option<ExportBody>)
      ensures formato == "csv" ==>
                status == Ok && body == Some(CsvBody(Join(NinjaLines(ninjas) + MisionLines(misiones), '\n')))
      ensures formato == "json" ==>
                status == Ok
                && body == Some(JsonBody(map["ninjas" := NinjaEntries(ninjas), "misiones" := MisionEntries(misiones)]))
      ensures formato != "csv" && formato != "json" ==> status == Unsupported && body == None
    {
      if formato == "csv" {
        var text := ExportCsv();
        return Ok, Some(CsvBody(text));
      } else if formato == "json" {
        var data := ExportJson();
        return Ok, Some(JsonBody(data));
      } else {
        return Unsupported, None;
      }
    }

    /** The `csv` branch of `exportar`: every ninja line, then every mission line, joined by newlines. */
    method ExportCsv() returns (text: string)
      ensures text == Join(NinjaLines(ninjas) + MisionLines(misiones), '\n')
    {
      var csv := new CsvExportVisitor();
      var visitor := CsvVisitor(csv);
      for i := 0 to |ninjas|
        invariant csv.output == NinjaLines(ninjas[..i])
      {
        AcceptNinja(ninjas[i], visitor);
        assert ninjas[..i + 1][..i] == ninjas[..i];
      }
      assert ninjas[..|ninjas|] == ninjas;
      for i := 0 to |misiones|
        invariant csv.output == NinjaLines(ninjas) + MisionLines(misiones[..i])
      {
        AcceptMision(misiones[i], visitor);
        assert misiones[..i + 1][..i] == misiones[..i];
      }
      assert misiones[..|misiones|] == misiones;
      text := csv.GetResult();
    }

    /** The `json` branch of `exportar`: the entries of every ninja and of every mission, in table order. */
    method ExportJson() returns (data: map<string, seq<JsonObject>>)
      ensures data == map["ninjas" := NinjaEntries(ninjas), "misiones" := MisionEntries(misiones)]
    {
      var json := new JsonExportVisitor();
      var visitor := JsonVisitor(json);
      for i := 0 to |ninjas|
        invariant json.ninjas == NinjaEntries(ninjas[..i]) && json.misiones == []
      {
        AcceptNinja(ninjas[i], visitor);
        assert ninjas[..i + 1][..i] == ninjas[..i];
      }
      assert ninjas[..|ninjas|] == ninjas;
      for i := 0 to |misiones|
        invariant json.ninjas == NinjaEntries(ninjas) && json.misiones == MisionEntries(misiones[..i])
      {
        AcceptMision(misiones[i], visitor);
        assert misiones[..i + 1][..i] == misiones[..i];
      }
      assert misiones[..|misiones|] == misiones;
      data := json.Data();
    }
  }
}
