/**
 * The records of the mission service: villages, ninjas, missions and
 * mission assignments, with the column defaults and the lookups the
 * handlers perform on them.
 */
module Models {

  datatype Option<T> = None | Some(value: T)
  {
    /** `dict.get(key, default)` once the lookup is done. */
    function GetOr(default: T): (r: T)
      ensures Some? ==> r == value
      ensures None? ==> r == default
    {
      match this
      case Some(v) => v
      case None => default
    }
  }

  /** A village (`Aldea`): a name that is unique across the store. */
  datatype Aldea = Aldea(id: nat, nombre: string)

  /**
   * A ninja. `aldea` is the village row the required `aldea_id` column
   * refers to, as the `aldea` relationship loads it.
   */
  datatype Ninja = Ninja(
    id: nat,
    nombre: string,
    rango: string,
    ataque: int,
    defensa: int,
    chakra: int,
    aldea: Aldea)

  /**
   * A mission. `recompensa` is a float column; the model keeps the text it
   * prints as. `rangoMinimo` is derived from `rango` when the mission is created.
   */
  datatype Mision = Mision(
    id: nat,
    nombre: string,
    rango: string,
    recompensa: string,
    rangoMinimo: string)

  /** The link between a ninja and a mission they took on (`AsignacionMision`). */
  datatype AsignacionMision = AsignacionMision(
    id: nat,
    ninjaId: nat,
    misionId: nat,
    completada: bool)

  /**
   * A ninja row as inserted. A stat that is missing or null is stored as 0:
   * the ORM leaves a `None` out of the INSERT, so the column default 0
   * applies. `None` here stands for both.
   */
  function NewNinja(id: nat, nombre: string, rango: string,
                    ataque: Option<int>, defensa: Option<int>, chakra: Option<int>,
                    aldea: Aldea): (n: Ninja)
    ensures n.id == id && n.nombre == nombre && n.rango == rango && n.aldea == aldea
    ensures ataque.None? ==> n.ataque == 0
    ensures defensa.None? ==> n.defensa == 0
    ensures chakra.None? ==> n.chakra == 0
    ensures ataque.Some? ==> n.ataque == ataque.value
    ensures defensa.Some? ==> n.defensa == defensa.value
    ensures chakra.Some? ==> n.chakra == chakra.value
  {
    Ninja(id, nombre, rango, ataque.GetOr(0), defensa.GetOr(0), chakra.GetOr(0), aldea)
  }

  /** An assignment row as inserted: not yet completed. */
  function NewAsignacion(id: nat, ninjaId: nat, misionId: nat): (a: AsignacionMision)
    ensures a.id == id && a.ninjaId == ninjaId && a.misionId == misionId
    ensures !a.completada
  {
    AsignacionMision(id, ninjaId, misionId, false)
  }

  /**
   * The index of the first element satisfying `p`, as `query...first()`
   * returns the first matching row.
   */
  function Find<T>(s: seq<T>, p: T -> bool): (r: Option<nat>)
    ensures r.Some? ==> r.value < |s| && p(s[r.value])
    ensures r.Some? ==> forall i :: 0 <= i < r.value ==> !p(s[i])
    ensures r.None? ==> forall i :: 0 <= i < |s| ==> !p(s[i])
  {
    if s == [] then None
    else if p(s[0]) then Some(0)
    else match Find(s[1..], p)
      case None => None
      case Some(k) => Some(k + 1)
  }

  /** Appending an element leaves an earlier match where it was and otherwise may only find the new element. */
  lemma {:induction false} FindAppend<T>(s: seq<T>, x: T, p: T -> bool)
    ensures Find(s + [x], p) ==
      if Find(s, p).Some? then Find(s, p)
      else if p(x) then Some(|s|)
      else None
  {
    var t := s + [x];
    if s == [] {
      assert t == [x] && t[1..] == [];
    } else if !p(s[0]) {
      assert t[0] == s[0] && t[1..] == s[1..] + [x];
      FindAppend(s[1..], x, p);
    } else {
      assert t[0] == s[0];
    }
  }

  /** `Aldea.query.filter_by(nombre=nombre).first()`. */
  function FindAldeaNamed(aldeas: seq<Aldea>, nombre: string): (r: Option<nat>)
    ensures r.Some? ==> r.value < |aldeas| && aldeas[r.value].nombre == nombre
    ensures r.None? ==> forall i :: 0 <= i < |aldeas| ==> aldeas[i].nombre != nombre
  {
    Find(aldeas, (a: Aldea) => a.nombre == nombre)
  }

  /** `Ninja.query.get(id)`. */
  function FindNinja(ninjas: seq<Ninja>, id: int): (r: Option<nat>)
    ensures r.Some? ==> r.value < |ninjas| && ninjas[r.value].id == id
    ensures r.None? ==> forall i :: 0 <= i < |ninjas| ==> ninjas[i].id != id
  {
    Find(ninjas, (n: Ninja) => n.id == id)
  }

  /** `Mision.query.get(id)`. */
  function FindMision(misiones: seq<Mision>, id: int): (r: Option<nat>)
    ensures r.Some? ==> r.value < |misiones| && misiones[r.value].id == id
    ensures r.None? ==> forall i :: 0 <= i < |misiones| ==> misiones[i].id != id
  {
    Find(misiones, (m: Mision) => m.id == id)
  }

  /** `AsignacionMision.query.get(id)`. */
  function FindAsignacion(asignaciones: seq<AsignacionMision>, id: int): (r: Option<nat>)
    ensures r.Some? ==> r.value < |asignaciones| && asignaciones[r.value].id == id
    ensures r.None? ==> forall i :: 0 <= i < |asignaciones| ==> asignaciones[i].id != id
  {
    Find(asignaciones, (a: AsignacionMision) => a.id == id)
  }

  /** The `unique=True` constraint on village names. */
  ghost predicate NombresUnicos(aldeas: seq<Aldea>)
  {
    forall i, j :: 0 <= i < j < |aldeas| ==> aldeas[i].nombre != aldeas[j].nombre
  }

  /** The positions holding a village called `nombre`. */
  ghost function NamedPositions(aldeas: seq<Aldea>, nombre: string): set<nat>
  {
    set i: nat | i < |aldeas| && aldeas[i].nombre == nombre
  }

  /** Under the uniqueness constraint no name is held by more than one village. */
  lemma AtMostOneAldeaNamed(aldeas: seq<Aldea>, nombre: string)
    requires NombresUnicos(aldeas)
    ensures |NamedPositions(aldeas, nombre)| <= 1
  {
    var found := FindAldeaNamed(aldeas, nombre);
    if found.None? {
      assert NamedPositions(aldeas, nombre) == {};
    } else {
      var k := found.value;
      forall i | i in NamedPositions(aldeas, nombre) ensures i == k {
      }
      assert NamedPositions(aldeas, nombre) <= {k};
      SubsetOfSingleton(NamedPositions(aldeas, nombre), k);
    }
  }

  lemma SubsetOfSingleton(s: set<nat>, k: nat)
    requires s <= {k}
    ensures |s| <= 1
  {
    if s != {} {
      assert s == {k};
    }
  }
}
