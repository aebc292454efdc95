/**
 * Concrete request sequences against a fresh store, each stating the
 * response the handlers give for it, and the idempotence of completion on
 * any store.
 */
module Scenarios {
  import opened Text
  import opened Models
  import opened Exporters
  import opened App

  /** One ninja and one mission exported as CSV: exactly two lines, ninja first. */
  method ExportOneNinjaOneMision() returns (status: Status, body: Option<ExportBody>)
    ensures status == Ok
    ensures body == Some(CsvBody("NINJA,1,Naruto,Genin,Konoha\nMISION,1,Rescue Cat,D,50.0"))
  {
    var store := new Store();
    var ninjaId := store.CrearNinja(Some("Naruto"), Some("Genin"), Some("Konoha"), None, None, None);
    var misionId := store.CrearMision("Rescue Cat", "D", "50.0");
    assert store.ninjas == [Ninja(1, "Naruto", "Genin", 0, 0, 0, Aldea(1, "Konoha"))];
    assert store.misiones == [Mision(1, "Rescue Cat", "D", "50.0", "Genin")];
    NarutoExportText(store.ninjas[0], store.misiones[0]);
    status, body := store.Exportar("csv");
  }

  lemma JoinTwo(a: string, b: string)
    ensures Join([a, b], '\n') == a + "\n" + b
  {
    assert [a, b][1..] == [b];
  }

  lemma NarutoLine(n: Ninja)
    requires n == Ninja(1, "Naruto", "Genin", 0, 0, 0, Aldea(1, "Konoha"))
    ensures NinjaLine(n) == "NINJA,1,Naruto,Genin,Konoha"
  {
    assert NatToString(1) == "1";
  }

  lemma RescueCatLine(m: Mision)
    requires m == Mision(1, "Rescue Cat", "D", "50.0", "Genin")
    ensures MisionLine(m) == "MISION,1,Rescue Cat,D,50.0"
  {
    assert NatToString(1) == "1";
  }

  lemma NarutoExportText(n: Ninja, m: Mision)
    requires n == Ninja(1, "Naruto", "Genin", 0, 0, 0, Aldea(1, "Konoha"))
    requires m == Mision(1, "Rescue Cat", "D", "50.0", "Genin")
    ensures Join(NinjaLines([n]) + MisionLines([m]), '\n') == "NINJA,1,Naruto,Genin,Konoha\nMISION,1,Rescue Cat,D,50.0"
  {
    NinjaLinesOne(n);
    MisionLinesOne(m);
    NarutoLine(n);
    RescueCatLine(m);
    JoinTwo(NinjaLine(n), MisionLine(m));
  }

  lemma NinjaLinesOne(n: Ninja)
    ensures NinjaLines([n]) == [NinjaLine(n)]
  {
    assert [n][..0] == [];
  }

  lemma MisionLinesOne(m: Mision)
    ensures MisionLines([m]) == [MisionLine(m)]
  {
    assert [m][..0] == [];
  }

  /** Any format other than `csv` and `json` is refused. */
  method ExportXml() returns (status: Status, body: Option<ExportBody>)
    ensures status == Unsupported && body == None
  {
    var store := new Store();
    status, body := store.Exportar("xml");
  }

  /** A Genin cannot take a B mission, which demands a Chūnin, and nothing is stored. */
  method GeninOnB() returns (status: Status, stored: nat)
    ensures status == Ineligible && stored == 0
  {
    var store := new Store();
    var g := store.CrearNinja(Some("Konohamaru"), Some("Genin"), Some("Konoha"), None, None, None);
    var m := store.CrearMision("Escort", "B", "300.0");
    assert FindNinja(store.ninjas, g.value) == Some(0) && FindMision(store.misiones, m) == Some(0);
    status := store.AsignarMision(g.value, m);
    stored := |store.asignaciones|;
  }

  /** A Jōnin takes an S mission, and exactly that assignment is stored, not yet completed. */
  method JoninOnS() returns (status: Status, stored: seq<AsignacionMision>)
    ensures status == Ok && stored == [AsignacionMision(1, 1, 1, false)]
  {
    var store := new Store();
    var j := store.CrearNinja(Some("Kakashi"), Some("Jōnin"), Some("Konoha"), None, None, None);
    var m := store.CrearMision("Escort", "S", "300.0");
    assert FindNinja(store.ninjas, j.value) == Some(0) && FindMision(store.misiones, m) == Some(0);
    status := store.AsignarMision(j.value, m);
    stored := store.asignaciones;
  }

  /** Two ninjas of the same village share one village row. */
  method SameVillageTwice() returns (villages: nat)
    ensures villages == 1
  {
    var store := new Store();
    var a := store.CrearNinja(Some("Naruto"), Some("Genin"), Some("Konoha"), None, None, None);
    var b := store.CrearNinja(Some("Sakura"), Some("Genin"), Some("Konoha"), Some(3), Some(4), Some(5));
    villages := |store.aldeas|;
  }

  /**
   * A request with a new village but no name fails, and the village it
   * named stays stored without a ninja.
   */
  method MissingNameKeepsVillage() returns (id: Option<nat>, villages: nat, stored: nat)
    ensures id == None && villages == 1 && stored == 0
  {
    var store := new Store();
    id := store.CrearNinja(None, Some("Genin"), Some("Suna"), None, None, None);
    villages := |store.aldeas|;
    stored := |store.ninjas|;
  }

  /** A request without a village fails before anything is stored. */
  method MissingVillageStoresNothing() returns (id: Option<nat>, villages: nat, stored: nat)
    ensures id == None && villages == 0 && stored == 0
  {
    var store := new Store();
    id := store.CrearNinja(Some("Gaara"), Some("Genin"), None, None, None, None);
    villages := |store.aldeas|;
    stored := |store.ninjas|;
  }

  /** An id nobody allocated is not found, and nothing is stored. */
  method AssignUnknownMision() returns (status: Status, stored: nat)
    ensures status == NotFound && stored == 0
  {
    var store := new Store();
    var n := store.CrearNinja(Some("Naruto"), Some("Genin"), Some("Konoha"), None, None, None);
    status := store.AsignarMision(n.value, 7);
    stored := |store.asignaciones|;
  }

  /**
   * Completing an assignment a second time answers as the first time did
   * and leaves the store as the first completion left it.
   */
  method CompleteTwice(store: Store, asignacionId: int) returns (first: Status, second: Status)
    requires store.Valid()
    modifies store
    ensures store.Valid()
    ensures first == second
    ensures store.aldeas == old(store.aldeas) && store.ninjas == old(store.ninjas)
    ensures store.misiones == old(store.misiones)
    ensures store.nextAldeaId == old(store.nextAldeaId) && store.nextNinjaId == old(store.nextNinjaId)
    ensures store.nextMisionId == old(store.nextMisionId)
    ensures store.nextAsignacionId == old(store.nextAsignacionId)
    ensures |store.asignaciones| == |old(store.asignaciones)|
    ensures forall i :: 0 <= i < |store.asignaciones| ==>
              store.asignaciones[i] == if old(store.asignaciones[i]).id == asignacionId
                                       then old(store.asignaciones[i]).(completada := true)
                                       else old(store.asignaciones[i])
  {
    first := store.CompletarMision(asignacionId);
    second := store.CompletarMision(asignacionId);
  }
}
