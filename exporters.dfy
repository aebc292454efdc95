/**
 * The two export visitors and the double dispatch that drives them. The CSV
 * visitor keeps one text line per visited record; the JSON visitor keeps one
 * entry per record in the list for its kind. A record's `accept` forwards to
 * the visitor method for its own kind; with no subclassing, the visitor is a
 * sum over the two concrete visitors and `accept` matches on it.
 */
module Exporters {
  import opened Text
  import opened Models

  /** The JSON values the export writes. A reward keeps the text its float prints as. */
  datatype JsonValue = JInt(i: int) | JStr(s: string) | JFloat(text: string)

  type JsonObject = map<string, JsonValue>

  /**
   * `f"NINJA,{id},{nombre},{rango},{aldea.nombre}"`: the record type, then
   * the id, each followed by a comma. `NinjaLineFields` states the columns.
   */
  function NinjaLine(n: Ninja): (line: string)
    ensures |line| > 6 + |NatToString(n.id)|
    ensures line[..6 + |NatToString(n.id)| + 1] == "NINJA," + NatToString(n.id) + ","
  {
    "NINJA," + NatToString(n.id) + "," + n.nombre + "," + n.rango + "," + n.aldea.nombre
  }

  /**
   * `f"MISION,{id},{nombre},{rango},{recompensa}"`: the record type, then
   * the id, each followed by a comma. `MisionLineFields` states the columns.
   */
  function MisionLine(m: Mision): (line: string)
    ensures |line| > 7 + |NatToString(m.id)|
    ensures line[..7 + |NatToString(m.id)| + 1] == "MISION," + NatToString(m.id) + ","
  {
    "MISION," + NatToString(m.id) + "," + m.nombre + "," + m.rango + "," + m.recompensa
  }

  /** The columns a ninja line is meant to hold. */
  function NinjaFields(n: Ninja): seq<string>
  {
    ["NINJA", NatToString(n.id), n.nombre, n.rango, n.aldea.nombre]
  }

  /** The columns a mission line is meant to hold. */
  function MisionFields(m: Mision): seq<string>
  {
    ["MISION", NatToString(m.id), m.nombre, m.rango, m.recompensa]
  }

  /** A line of five fields is those fields joined with commas. */
  lemma FiveFieldsJoin(a: string, b: string, c: string, d: string, e: string)
    ensures Join([a, b, c, d, e], ',') == a + "," + b + "," + c + "," + d + "," + e
  {
    assert [a, b, c, d, e][1..] == [b, c, d, e];
    assert [b, c, d, e][1..] == [c, d, e];
    assert [c, d, e][1..] == [d, e];
    assert [d, e][1..] == [e];
    assert Join([d, e], ',') == d + "," + e;
    assert Join([c, d, e], ',') == c + "," + d + "," + e;
    assert Join([b, c, d, e], ',') == b + "," + c + "," + d + "," + e;
  }

  /** A ninja line reads back as its five columns when no field holds a comma. */
  lemma NinjaLineFields(n: Ninja)
    requires ',' !in n.nombre && ',' !in n.rango && ',' !in n.aldea.nombre
    ensures Split(NinjaLine(n), ',') == NinjaFields(n)
  {
    FiveFieldsJoin("NINJA", NatToString(n.id), n.nombre, n.rango, n.aldea.nombre);
    DigitsHaveNoDelimiters(n.id);
    assert "NINJA," == "NINJA" + ",";
    assert ',' !in "NINJA";
    assert NinjaLine(n) == Join(NinjaFields(n), ',');
    SplitJoin(NinjaFields(n), ',');
  }

  /** A mission line reads back as its five columns when no field holds a comma. */
  lemma MisionLineFields(m: Mision)
    requires ',' !in m.nombre && ',' !in m.rango && ',' !in m.recompensa
    ensures Split(MisionLine(m), ',') == MisionFields(m)
  {
    FiveFieldsJoin("MISION", NatToString(m.id), m.nombre, m.rango, m.recompensa);
    DigitsHaveNoDelimiters(m.id);
    assert "MISION," == "MISION" + ",";
    assert ',' !in "MISION";
    assert MisionLine(m) == Join(MisionFields(m), ',');
    SplitJoin(MisionFields(m), ',');
  }

  /** Nothing is escaped: a comma in a ninja's name yields more than five columns. */
  lemma NinjaNameCommaSplitsLine(n: Ninja)
    requires ',' in n.nombre
    ensures |Split(NinjaLine(n), ',')| > 5
  {
    var id := NatToString(n.id);
    CountPresent(n.nombre, ',');
    CountConcat("NINJA,", id, ',');
    CountConcat("NINJA," + id, ",", ',');
    CountConcat("NINJA," + id + ",", n.nombre, ',');
    CountConcat("NINJA," + id + "," + n.nombre, ",", ',');
    CountConcat("NINJA," + id + "," + n.nombre + ",", n.rango, ',');
    CountConcat("NINJA," + id + "," + n.nombre + "," + n.rango, ",", ',');
    CountConcat("NINJA," + id + "," + n.nombre + "," + n.rango + ",", n.aldea.nombre, ',');
    assert Count(",", ',') == 1;
    assert Count("NINJA,", ',') >= 1 by {
      assert "NINJA,"[5] == ',';
      CountPresent("NINJA,", ',');
    }
  }

  /** A ninja line is one line when its fields are. */
  lemma NinjaLineHasNoNewline(n: Ninja)
    requires '\n' !in n.nombre && '\n' !in n.rango && '\n' !in n.aldea.nombre
    ensures '\n' !in NinjaLine(n)
  {
    DigitsHaveNoDelimiters(n.id);
  }

  /** A mission line is one line when its fields are. */
  lemma MisionLineHasNoNewline(m: Mision)
    requires '\n' !in m.nombre && '\n' !in m.rango && '\n' !in m.recompensa
    ensures '\n' !in MisionLine(m)
  {
    DigitsHaveNoDelimiters(m.id);
  }

  /** The lines a CSV visitor holds after visiting `ninjas` in order. */
  function NinjaLines(ninjas: seq<Ninja>): (lines: seq<string>)
    ensures |lines| == |ninjas|
  {
    if ninjas == [] then []
    else NinjaLines(ninjas[..|ninjas| - 1]) + [NinjaLine(ninjas[|ninjas| - 1])]
  }

  /** The lines a CSV visitor holds after visiting `misiones` in order. */
  function MisionLines(misiones: seq<Mision>): (lines: seq<string>)
    ensures |lines| == |misiones|
  {
    if misiones == [] then []
    else MisionLines(misiones[..|misiones| - 1]) + [MisionLine(misiones[|misiones| - 1])]
  }

  /** The JSON entry for a ninja: exactly these seven keys. */
  function NinjaEntry(n: Ninja): (e: JsonObject)
    ensures e.Keys == {"id", "nombre", "rango", "aldea", "ataque", "defensa", "chakra"}
  {
    map["id" := JInt(n.id), "nombre" := JStr(n.nombre), "rango" := JStr(n.rango),
        "aldea" := JStr(n.aldea.nombre), "ataque" := JInt(n.ataque),
        "defensa" := JInt(n.defensa), "chakra" := JInt(n.chakra)]
  }

  /** The JSON entry for a mission: exactly these four keys; the minimum rank is not exported. */
  function MisionEntry(m: Mision): (e: JsonObject)
    ensures e.Keys == {"id", "nombre", "rango", "recompensa"}
  {
    map["id" := JInt(m.id), "nombre" := JStr(m.nombre), "rango" := JStr(m.rango),
        "recompensa" := JFloat(m.recompensa)]
  }

  /** The `ninjas` list after visiting `ninjas` in order. */
  function NinjaEntries(ninjas: seq<Ninja>): (entries: seq<JsonObject>)
    ensures |entries| == |ninjas|
  {
    if ninjas == [] then []
    else NinjaEntries(ninjas[..|ninjas| - 1]) + [NinjaEntry(ninjas[|ninjas| - 1])]
  }

  /** The `misiones` list after visiting `misiones` in order. */
  function MisionEntries(misiones: seq<Mision>): (entries: seq<JsonObject>)
    ensures |entries| == |misiones|
  {
    if misiones == [] then []
    else MisionEntries(misiones[..|misiones| - 1]) + [MisionEntry(misiones[|misiones| - 1])]
  }

  /** Item `i` of `NinjaLines` is the ninja line of element `i`. */
  lemma {:induction false} NinjaLinesAt(ninjas: seq<Ninja>, i: nat)
    requires i < |ninjas|
    ensures NinjaLines(ninjas)[i] == NinjaLine(ninjas[i])
  {
    if i < |ninjas| - 1 {
      NinjaLinesAt(ninjas[..|ninjas| - 1], i);
    }
  }

  /** Item `i` of `MisionLines` is the mission line of element `i`. */
  lemma {:induction false} MisionLinesAt(misiones: seq<Mision>, i: nat)
    requires i < |misiones|
    ensures MisionLines(misiones)[i] == MisionLine(misiones[i])
  {
    if i < |misiones| - 1 {
      MisionLinesAt(misiones[..|misiones| - 1], i);
    }
  }

  /** Item `i` of `NinjaEntries` is the ninja entry of element `i`. */
  lemma {:induction false} NinjaEntriesAt(ninjas: seq<Ninja>, i: nat)
    requires i < |ninjas|
    ensures NinjaEntries(ninjas)[i] == NinjaEntry(ninjas[i])
  {
    if i < |ninjas| - 1 {
      NinjaEntriesAt(ninjas[..|ninjas| - 1], i);
    }
  }

  /** Item `i` of `MisionEntries` is the mission entry of element `i`. */
  lemma {:induction false} MisionEntriesAt(misiones: seq<Mision>, i: nat)
    requires i < |misiones|
    ensures MisionEntries(misiones)[i] == MisionEntry(misiones[i])
  {
    if i < |misiones| - 1 {
      MisionEntriesAt(misiones[..|misiones| - 1], i);
    }
  }

  /** The CSV visitor (`CSVExportVisitor`). */
  class CsvExportVisitor {
    var output: seq<string>

    constructor ()
      ensures output == []
    {
      output := [];
    }

    method VisitNinja(n: Ninja)
      modifies this
      ensures output == old(output) + [NinjaLine(n)]
    {
      output := output + [NinjaLine(n)];
    }

    method VisitMision(m: Mision)
      modifies this
      ensures output == old(output) + [MisionLine(m)]
    {
      output := output + [MisionLine(m)];
    }

    /**
     * `"\n".join(self.output)`: no header, no trailing newline. When no line
     * holds a newline, splitting the text on newlines gives the lines back;
     * no lines give the empty text.
     */
    function GetResult(): (text: string)
      reads this
      ensures output == [] ==> text == ""
      ensures |output| > 0 && Separable(output, '\n') ==>
                Split(text, '\n') == output && Count(text, '\n') == |output| - 1
    {
      if |output| > 0 && Separable(output, '\n') then
        SplitJoin(output, '\n');
        JoinCount(output, '\n');
        Join(output, '\n')
      else
        Join(output, '\n')
    }
  }

  /** The JSON visitor (`JSONExportVisitor`): the two lists of its `data` dictionary. */
  class JsonExportVisitor {
    var ninjas: seq<JsonObject>
    var misiones: seq<JsonObject>

    constructor ()
      ensures ninjas == [] && misiones == []
    {
      ninjas, misiones := [], [];
    }

    method VisitNinja(n: Ninja)
      modifies this
      ensures ninjas == old(ninjas) + [NinjaEntry(n)]
      ensures misiones == old(misiones)
    {
      ninjas := ninjas + [NinjaEntry(n)];
    }

    method VisitMision(m: Mision)
      modifies this
      ensures misiones == old(misiones) + [MisionEntry(m)]
      ensures ninjas == old(ninjas)
    {
      misiones := misiones + [MisionEntry(m)];
    }

    /** `self.data`: a dictionary with exactly the keys `ninjas` and `misiones`. */
    function Data(): (data: map<string, seq<JsonObject>>)
      reads this
      ensures data.Keys == {"ninjas", "misiones"}
      ensures data["ninjas"] == ninjas && data["misiones"] == misiones
    {
      map["ninjas" := ninjas, "misiones" := misiones]
    }
  }

  /** Either concrete visitor. */
  datatype Visitor = CsvVisitor(csv: CsvExportVisitor) | JsonVisitor(json: JsonExportVisitor)
  {
    /** The visitor object a visit updates. */
    function Target(): object
    {
      match this
      case CsvVisitor(c) => c
      case JsonVisitor(j) => j
    }
  }

  /** `Ninja.accept(visitor)`: exactly the visitor's `visit_ninja` on this ninja. */
  method AcceptNinja(n: Ninja, v: Visitor)
    modifies v.Target()
    ensures v.CsvVisitor? ==> v.csv.output == old(v.csv.output) + [NinjaLine(n)]
    ensures v.JsonVisitor? ==> v.json.ninjas == old(v.json.ninjas) + [NinjaEntry(n)]
                               && v.json.misiones == old(v.json.misiones)
  {
    match v
    case CsvVisitor(c) => c.VisitNinja(n);
    case JsonVisitor(j) => j.VisitNinja(n);
  }

  /** `Mision.accept(visitor)`: exactly the visitor's `visit_mision` on this mission. */
  method AcceptMision(m: Mision, v: Visitor)
    modifies v.Target()
    ensures v.CsvVisitor? ==> v.csv.output == old(v.csv.output) + [MisionLine(m)]
    ensures v.JsonVisitor? ==> v.json.misiones == old(v.json.misiones) + [MisionEntry(m)]
                               && v.json.ninjas == old(v.json.ninjas)
  {
    match v
    case CsvVisitor(c) => c.VisitMision(m);
    case JsonVisitor(j) => j.VisitMision(m);
  }

  /** Ninja lines are single lines when the ninjas' fields are. */
  lemma NinjaLinesSeparable(ninjas: seq<Ninja>)
    requires forall i :: 0 <= i < |ninjas| ==>
               '\n' !in ninjas[i].nombre && '\n' !in ninjas[i].rango && '\n' !in ninjas[i].aldea.nombre
    ensures Separable(NinjaLines(ninjas), '\n')
  {
    forall i | 0 <= i < |ninjas| ensures '\n' !in NinjaLines(ninjas)[i] {
      NinjaLinesAt(ninjas, i);
      NinjaLineHasNoNewline(ninjas[i]);
    }
  }

  /** Mission lines are single lines when the missions' fields are. */
  lemma MisionLinesSeparable(misiones: seq<Mision>)
    requires forall i :: 0 <= i < |misiones| ==>
               '\n' !in misiones[i].nombre && '\n' !in misiones[i].rango && '\n' !in misiones[i].recompensa
    ensures Separable(MisionLines(misiones), '\n')
  {
    forall i | 0 <= i < |misiones| ensures '\n' !in MisionLines(misiones)[i] {
      MisionLinesAt(misiones, i);
      MisionLineHasNoNewline(misiones[i]);
    }
  }

  /**
   * The CSV export of `ninjas` then `misiones` reads back line by line: the
   * ninja lines first, in order, then the mission lines, in order.
   */
  lemma CsvExportLines(ninjas: seq<Ninja>, misiones: seq<Mision>)
    requires |ninjas| + |misiones| > 0
    requires forall i :: 0 <= i < |ninjas| ==>
               '\n' !in ninjas[i].nombre && '\n' !in ninjas[i].rango && '\n' !in ninjas[i].aldea.nombre
    requires forall i :: 0 <= i < |misiones| ==>
               '\n' !in misiones[i].nombre && '\n' !in misiones[i].rango && '\n' !in misiones[i].recompensa
    ensures Split(Join(NinjaLines(ninjas) + MisionLines(misiones), '\n'), '\n')
              == NinjaLines(ninjas) + MisionLines(misiones)
  {
    var front, back := NinjaLines(ninjas), MisionLines(misiones);
    NinjaLinesSeparable(ninjas);
    MisionLinesSeparable(misiones);
    assert Separable(front + back, '\n') by {
      forall i | 0 <= i < |front + back| ensures '\n' !in (front + back)[i] {
        if i < |front| { assert (front + back)[i] == front[i]; }
        else { assert (front + back)[i] == back[i - |front|]; }
      }
    }
    SplitJoin(front + back, '\n');
  }
}
