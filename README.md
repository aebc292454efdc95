# NarutoApp mission service: a Dafny model

The NarutoApp service keeps records of villages (`Aldea`), ninjas, missions
(`Mision`) and mission assignments (`AsignacionMision`). Its logic has four
parts:

- a rank policy: two constant tables and one comparison;
- four handlers that create or update records (`crear_ninja`, `crear_mision`,
  `asignar_mision`, `completar_mision`);
- an export handler (`exportar`) that drives a CSV or a JSON visitor over every
  ninja and then every mission;
- the visitors themselves, reached through each record's `accept`.

The model has six modules:

- `Ranks` (ranks.dfy): `RANGO_ORDEN`, `MISION_RANGO_NINJA`, the `.get` defaults
  (0 for a ninja's rank, 999 for a required rank) and the eligibility guard.
- `Models` (models.py → models.dfy): the record types, their column defaults, and
  the lookups the handlers make (`query.get`, `filter_by(...).first()`).
  It also holds the uniqueness constraint on village names.
- `Exporters` (exporters.dfy): the two visitor classes, whose fields are updated
  in place. The `accept` double dispatch is a `Visitor` sum type matched by
  `AcceptNinja` and `AcceptMision`.
- `App` (app.dfy): the store is a `Store` class with one sequence per table, kept
  in insertion order, and one id counter per table. The handlers are methods
  on it. The create handlers return the new id (`crear_ninja` returns `None`
  when the request fails). The others return a `Status` tag (`Ok`,
  `NotFound`, `Ineligible`, `Unsupported`) in place of an HTTP status code. `Store.Valid()` is the
  schema's constraints. It says:
  - ids are allocated by the counters and increase in table order;
  - village names are unique;
  - every ninja's village is stored;
  - every mission's minimum rank is a key of `RANGO_ORDEN`;
  - every assignment names a stored ninja and a stored mission.

  Every handler keeps `Valid()`.
- `Text` (text.dfy): Python's `sep.join`, `str.split` and `str(n)` for ids, with
  round-trip lemmas.
- `Scenarios` (scenarios.dfy): concrete request sequences on a fresh store,
  such as the one-ninja, one-mission CSV export and requests with a field
  missing. It also has one property that holds for any valid store:
  completing an assignment twice answers and ends as completing it once.

Behaviours of the code that the model keeps:

- `crear_ninja` reads `data['aldea']` first. It then finds or adds the
  village, and commits it, before reading `data['nombre']` and
  `data['rango']`. A missing key raises `KeyError`; there is no invalid-input
  answer. A null value fails the NOT NULL column on commit. So a request with
  a village but no name or no rank fails and still leaves the village stored.
  A request without a village stores nothing.
- A stat that is missing or null is stored as 0: the ORM leaves a `None` out of
  the INSERT, so the column default 0 applies. The model's `None` stands for
  both.
- `crear_ninja` attaches no jutsu; it never reads a `jutsus` field.
- The JSON document's second key is `misiones`.
- Completing an assignment that is already completed succeeds again, and
  `completada` stays true.

## Model

| member | source | states |
|---|---|---|
| `Ranks.MinimumRankFor` | app.py:71 | The stored minimum rank is Genin for D and C, Chūnin for B, and Jōnin for A, S and any other letter. It is always a key of `RANGO_ORDEN`. |
| `Ranks.NinjaRankValue` | app.py:97 | A recognised ninja rank gives its ordinal, which is between 1 and 3. Any other rank gives 0. |
| `Ranks.RequiredRankValue` | app.py:97 | A recognised required rank gives its ordinal, which is between 1 and 3. Any other rank gives 999. |
| `Ranks.IsEligible` | app.py:97 | The guard holds exactly when both ranks are recognised and the required ordinal is at most the ninja's. So an unknown rank on either side always fails the guard, and a Jōnin passes for every recognised minimum. |
| `Ranks.JoninTakesEveryMission` | app.py:97-98 | A Jōnin is eligible for the minimum rank of every mission that can be created, whatever its letter. |
| `Ranks.UnknownRankTakesNothing` | app.py:97-98 | A ninja whose rank is not in `RANGO_ORDEN` is eligible for nothing. |
| `Ranks.EligibilityTransitive` | app.py:16 | Eligibility follows a transitive rank order. |
| `Models.NewNinja` | app.py:39-46 | A new ninja row holds the given id, name, rank and village. Each stat is the given value, or 0 when it is missing or null. |
| `Models.NewAsignacion` | models.py:49 | A new assignment holds the given ninja and mission ids and is not completed. |
| `Models.Find` | app.py:34 | Returns the first index whose element matches, or None exactly when no element matches. |
| `Models.FindAldeaNamed` | app.py:34 | Finds a stored village with the given name, or reports that no stored village has that name. |
| `Models.FindNinja` | app.py:91 | Finds a stored ninja with the given id, or reports that none has it. |
| `Models.FindMision` | app.py:92 | Finds a stored mission with the given id, or reports that none has it. |
| `Models.FindAsignacion` | app.py:108 | Finds a stored assignment with the given id, or reports that none has it. |
| `Models.FindAppend` | app.py:34-38 | Adding a row at the end keeps an earlier match where it was. Otherwise the lookup can only find the new row. |
| `Models.AtMostOneAldeaNamed` | models.py:11 | Under the uniqueness constraint, at most one stored village has any given name. |
| `App.Store.Valid` | models.py:11-48 | The schema's constraints: ids come from the counters and increase in table order; village names are unique; every ninja's village is stored; every mission's minimum rank is recognised; every assignment's ninja and mission are stored. Each handler's contract keeps it. |
| `App.AppendKeepsNinjaRefs` | models.py:47 | Adding a ninja keeps every assignment's ninja stored. |
| `App.AppendKeepsMisionRefs` | models.py:48 | Adding a mission keeps every assignment's mission stored. |
| `Text.NatToString` | exporters.py:21 | An id prints as a non-empty string of decimal digits with no leading zero. |
| `Text.NatToStringValue` | exporters.py:21 | Reading a printed id's digits back gives the id. |
| `Text.NatToStringInjective` | exporters.py:21 | Two different ids never print the same, so the id column tells records apart. |
| `Text.Join` | exporters.py:27 | Joining no parts gives the empty text, and a join begins with its first part. `JoinCount`, `SplitJoin` and `JoinSplit` state the rest of what it means. |
| `Text.SplitJoin` | exporters.py:27 | Splitting the joined text on the separator gives back the non-empty list of parts, when no part contains the separator. |
| `Text.JoinSplit` | exporters.py:27 | Joining the pieces of a split text gives back the text. |
| `Text.JoinCount` | exporters.py:27 | A joined text has exactly one separator between consecutive parts. It has none before the first part and none after the last. |
| `Exporters.NinjaLineFields` | exporters.py:21 | A ninja's CSV line splits on commas into exactly `NINJA`, the id, the name, the rank and the village name, when no field contains a comma. |
| `Exporters.NinjaLine` | exporters.py:21 | A ninja's line begins with `NINJA,`, then the id and a comma. `NinjaLineFields` states its columns. |
| `Exporters.MisionLineFields` | exporters.py:24 | A mission's CSV line splits on commas into exactly `MISION`, the id, the name, the rank and the reward, when no field contains a comma. |
| `Exporters.MisionLine` | exporters.py:24 | A mission's line begins with `MISION,`, then the id and a comma. `MisionLineFields` states its columns. |
| `Exporters.NinjaNameCommaSplitsLine` | exporters.py:21 | Fields are not escaped: a comma in a ninja's name gives a line with more than five columns. |
| `Exporters.NinjaLines` | exporters.py:20-21 | One line for each visited ninja. |
| `Exporters.NinjaLinesAt` | exporters.py:20-21 | Line `i` is the line of the `i`-th ninja visited. |
| `Exporters.MisionLines` | exporters.py:23-24 | One line for each visited mission. |
| `Exporters.MisionLinesAt` | exporters.py:23-24 | Line `i` is the line of the `i`-th mission visited. |
| `Exporters.NinjaEntry` | exporters.py:36-44 | A ninja's JSON entry has exactly the keys id, nombre, rango, aldea, ataque, defensa and chakra. |
| `Exporters.MisionEntry` | exporters.py:47-52 | A mission's JSON entry has exactly the keys id, nombre, rango and recompensa. The minimum rank is not exported. |
| `Exporters.NinjaEntries` | exporters.py:35-44 | One entry for each visited ninja. |
| `Exporters.NinjaEntriesAt` | exporters.py:35-44 | Entry `i` is the entry of the `i`-th ninja visited. |
| `Exporters.MisionEntries` | exporters.py:46-52 | One entry for each visited mission. |
| `Exporters.MisionEntriesAt` | exporters.py:46-52 | Entry `i` is the entry of the `i`-th mission visited. |
| `Exporters.CsvExportVisitor.constructor` | exporters.py:17-18 | A fresh CSV visitor has no lines. |
| `Exporters.CsvExportVisitor.VisitNinja` | exporters.py:20-21 | Appends exactly the ninja's line at the end. The earlier lines stay as they were. |
| `Exporters.CsvExportVisitor.VisitMision` | exporters.py:23-24 | Appends exactly the mission's line at the end. The earlier lines stay as they were. |
| `Exporters.CsvExportVisitor.GetResult` | exporters.py:26-27 | No lines give the empty text. When no line contains a newline and there is at least one line: splitting the text on newlines gives the lines back, and the text has one newline fewer than there are lines. So there is no header and no trailing newline. |
| `Exporters.JsonExportVisitor.constructor` | exporters.py:32-33 | A fresh JSON visitor has empty `ninjas` and `misiones` lists. |
| `Exporters.JsonExportVisitor.VisitNinja` | exporters.py:35-44 | Appends the ninja's entry to `ninjas`. `misiones` is unchanged. |
| `Exporters.JsonExportVisitor.VisitMision` | exporters.py:46-52 | Appends the mission's entry to `misiones`. `ninjas` is unchanged. |
| `Exporters.JsonExportVisitor.Data` | exporters.py:33 | The document has exactly the two keys `ninjas` and `misiones`, which hold the two lists. |
| `Exporters.AcceptNinja` | models.py:31-32 | Has exactly the effect of the given visitor's ninja visit: a CSV visitor gains the ninja's line, and a JSON visitor gains the ninja's entry, in `ninjas` only. |
| `Exporters.AcceptMision` | models.py:42-43 | Has exactly the effect of the given visitor's mission visit: a CSV visitor gains the mission's line, and a JSON visitor gains the mission's entry, in `misiones` only. |
| `Exporters.CsvExportLines` | app.py:121-127 | For a store with at least one record, when no field contains a newline, the exported CSV text reads back as every ninja's line in table order, followed by every mission's line in table order. |
| `App.Store.constructor` | app.py:142 | A fresh database has empty tables, every id counter at 1, and meets the schema's constraints. |
| `App.Store.FindOrCreateAldea` | app.py:34-38 | If a village of that name is stored, returns it and changes nothing. Otherwise adds exactly one village with that name and the next village id. |
| `App.Store.CrearNinja` | app.py:32-49 | Succeeds exactly when the village, name and rank are all given. Without a village, nothing changes. With one, the village of that name is reused, or exactly one is added. On success, exactly one ninja is appended, with the next ninja id, the given fields, stats defaulted to 0, and the village of that name. If the name or rank is missing, no ninja is added, but the village step has already happened. The other tables do not change, and the constraints still hold. |
| `App.Store.CrearMision` | app.py:65-75 | Appends exactly one mission with the next mission id and the minimum rank derived from its letter. Nothing else changes. |
| `App.Store.AsignarMision` | app.py:89-103 | NotFound exactly when the ninja id or the mission id is not stored. Ineligible exactly when both are stored and the guard fails. Ok exactly when both are stored and the guard holds, and then one uncompleted assignment of those two ids is appended. Otherwise the assignments do not change. The other tables never change. |
| `App.Store.CompletarMision` | app.py:106-113 | NotFound exactly when the id is not stored. Either way, the assignment with that id, and only it, ends up completed, whether or not it already was. Nothing else changes. |
| `App.Store.Exportar` | app.py:117-138 | `csv` and `json` give Ok and the export. Any other format gives Unsupported with no body. |
| `App.Store.ExportCsv` | app.py:121-127 | The CSV text is every ninja's line in table order, then every mission's line in table order, joined with newlines. |
| `App.Store.ExportJson` | app.py:129-135 | The JSON data holds each ninja's entry in table order under `ninjas`, and each mission's entry in table order under `misiones`. |
| `Scenarios.ExportOneNinjaOneMision` | app.py:121-127 | The store holds ninja Naruto (Genin, Konoha) and mission Rescue Cat (D, reward 50.0). Its CSV export is exactly `NINJA,1,Naruto,Genin,Konoha`, a newline, and `MISION,1,Rescue Cat,D,50.0`. |
| `Scenarios.NarutoExportText` | exporters.py:21-27 | The two lines of that store join into exactly that text. |
| `Scenarios.ExportXml` | app.py:137-138 | The format `xml` gives Unsupported. |
| `Scenarios.GeninOnB` | app.py:97-98 | A Genin assigned to a B mission gets Ineligible, and no assignment is stored. |
| `Scenarios.JoninOnS` | app.py:100-103 | A Jōnin assigned to an S mission gets Ok, and exactly one uncompleted assignment (1, 1, 1) is stored. |
| `Scenarios.SameVillageTwice` | app.py:34-38 | Two ninjas created with the same village name leave exactly one village. |
| `Scenarios.AssignUnknownMision` | app.py:91-94 | Assigning to a mission id that was never allocated gives NotFound and stores nothing. |
| `Scenarios.MissingNameKeepsVillage` | app.py:34-40 | A request with a new village and no name fails, and the village stays stored with no ninja. |
| `Scenarios.MissingVillageStoresNothing` | app.py:34 | A request without a village fails, and nothing is stored. |
| `Scenarios.CompleteTwice` | app.py:108-113 | On any valid store, completing the same assignment twice gives the same answer both times. It leaves the store as one completion leaves it: only that assignment is completed, and the other tables and every id counter are unchanged. |

## Left out

- The Flask app, routing, `request.json` parsing, `jsonify` and HTTP status
  codes are web-layer I/O. Each handler's parameters are the request's fields,
  and a `Status` tag stands for the status code.
- `index` and `reportes` render HTML templates, so they are left out.
- `listar_ninjas` and `listar_misiones` are read-only listings. They are not
  part of this model.
- The SQLAlchemy session, `add`/`commit`, the sqlite URI and `db.create_all`
  are left out. An in-memory `Store` replaces them, and its ids come from
  per-table counters starting at 1, with no deletions. database.py is not
  part of this model.
- The `String(n)` length limits of the columns are not modelled. SQLite does
  not enforce them.
- `JSONExportVisitor.get_result` calls `json.dumps(..., indent=2)`, a library
  call. Its text formatting is left out; only the data it serialises (`Data`)
  is modelled. The source's dicts keep insertion order and `json.dumps` writes
  keys in that order. A `JsonObject` is an unordered map, so key order is not
  modelled.
- `recompensa` is a float column. Floating point is not modelled: the reward is
  carried as the text it prints as (for example `50.0`), and the JSON value is
  tagged as a float holding that text.
- The `Jutsu` table, the `ninja_jutsu` join table and `Jutsu.tipo` are left out.
  No modelled handler reads or writes them.
- `Ninja.query.all()` and `Mision.query.all()` have no ORDER BY. The model
  assumes they return rows in insertion order, which is also id order.
- Integer width is not modelled. Stats and ids are 64-bit SQLite INTEGERs, and
  binding a value outside [-2^63, 2^63) raises `OverflowError`. So such a stat
  makes `crear_ninja` fail at its commit, after the village step, and such an
  id makes `query.get` in `asignar_mision` or `completar_mision` fail. The
  model's integers are unbounded and have no such failure: `App.Store.CrearNinja`
  stores the ninja, and the lookups answer `NotFound`.
- `crear_mision`, `asignar_mision` and `completar_mision` read their keys with
  `data[...]` before changing anything. So a missing key fails with no change.
  The model takes those fields as typed parameters and has no failing path
  for them.
- Concurrent requests are left out. Two requests racing in the village
  find-or-create step are not modelled; requests run one at a time.
- Request values of the wrong JSON type (for example a string id) are left
  out. Ids are taken as integers, and an id that was never allocated is simply
  not found.
- Exporters.NinjaEntry: its contract states only the key set. The value under
  each key is its definition: the ninja's field, or the village's name under
  `aldea`.
- Exporters.MisionEntry: its contract states only the key set. The value under
  each key is its definition.
- App.Store.CrearNinja: only a missing or null village, name or rank is
  modelled as a failure, and the failure is a `None` result; the error
  response the server sends is not modelled. On success the contract names
  the new ninja's village as a stored village with the requested name.
  Because village names are unique (`Valid`), that is the one such village.
