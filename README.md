# FusionScriptsForPyChrono: a verified model of the interchange-document core

FusionScriptsForPyChrono exports a Fusion 360 assembly as a JSON interchange
document (model name, bodies with mass properties, transforms and geometry
files, joints between bodies, metadata) and rebuilds it as a PyChrono
simulation. This project models the two parts that work on that document:

- **`utils.py`**:
  - `validate_json_export` is the fail-fast structural validator, modelled as a first-failure function.
  - `convert_units` is the five-unit length converter that goes through metres.
  - `get_model_summary` computes the counts, the name lists and the total mass.
- **`pychrono_loader.py`**:
  - `load_model_from_json` builds the system in two passes. First every body record is added and registered by name in `body_map`. Then every joint record is resolved through that table, classified and either added as a link or dropped.
  - `create_body_from_data` and `create_joint_from_data` handle one record each.

All the Python operations the core applies to a document keep their Python
behaviour on every kind of value. Those operations are `k in v`, `v[k]`,
`v.get(k, d)`, truthiness, iteration and `len`, arithmetic, and passing a
value where a `str` is needed. Where Python raises, the model returns an
`Err(PyError)` instead of excluding the input with a precondition.

## Layout

- `wrappers.dfy`: module `Wrappers`, holding `Option` and `Result`. `Result` works with `:-`.
- `json.dfy`: module `Json`, holding the JSON value, the Python exceptions and the Python operations on JSON values.
  - A dict is an ordered list of pairs.
  - Lookup finds the last pair with the key, as `json.load` keeps the last duplicate.
  - `in` on a str is a substring test, proved correct against an independent definition.
- `utils.dfy`: module `Utils`, covering `utils.py`. `CheckBody` and `CheckJoint` are the per-record tests of the two validation loops, and `CheckBodiesFindsFirst`, `CheckBodiesPass`, `CheckJointsFindsFirst` and `CheckJointsPass` state their behaviour.
- `chrono.dfy`: module `Chrono`, an abstract PyChrono.
  - `ChSystem` is a class whose `gravity`, `bodies` and `links` fields are changed in place by `SetGravity`, `AddBody` and `AddLink` (`system.Add`).
  - A body is a `BodySpec`: its name, optional mass, optional position, optional inertia diagonal, the collide flag and the fixed flag. A `None` means that setter was never called.
  - A link is a `LinkSpec`: its kind, the positions of its two bodies, its origin and its name.
- `loader.dfy`: module `PyChronoLoader`, covering `pychrono_loader.py`.
  - Pure specification functions: `BodySpecOf`, `LinkOf`, `BodiesPass`, `JointsPass`, `BodyMap` and `Load`.
  - Helpers of those functions, whose behaviour the lemmas about their callers state:
    - `MassSettingsOf`, `TranslationOf` and `CollidesOf` read one part of a body record. `MassSettingsMeaning`, `BodyMassAndInertia`, `BodyPosition` and `BodyNameAndFlags` state what they contribute.
    - `InEither` is one `a in t or b in t` test of the classification, covered by `ClassifyByName` and `LinkKindOf`.
    - `Records` is `for x in data.get(key, [])`, covered by `Load` and `LoadShape`.
  - Imperative methods that are proved against those functions:
    - `CreateBodyFromData` updates a body record setter by setter, so `SetPos` may run twice.
    - `CreateJointFromData` adds the link it computes.
    - `LoadModelFromJson` uses the two loops `AddBodies` and `AddLinks` and fills `body_map` in place. One iteration of the joint loop is the method `AddJoint`.

The position rule follows the code. The translation is applied after the
centre of mass, so a non-empty `transform.translation` always decides the
position, even when its coordinates are all zero. The centre of mass counts
only when there is no such translation.

A record without `mass_properties` gets no `SetMass` or `SetInertiaXX` call.
Its mass 1.0 and inertia (1, 1, 1) therefore come from the engine's defaults,
which `Chrono.DefaultMass` and `Chrono.DefaultInertia` record.

## Model

| member | source | states |
|---|---|---|
| `Json.LookupMeaning` | utils.py:27 | a dict key is found exactly when some pair carries it, and the value found is the last such pair's, as `json.load` keeps the last duplicate |
| `Json.Keys` | utils.py:112-116 | iterating a dict yields each key exactly once, and exactly the keys the dict has |
| `Json.IsSubstringCorrect` | utils.py:32 | `needle in hay` on strings holds exactly when `needle` occurs in `hay` at some position |
| `Json.ExtensionContainsPrefix` | pychrono_loader.py:217 | whatever str contains `needle + more` contains `needle`, so for a str `type` the `...JointType` alternatives of each classification test add nothing (for a list `type` they do, and `LinkKindOf` keeps them) |
| `Json.FalsyValues` | pychrono_loader.py:88 | a value is false exactly when it is `None`, `False`, `0`, `''`, `[]` or `{}` |
| `Json.In` | utils.py:32 | `k in v` raises `TypeError` exactly on `None`, a bool or a number; on a dict, a true answer means `v[k]` succeeds |
| `Json.Subscript` | utils.py:43 | `v[k]` succeeds exactly on a dict that has `k`; otherwise it raises `KeyError(k)` on a dict and `TypeError` on anything else |
| `Json.Get` | pychrono_loader.py:87 | `v.get(k, d)` succeeds exactly on a dict, raising `AttributeError` otherwise; it agrees with `v[k]` when that succeeds and gives `d` when `k` is absent |
| `Json.Iter` | utils.py:112-116 | iteration succeeds exactly on a list, a str or a dict, raising `TypeError` otherwise; a str yields one item per character, a dict yields only its own keys |
| `Utils.FirstMissing` | utils.py:30-33 | a field reported as missing is one of the fields asked for |
| `Utils.CheckDocument` | utils.py:29-55 | the checks yield only their own messages, never one of the exception messages; a missing field is a required one; a document that is `None`, a bool or a number raises `TypeError` at the first `in` |
| `Utils.CheckParsed` | utils.py:29-62 | a parsed document never gets the file-not-found or parsing message, and gets `ValidationError` exactly when a check raised |
| `Utils.ValidateJsonExport` | utils.py:15-62 | the flag is true exactly when the message is `Valid`; a missing file, a malformed file and a read failure give their own messages |
| `Utils.CheckBodies` | utils.py:39-43 | the body scan reports only a missing name or missing mass properties, and a missing name by an index inside the scanned range |
| `Utils.CheckJoints` | utils.py:49-53 | the joint scan reports only a missing name or a missing type, and a missing name by an index inside the scanned range |
| `Utils.FirstMissingOfObject` | utils.py:30-33 | on a dict, the field check yields the first required field absent at or after position `k`, or nothing |
| `Utils.MissingFieldReported` | utils.py:30-33 | a dict is reported as missing field F exactly when F is the first of model_name, bodies, joints, metadata that it lacks |
| `Utils.AllFieldsPresent` | utils.py:30-33 | with all four fields present the field check passes |
| `Utils.BodiesNotListReported` | utils.py:36-37 | with all four fields present and `bodies` not a list, the message is `BodiesNotList` |
| `Utils.CheckBodiesFindsFirst` | utils.py:39-43 | the first defective body dict is reported: by its index when it lacks `name`, otherwise by its name |
| `Utils.CheckBodiesPass` | utils.py:39-43 | the body scan finds nothing exactly when every body passes both `in` tests |
| `Utils.CheckJointsFindsFirst` | utils.py:49-53 | the first defective joint dict is reported: by its index when it lacks `name`, otherwise by its name |
| `Utils.CheckJointsPass` | utils.py:49-53 | the joint scan finds nothing exactly when every joint passes both `in` tests |
| `Utils.FirstBadBodyReported` | utils.py:39-47 | the first bad body is reported whatever `joints` holds, because bodies are checked before joints |
| `Utils.JointsNotListReported` | utils.py:46-47 | with every body passing and `joints` not a list, the message is `JointsNotList` |
| `Utils.FirstBadJointReported` | utils.py:49-53 | the first bad joint is reported by its index when it lacks `name`; when it lacks `type` it is reported by its name, so the index fallback of `joint.get('name', i)` is never used |
| `Utils.ValidExactlyWhenConforming` | utils.py:29-55 | the answer is `(True, "Valid")`, and the flag is true, exactly when the document was read and passes every check |
| `Utils.StringBodyPasses` | utils.py:40-42 | a body given as a string that mentions both field names passes the body checks, because `in` on a str is a substring test |
| `Utils.ConvertUnits` | utils.py:78-91 | the conversion fails exactly when a unit is outside {mm, cm, m, in, ft}, with that pair of units; otherwise result times metres-per-target-unit equals value times metres-per-source-unit |
| `Utils.FactorPositive` | utils.py:78-84 | every supported unit has a positive factor in metres |
| `Utils.ConvertSameUnit` | utils.py:89-91 | converting to the same unit gives the value back |
| `Utils.ConvertRoundTrip` | utils.py:89-91 | converting from A to B and back gives the original value |
| `Utils.ConvertCompose` | utils.py:89-91 | converting from A to B and then to C equals converting from A to C |
| `Utils.Names` | utils.py:115-116 | the name list has one entry per record, and when it fails, some record's `['name']` raised that exception |
| `Utils.BodyMass` | utils.py:121 | a body that is not a dict raises `AttributeError`; a dict without `mass_properties` adds 0 |
| `Utils.MassTotal` | utils.py:120-123 | the sum of no bodies is 0 and the sum of one body is its mass |
| `Utils.MassTotalDefined` | utils.py:120-123 | the sum is defined exactly when every body's mass is |
| `Utils.ModelSummary` | utils.py:96-129 | an unreadable file gives its read exception; a summary exists only for a parsed dict, and its counts are the lengths of its name lists |
| `Utils.NamesInOrder` | utils.py:115-116 | the name list succeeds exactly when every record has a `name`, and then it holds those names one per record, in document order |
| `Utils.MassTotalAppend` | utils.py:120-123 | the total mass is additive over concatenated body lists |
| `Utils.BodyMassDefaults` | utils.py:121 | a body adds its `mass`, and 0 when `mass_properties` is absent or empty or has no `mass` |
| `Utils.SummaryCounts` | utils.py:110-116 | the counts are the lengths of the name lists, and for list-valued `bodies`/`joints` they equal the list lengths, with names in order |
| `Utils.SummaryDefaults` | utils.py:111-114 | `model_name` defaults to 'Unknown', `units` to 'unknown' when `metadata` or its `units` is absent, and a present `model_name` is reported as is |
| `Utils.SummarySucceeds` | utils.py:106-129 | the summary succeeds exactly when the document is a dict whose bodies and joints can be iterated, whose metadata is a dict, whose records all have names and whose masses add up |
| `Utils.SummaryTotalMass` | utils.py:120-124 | the reported total mass is the sum over the records that `data.get('bodies', [])` iterates |
| `Utils.TotalMassExample` | utils.py:120-124 | two bodies of mass 2.5 and 3.5 give a total mass of 6.0 |
| `Chrono.ChSystem.constructor` | pychrono_loader.py:49 | a new system has no bodies, no links and no gravity set |
| `Chrono.ChSystem.SetGravity` | pychrono_loader.py:50 | gravity is set and nothing else changes |
| `Chrono.ChSystem.AddBody` | pychrono_loader.py:174 | the body is appended and its handle is its position; links and gravity are unchanged |
| `Chrono.ChSystem.AddLink` | pychrono_loader.py:234 | the link, whose bodies are in the system, is appended; the system stays valid |
| `PyChronoLoader.JoinPath` | pychrono_loader.py:126 | an absolute file name replaces the directory; otherwise the result is the directory then the file name, with one '/' added between them exactly when the directory is non-empty and does not already end in one |
| `PyChronoLoader.SplitJoined` | pychrono_loader.py:126 | splitting a joined path gives its parts back: the directory part of `d/f` is `d` and what follows the last '/' is `f` |
| `PyChronoLoader.LastSlash` | pychrono_loader.py:54 | the split point of `os.path.dirname` is the last '/' of the path, or -1 when there is none |
| `PyChronoLoader.TrimTrailingSlashes` | pychrono_loader.py:54 | the result is the input with its trailing slashes removed: a prefix of it, followed in the input only by slashes, and ending in a non-slash when non-empty |
| `PyChronoLoader.DirName` | pychrono_loader.py:54 | the directory part is a prefix of the path, and it is empty when the path has no '/' |
| `PyChronoLoader.GeometryDir` | pychrono_loader.py:53-54 | a given geometry directory is used as is; otherwise the directory part of the document path is followed by `geometries` |
| `PyChronoLoader.GeometriesBesideDocument` | pychrono_loader.py:53-54 | a document `d/f` keeps its geometry in `d/geometries` |
| `PyChronoLoader.GeometriesBesideBareName` | pychrono_loader.py:53-54 | a document named without a directory keeps its geometry in `geometries` |
| `PyChronoLoader.MillimetresToMetresMeaning` | pychrono_loader.py:207-212 | a millimetre vector converts exactly when it is a dict whose x, y, z are absent or numbers, giving each coordinate divided by 1000 with 0 for a missing one; an empty dict gives (0, 0, 0) |
| `PyChronoLoader.InertiaDiagonalMeaning` | pychrono_loader.py:103-109 | the inertia diagonal converts exactly when xx, yy, zz are absent or numbers, with 1.0 for a missing one |
| `PyChronoLoader.BodySpecOf` | pychrono_loader.py:82-176 | a record that is not a dict raises `TypeError`, and a dict without `name` raises `KeyError('name')`, at `body_data['name']`; a body is named by its record's str `name` |
| `PyChronoLoader.CreateBodyFromData` | pychrono_loader.py:82-176 | the setters applied one after another produce exactly the body `BodySpecOf` describes, which is appended to the system at the returned position; an exception leaves the bodies unchanged, and the links and gravity are never changed |
| `PyChronoLoader.BodyPosition` | pychrono_loader.py:93-121 | a non-empty translation decides the position even when its coordinates are all zero; otherwise the centre of mass does, but only inside non-empty mass properties; without either there is no position |
| `PyChronoLoader.BodyMassAndInertia` | pychrono_loader.py:87-109 | mass is set exactly when mass properties are non-empty, and to 1.0 without `mass`; the inertia diagonal is set exactly when `moments_of_inertia` is also non-empty, with 1.0 per missing component |
| `PyChronoLoader.MassSettingsMeaning` | pychrono_loader.py:87-109 | non-empty mass properties set the mass, 1.0 without `mass`, and set the inertia diagonal exactly when `moments_of_inertia` is non-empty too, with 1.0 per missing component; empty ones set neither |
| `PyChronoLoader.AbsentMassPropertiesUseDefaults` | pychrono_loader.py:87-88 | a record without mass properties keeps mass 1.0 and inertia (1, 1, 1) |
| `PyChronoLoader.BodyNameAndFlags` | pychrono_loader.py:84-171 | the body is named by the record's `name`; it is fixed exactly when `is_fixed` is truthy; it collides exactly when `geometry_file` is non-empty and the joined path exists |
| `PyChronoLoader.NameOnlyBody` | pychrono_loader.py:82-176 | a record with only a name gives a free, non-colliding body with no setter called |
| `PyChronoLoader.BodiesPass` | pychrono_loader.py:58-59 | a completed body pass has one body per record |
| `PyChronoLoader.BodyMap` | pychrono_loader.py:61 | the last body added is registered under its name at its own position |
| `PyChronoLoader.BodiesPassOnePerRecord` | pychrono_loader.py:58-59 | the body pass succeeds exactly when every record does, and then yields one body per record in document order |
| `PyChronoLoader.BodiesPassStep` | pychrono_loader.py:58-59 | one more record extends the body pass by its body |
| `PyChronoLoader.BodyMapStep` | pychrono_loader.py:61 | a new body is registered under its name at its position, replacing an earlier entry |
| `PyChronoLoader.BodiesPassKeepsError` | pychrono_loader.py:58-59 | the first record that raises ends the pass with its exception |
| `PyChronoLoader.BodyMapLastWins` | pychrono_loader.py:57-61 | a name is in `body_map` exactly when some body has it, and it maps to the last body with that name |
| `PyChronoLoader.BodyMapInRange` | pychrono_loader.py:57-61 | every entry of `body_map` is the position of a body of the system |
| `PyChronoLoader.Resolve` | pychrono_loader.py:200-201 | `body_map.get(name)` raises `TypeError` exactly for a list or dict name (unhashable); it finds a body exactly when the name is a registered str, and then gives that body's position |
| `PyChronoLoader.LinkKindOf` | pychrono_loader.py:217-230 | classification raises `TypeError` exactly for a `None`, bool or number type; a list type is classified by list membership of the class names and their `...JointType` forms, in the order Revolute, Rigid, Slider |
| `PyChronoLoader.LinkOf` | pychrono_loader.py:191-234 | a joint record that is not a dict raises `AttributeError` at `joint_data.get`; a link joins two bodies registered in `body_map` |
| `PyChronoLoader.CreateJointFromData` | pychrono_loader.py:191-236 | the result is the joint's link or the exception it raises; the link, if any, is appended and the bodies and gravity are unchanged |
| `PyChronoLoader.ClassifyByName` | pychrono_loader.py:217-230 | a type string is classified by an ordered substring test: Revolute, else Rigid (lock), else Slider (prismatic), else nothing |
| `PyChronoLoader.ClassifyByPrefix` | pychrono_loader.py:217-230 | a type beginning with Revolute, Rigid or Slider gets that class, provided no earlier class name occurs in it |
| `PyChronoLoader.ClassifyWithoutCapitals` | pychrono_loader.py:217-230 | the test is case-sensitive: a type without the capitals R and S, such as `revolute`, matches no class |
| `PyChronoLoader.NotIn` | pychrono_loader.py:217 | a needle with a character the type lacks is not found in it |
| `PyChronoLoader.JointWithoutBodyNamesDropped` | pychrono_loader.py:194-198 | a joint with a missing or empty body name adds nothing and raises nothing |
| `PyChronoLoader.JointWithUnknownBodyDropped` | pychrono_loader.py:200-204 | a joint whose body names `body_map.get` does not both find (an unregistered str, a number, a bool) adds nothing and raises nothing, when neither lookup raises |
| `PyChronoLoader.LinkEnds` | pychrono_loader.py:191-236 | an added link joins the registered bodies the joint names, sits at the origin divided by 1000 ((0, 0, 0) when absent), has the class of the joint type and is named by the joint's `name` or '' |
| `PyChronoLoader.LinkAdded` | pychrono_loader.py:191-236 | a well-formed joint between registered bodies whose type has a class yields exactly that link |
| `PyChronoLoader.JointsPass` | pychrono_loader.py:64-65 | a completed joint pass has at most one link per joint record |
| `PyChronoLoader.JointsPassStep` | pychrono_loader.py:64-65 | one more joint record extends the joint pass by its link, if any |
| `PyChronoLoader.JointsPassKeepsError` | pychrono_loader.py:64-65 | the first joint record that raises ends the pass with its exception |
| `PyChronoLoader.JointsPassBounded` | pychrono_loader.py:64-65 | the joint pass adds at most one link per record, and every link joins bodies of the system |
| `PyChronoLoader.AddBodies` | pychrono_loader.py:57-61 | the body loop leaves exactly the bodies of the body pass in the system and returns `body_map` for them, or the first exception; links and gravity are unchanged |
| `PyChronoLoader.AddJoint` | pychrono_loader.py:64-65 | one iteration of the joint loop extends the links exactly as the joint pass does for one more record, or raises that record's exception, leaving bodies and gravity unchanged |
| `PyChronoLoader.AddLinks` | pychrono_loader.py:64-65 | the joint loop appends exactly the links of the joint pass, or stops with the first exception; bodies and gravity are unchanged |
| `PyChronoLoader.Load` | pychrono_loader.py:30-67 | an unreadable file gives its read exception, and a parsed document that is not a dict raises `AttributeError` at `model_data.get`; a load has one body per body record and at most one link per joint record |
| `PyChronoLoader.LoadModelFromJson` | pychrono_loader.py:30-67 | the load succeeds exactly when `Load` does, with the same exception otherwise; the new system has gravity (0, -9.81, 0) and exactly the bodies and links `Load` describes |
| `PyChronoLoader.LoadShape` | pychrono_loader.py:56-65 | a load has one body per body record in document order, at most one link per joint record, and links only between its own bodies |

## Left out

- PyChrono itself is not part of this model. The system, bodies and links are the abstract `Chrono` records above. Mesh loading, collision-model building and visual shapes (pychrono_loader.py:132-167) reduce to the `collide` flag, so an exception raised while loading a mesh is not modelled.
- The engine defaults for a body that never gets `SetMass` or `SetInertiaXX` are taken as mass 1.0 and inertia (1, 1, 1). They are stated as constants, not derived.
- The `ImportError` raised when PyChrono is not installed (pychrono_loader.py:21-27, 41-42) is not modelled, because it depends on the host environment.
- Opening and parsing the file is not modelled. It is a `Source` parameter: parsed document, missing file, malformed JSON or other read failure. The text of exception messages (`str(e)`) is not modelled either.
- A validator message is a `Message` constructor carrying its data. It is not rendered as an f-string.
- `os.path.exists` is the `fileExists` parameter.
- Paths follow POSIX `os.path` (`posixpath`) semantics for `os.path.dirname` and `os.path.join` (pychrono_loader.py:54, 126): only '/' separates. Windows path semantics (`ntpath`: `\` as a separator, drive letters) are not modelled, so a path such as `C:\m\model.json` has an empty directory part here.
- Numbers are Dafny reals. IEEE rounding and the distinction between Python `int` and `float` are not modelled, so `sum` starting from the integer 0 is the real 0.0.
- SWIG argument conversion is modelled only as far as the core needs:
  - a number or a `bool` is accepted where a `double` is expected;
  - only a `str` is accepted where a string is expected;
  - anything else raises `TypeError`.
- Utils.ConvertUnits: `value` is a real number. A non-numeric `value`, which Python rejects with `TypeError`, is not modelled.
- PyChronoLoader.AddBodies: says nothing about the system once a record has raised. The exception leaves `load_model_from_json`, and the half-built system is unreachable.
- PyChronoLoader.AddLinks: says nothing about the links once a record has raised, for the same reason.
- Bodies and links are identified by their position in the system rather than by object identity. `body_map` therefore maps a name to a position.
- `create_visualization`, `print_model_summary`, `create_export_config` and the command-line `__main__` blocks are not modelled: they are console, file-writing and GUI code.
- ExportToPyChrono.py, CableExport.py and example_simulation.py are not part of this model: they are Fusion 360 host-API calls, dialogs and the simulation loop.
