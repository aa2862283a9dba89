/**
 * The document utilities of utils.py: the structural validator, the unit
 * converter and the model summary, all as total functions over a parsed
 * document (or over the outcome of reading it).
 */
module Utils {
  import opened Wrappers
  import opened Json

  // ===========================================================================
  // validate_json_export

  /** The validator's verdict: one constructor per message it can return. */
  datatype Message =
    | Valid
    | MissingField(field: string)             // a top-level field is missing
    | BodiesNotList                           // `bodies` is present but not a list
    | BodyMissingName(index: nat)             // body at `index` has no `name`
    | BodyMissingMassProperties(name: Json)   // body called `name` has no `mass_properties`
    | JointsNotList                           // `joints` is present but not a list
    | JointMissingName(index: nat)            // joint at `index` has no `name`
    | JointMissingType(tag: Json)             // joint known as `tag` has no `type`
    | JsonParsingError                        // the file is not JSON
    | FileNotFound(path: string)              // the file does not exist
    | ValidationError                         // any other exception

  /** The top-level fields the validator demands, in the order it checks them. */
  const RequiredFields: seq<string> := ["model_name", "bodies", "joints", "metadata"]

  /** The first of `fields` that `data` does not contain, by Python's `in`. */
  function FirstMissing(data: Json, fields: seq<string>): (r: Result<Option<string>, PyError>)
    ensures r.Ok? && r.value.Some? ==> r.value.value in fields
  {
    if fields == [] then Ok(None)
    else
      var present :- In(fields[0], data);
      if !present then Ok(Some(fields[0])) else FirstMissing(data, fields[1..])
  }

  /** The checks on the body at position `i`: `name` first, then `mass_properties`. */
  function CheckBody(body: Json, i: nat): Result<Option<Message>, PyError> {
    var hasName :- In("name", body);
    if !hasName then Ok(Some(BodyMissingName(i)))
    else
      // the first test did not raise, so neither does this one
      var hasMass := In("mass_properties", body).value;
      if hasMass then Ok(None)
      else
        var name :- Subscript(body, "name");
        Ok(Some(BodyMissingMassProperties(name)))
  }

  /** The first complaint about `bodies[i..]`, in index order. */
  function CheckBodies(bodies: seq<Json>, i: nat): (r: Result<Option<Message>, PyError>)
    requires i <= |bodies|
    ensures r.Ok? && r.value.Some? ==> r.value.value.BodyMissingName? || r.value.value.BodyMissingMassProperties?
    ensures r.Ok? && r.value.Some? && r.value.value.BodyMissingName? ==> i <= r.value.value.index < |bodies|
    decreases |bodies| - i
  {
    if i == |bodies| then Ok(None)
    else
      var m :- CheckBody(bodies[i], i);
      if m.Some? then Ok(m) else CheckBodies(bodies, i + 1)
  }

  /** The checks on the joint at position `i`; a missing type is reported by `joint.get('name', i)`. */
  function CheckJoint(joint: Json, i: nat): Result<Option<Message>, PyError> {
    var hasName :- In("name", joint);
    if !hasName then Ok(Some(JointMissingName(i)))
    else
      var hasType := In("type", joint).value;
      if hasType then Ok(None)
      else
        var tag :- Get(joint, "name", Num(i as real));
        Ok(Some(JointMissingType(tag)))
  }

  function CheckJoints(joints: seq<Json>, i: nat): (r: Result<Option<Message>, PyError>)
    requires i <= |joints|
    ensures r.Ok? && r.value.Some? ==> r.value.value.JointMissingName? || r.value.value.JointMissingType?
    ensures r.Ok? && r.value.Some? && r.value.value.JointMissingName? ==> i <= r.value.value.index < |joints|
    decreases |joints| - i
  {
    if i == |joints| then Ok(None)
    else
      var m :- CheckJoint(joints[i], i);
      if m.Some? then Ok(m) else CheckJoints(joints, i + 1)
  }

  /** The checks in their fixed order; the first that fails decides the message. */
  function CheckDocument(data: Json): (r: Result<Message, PyError>)
    ensures r.Ok? ==> !r.value.JsonParsingError? && !r.value.FileNotFound? && !r.value.ValidationError?
    ensures r.Ok? && r.value.MissingField? ==> r.value.field in RequiredFields
    ensures data.Null? || data.Bool? || data.Num? ==> r == Err(TypeError)
  {
    var missing :- FirstMissing(data, RequiredFields);
    if missing.Some? then Ok(MissingField(missing.value))
    else
      var bodies :- Subscript(data, "bodies");
      if !bodies.Arr? then Ok(BodiesNotList)
      else
        var badBody :- CheckBodies(bodies.items, 0);
        if badBody.Some? then Ok(badBody.value)
        else
          var joints :- Subscript(data, "joints");
          if !joints.Arr? then Ok(JointsNotList)
          else
            var badJoint :- CheckJoints(joints.items, 0);
            if badJoint.Some? then Ok(badJoint.value) else Ok(Valid)
  }

  /** The verdict on a parsed document; an exception raised by a check becomes `ValidationError`. */
  function CheckParsed(data: Json): (m: Message)
    ensures !m.JsonParsingError? && !m.FileNotFound?
    ensures m == ValidationError <==> CheckDocument(data).Err?
  {
    match CheckDocument(data)
    case Ok(m) => m
    case Err(_) => ValidationError
  }

  /** `validate_json_export(path)`, given what reading and parsing `path` produced. */
  function ValidateJsonExport(path: string, src: Source): (r: (bool, Message))
    ensures r.0 <==> r.1 == Valid
    ensures src.NotFound? ==> r.1 == FileNotFound(path)
    ensures src.Malformed? ==> r.1 == JsonParsingError
    ensures src.Unreadable? ==> r.1 == ValidationError
  {
    match src
    case NotFound => (false, FileNotFound(path))
    case Malformed => (false, JsonParsingError)
    case Unreadable => (false, ValidationError)
    case Parsed(data) =>
      var m := CheckParsed(data);
      (m == Valid, m)
  }

  // ---- what the validator accepts and reports

  /** A body passes when `'name' in body` and `'mass_properties' in body` both hold. */
  ghost predicate BodyPasses(body: Json) {
    In("name", body) == Ok(true) && In("mass_properties", body) == Ok(true)
  }

  ghost predicate JointPasses(joint: Json) {
    In("name", joint) == Ok(true) && In("type", joint) == Ok(true)
  }

  ghost predicate HasRequiredFields(fields: seq<(string, Json)>) {
    HasKey(fields, "model_name") && HasKey(fields, "bodies") &&
    HasKey(fields, "joints") && HasKey(fields, "metadata")
  }

  /** `bodies` is a list and every body passes. */
  ghost predicate BodiesConform(fields: seq<(string, Json)>)
    requires HasKey(fields, "bodies")
  {
    var bodies := Lookup(fields, "bodies").value;
    bodies.Arr? && forall j :: 0 <= j < |bodies.items| ==> BodyPasses(bodies.items[j])
  }

  ghost predicate JointsConform(fields: seq<(string, Json)>)
    requires HasKey(fields, "joints")
  {
    var joints := Lookup(fields, "joints").value;
    joints.Arr? && forall j :: 0 <= j < |joints.items| ==> JointPasses(joints.items[j])
  }

  /** Everything the validator demands of a document. */
  ghost predicate Conforms(data: Json) {
    data.Obj? && HasRequiredFields(data.fields) &&
    BodiesConform(data.fields) && JointsConform(data.fields)
  }

  /** `k` is the first required field, in declaration order, that `fields` lacks. */
  ghost predicate FirstAbsent(fields: seq<(string, Json)>, k: nat) {
    k < |RequiredFields| && !HasKey(fields, RequiredFields[k]) &&
    forall j :: 0 <= j < k ==> HasKey(fields, RequiredFields[j])
  }

  lemma {:induction false} FirstMissingOfObject(fields: seq<(string, Json)>, k: nat)
    requires k <= |RequiredFields|
    ensures FirstMissing(Obj(fields), RequiredFields[k..]) ==
      var n := FirstAbsentFrom(fields, k);
      if n < |RequiredFields| then Ok(Some(RequiredFields[n])) else Ok(None)
    decreases |RequiredFields| - k
  {
    if k < |RequiredFields| {
      assert RequiredFields[k..][1..] == RequiredFields[k + 1..];
      FirstMissingOfObject(fields, k + 1);
    }
  }

  /** The position of the first required field at or after `k` that `fields` lacks (4 when none). */
  function FirstAbsentFrom(fields: seq<(string, Json)>, k: nat): (n: nat)
    requires k <= |RequiredFields|
    ensures k <= n <= |RequiredFields|
    ensures forall j :: k <= j < n ==> HasKey(fields, RequiredFields[j])
    ensures n < |RequiredFields| ==> !HasKey(fields, RequiredFields[n])
    decreases |RequiredFields| - k
  {
    if k == |RequiredFields| || !HasKey(fields, RequiredFields[k]) then k
    else FirstAbsentFrom(fields, k + 1)
  }

  /**
   * A dict that lacks a required field is reported by the first missing one
   * in declaration order, and only then.
   */
  lemma MissingFieldReported(fields: seq<(string, Json)>, f: string)
    ensures CheckParsed(Obj(fields)) == MissingField(f) <==>
      exists k: nat :: FirstAbsent(fields, k) && RequiredFields[k] == f
  {
    FirstMissingOfObject(fields, 0);
    assert RequiredFields[0..] == RequiredFields;
    var n := FirstAbsentFrom(fields, 0);
    if n < |RequiredFields| {
      assert FirstAbsent(fields, n);
      forall k: nat | FirstAbsent(fields, k) ensures k == n {
      }
    }
  }

  lemma AllFieldsPresent(fields: seq<(string, Json)>)
    requires HasRequiredFields(fields)
    ensures FirstMissing(Obj(fields), RequiredFields) == Ok(None)
  {
    FirstMissingOfObject(fields, 0);
    assert RequiredFields[0..] == RequiredFields;
    assert FirstAbsentFrom(fields, 0) == |RequiredFields|;
  }

  /** With all four fields present, a `bodies` that is not a list is reported as such. */
  lemma BodiesNotListReported(fields: seq<(string, Json)>)
    requires HasRequiredFields(fields)
    requires !Lookup(fields, "bodies").value.Arr?
    ensures CheckParsed(Obj(fields)) == BodiesNotList
  {
    AllFieldsPresent(fields);
  }

  /** A body record that is a dict but lacks a field the validator asks for. */
  ghost predicate BodyDefect(body: Json) {
    body.Obj? && (!HasKey(body.fields, "name") || !HasKey(body.fields, "mass_properties"))
  }

  ghost predicate JointDefect(joint: Json) {
    joint.Obj? && (!HasKey(joint.fields, "name") || !HasKey(joint.fields, "type"))
  }

  lemma {:induction false} CheckBodiesFindsFirst(bodies: seq<Json>, i: nat, k: nat)
    requires i <= k < |bodies|
    requires BodyDefect(bodies[k])
    requires forall j :: i <= j < k ==> BodyPasses(bodies[j])
    ensures CheckBodies(bodies, i) == Ok(Some(
      if !HasKey(bodies[k].fields, "name") then BodyMissingName(k)
      else BodyMissingMassProperties(Lookup(bodies[k].fields, "name").value)))
    decreases k - i
  {
    if i < k {
      CheckBodiesFindsFirst(bodies, i + 1, k);
    }
  }

  lemma {:induction false} CheckBodiesPass(bodies: seq<Json>, i: nat)
    requires i <= |bodies|
    ensures CheckBodies(bodies, i) == Ok(None) <==> forall j :: i <= j < |bodies| ==> BodyPasses(bodies[j])
    decreases |bodies| - i
  {
    if i < |bodies| {
      CheckBodiesPass(bodies, i + 1);
    }
  }

  lemma {:induction false} CheckJointsFindsFirst(joints: seq<Json>, i: nat, k: nat)
    requires i <= k < |joints|
    requires JointDefect(joints[k])
    requires forall j :: i <= j < k ==> JointPasses(joints[j])
    ensures CheckJoints(joints, i) == Ok(Some(
      if !HasKey(joints[k].fields, "name") then JointMissingName(k)
      else JointMissingType(Lookup(joints[k].fields, "name").value)))
    decreases k - i
  {
    if i < k {
      CheckJointsFindsFirst(joints, i + 1, k);
    }
  }

  lemma {:induction false} CheckJointsPass(joints: seq<Json>, i: nat)
    requires i <= |joints|
    ensures CheckJoints(joints, i) == Ok(None) <==> forall j :: i <= j < |joints| ==> JointPasses(joints[j])
    decreases |joints| - i
  {
    if i < |joints| {
      CheckJointsPass(joints, i + 1);
    }
  }

  /**
   * Bodies are checked before `joints` is looked at: the first defective body
   * (a dict without `name`, or else without `mass_properties`) is reported
   * whatever `joints` holds.
   */
  lemma FirstBadBodyReported(fields: seq<(string, Json)>, items: seq<Json>, k: nat)
    requires HasRequiredFields(fields)
    requires Lookup(fields, "bodies") == Some(Arr(items))
    requires k < |items| && BodyDefect(items[k])
    requires forall j :: 0 <= j < k ==> BodyPasses(items[j])
    ensures CheckParsed(Obj(fields)) ==
      if !HasKey(items[k].fields, "name") then BodyMissingName(k)
      else BodyMissingMassProperties(Lookup(items[k].fields, "name").value)
  {
    AllFieldsPresent(fields);
    CheckBodiesFindsFirst(items, 0, k);
  }

  /** With every body passing, a `joints` that is not a list is reported as such. */
  lemma JointsNotListReported(fields: seq<(string, Json)>)
    requires HasRequiredFields(fields) && BodiesConform(fields)
    requires !Lookup(fields, "joints").value.Arr?
    ensures CheckParsed(Obj(fields)) == JointsNotList
  {
    AllFieldsPresent(fields);
    CheckBodiesPass(Lookup(fields, "bodies").value.items, 0);
  }

  /**
   * The first defective joint is reported by its index when it has no `name`;
   * when it has no `type` it is reported by its name, never by the index that
   * `joint.get('name', i)` would fall back to.
   */
  lemma FirstBadJointReported(fields: seq<(string, Json)>, items: seq<Json>, k: nat)
    requires HasRequiredFields(fields) && BodiesConform(fields)
    requires Lookup(fields, "joints") == Some(Arr(items))
    requires k < |items| && JointDefect(items[k])
    requires forall j :: 0 <= j < k ==> JointPasses(items[j])
    ensures CheckParsed(Obj(fields)) ==
      if !HasKey(items[k].fields, "name") then JointMissingName(k)
      else JointMissingType(Lookup(items[k].fields, "name").value)
  {
    AllFieldsPresent(fields);
    CheckBodiesPass(Lookup(fields, "bodies").value.items, 0);
    CheckJointsFindsFirst(items, 0, k);
  }

  /** The validator answers `(True, "Valid")` exactly when no check fails. */
  lemma ValidExactlyWhenConforming(path: string, src: Source)
    ensures ValidateJsonExport(path, src) == (true, Valid) <==> src.Parsed? && Conforms(src.doc)
    ensures ValidateJsonExport(path, src).0 <==> src.Parsed? && Conforms(src.doc)
  {
    if src.Parsed? {
      var data := src.doc;
      if data.Obj? && HasRequiredFields(data.fields) {
        AllFieldsPresent(data.fields);
        var bodies := Lookup(data.fields, "bodies").value;
        if bodies.Arr? {
          CheckBodiesPass(bodies.items, 0);
          var joints := Lookup(data.fields, "joints").value;
          if joints.Arr? {
            CheckJointsPass(joints.items, 0);
          }
        }
      } else if data.Obj? {
        FirstMissingOfObject(data.fields, 0);
        assert RequiredFields[0..] == RequiredFields;
      }
    }
  }

  /**
   * Python's `in` is a substring test on a str, so a body given as a string
   * that mentions both field names passes the body checks.
   */
  lemma StringBodyPasses()
    ensures BodyPasses(Str("name, mass_properties"))
  {
    var s := "name, mass_properties";
    assert OccursAt("name", s, 0);
    assert OccursAt("mass_properties", s, 6);
    IsSubstringCorrect("name", s);
    IsSubstringCorrect("mass_properties", s);
  }

  // ===========================================================================
  // convert_units

  /** Metres per unit, for the units the converter knows. */
  const ToMeters: map<string, real> :=
    map["mm" := 0.001, "cm" := 0.01, "m" := 1.0, "in" := 0.0254, "ft" := 0.3048]

  const SupportedUnits: set<string> := {"mm", "cm", "m", "in", "ft"}

  datatype UnitError = UnsupportedConversion(fromUnit: string, toUnit: string)

  /**
   * `convert_units(value, from_unit, to_unit)`: through metres, or the
   * `ValueError` for a unit outside the table on either side.
   */
  function ConvertUnits(value: real, fromUnit: string, toUnit: string): (r: Result<real, UnitError>)
    ensures r.Err? <==> fromUnit !in SupportedUnits || toUnit !in SupportedUnits
    ensures r.Err? ==> r.error == UnsupportedConversion(fromUnit, toUnit)
    ensures r.Ok? ==> r.value * ToMeters[toUnit] == value * ToMeters[fromUnit]
  {
    if fromUnit !in ToMeters || toUnit !in ToMeters then Err(UnsupportedConversion(fromUnit, toUnit))
    else
      var valueInMeters := value * ToMeters[fromUnit];
      Ok(valueInMeters / ToMeters[toUnit])
  }

  lemma FactorPositive(u: string)
    requires u in SupportedUnits
    ensures u in ToMeters && ToMeters[u] > 0.0
  {
  }

  /** Converting to the same unit changes nothing. */
  lemma ConvertSameUnit(x: real, u: string)
    requires u in SupportedUnits
    ensures ConvertUnits(x, u, u) == Ok(x)
  {
  }

  /** Converting there and back gives the original value. */
  lemma ConvertRoundTrip(x: real, a: string, b: string)
    requires a in SupportedUnits && b in SupportedUnits
    ensures ConvertUnits(x, a, b).Ok?
    ensures ConvertUnits(ConvertUnits(x, a, b).value, b, a) == Ok(x)
  {
  }

  /** Two conversions in a row are one conversion. */
  lemma ConvertCompose(x: real, a: string, b: string, c: string)
    requires a in SupportedUnits && b in SupportedUnits && c in SupportedUnits
    ensures ConvertUnits(x, a, b).Ok?
    ensures ConvertUnits(ConvertUnits(x, a, b).value, b, c) == ConvertUnits(x, a, c)
  {
  }

  // ===========================================================================
  // get_model_summary

  datatype Summary = Summary(
    modelName: Json,
    numBodies: nat,
    numJoints: nat,
    units: Json,
    bodies: seq<Json>,
    joints: seq<Json>,
    totalMass: real)

  /** `[item['name'] for item in items]`. */
  function Names(items: seq<Json>): (r: Result<seq<Json>, PyError>)
    ensures r.Ok? ==> |r.value| == |items|
    ensures r.Err? ==> exists i :: 0 <= i < |items| && Subscript(items[i], "name") == Err(r.error)
  {
    if items == [] then Ok([])
    else
      var first :- Subscript(items[0], "name");
      var rest :- Names(items[1..]);
      Ok([first] + rest)
  }

  /** What one body adds to the total: `body.get('mass_properties', {}).get('mass', 0)`. */
  function BodyMass(body: Json): (r: Result<real, PyError>)
    ensures !body.Obj? ==> r == Err(AttributeError)
    ensures body.Obj? && !HasKey(body.fields, "mass_properties") ==> r == Ok(0.0)
  {
    var props :- Get(body, "mass_properties", Obj([]));
    var mass :- Get(props, "mass", Num(0.0));
    AsNumber(mass)
  }

  /** `sum(...)` of the body masses, from left to right. */
  function MassTotal(items: seq<Json>): (r: Result<real, PyError>)
    ensures items == [] ==> r == Ok(0.0)
    ensures |items| == 1 ==> r == BodyMass(items[0])
  {
    if items == [] then Ok(0.0)
    else
      var first :- BodyMass(items[0]);
      var rest :- MassTotal(items[1..]);
      Ok(first + rest)
  }

  /** `get_model_summary(path)`; every exception becomes the `error` entry. */
  function ModelSummary(src: Source): (r: Result<Summary, PyError>)
    ensures !src.Parsed? ==> r == Err(ReadError(src))
    ensures r.Ok? ==> src.Parsed? && src.doc.Obj?
    ensures r.Ok? ==> r.value.numBodies == |r.value.bodies| && r.value.numJoints == |r.value.joints|
  {
    if !src.Parsed? then Err(ReadError(src))
    else
      var data := src.doc;
      var modelName :- Get(data, "model_name", Str("Unknown"));
      // `data.get` did not raise, so `data` is a dict and the other `.get` calls do not either
      var bodiesValue := Lookup(data.fields, "bodies").GetOr(Arr([]));
      var bodies :- Iter(bodiesValue);
      var jointsValue := Lookup(data.fields, "joints").GetOr(Arr([]));
      var joints :- Iter(jointsValue);
      var metadata := Lookup(data.fields, "metadata").GetOr(Obj([]));
      var units :- Get(metadata, "units", Str("unknown"));
      var bodyNames :- Names(bodies);
      var jointNames :- Names(joints);
      var totalMass :- MassTotal(bodies);
      Ok(Summary(modelName, |bodies|, |joints|, units, bodyNames, jointNames, totalMass))
  }

  // ---- what the summary reports

  /** The name list keeps document order, one name per record. */
  lemma {:induction false} NamesInOrder(items: seq<Json>)
    ensures Names(items).Ok? <==> forall i :: 0 <= i < |items| ==> Subscript(items[i], "name").Ok?
    ensures Names(items).Ok? ==>
      |Names(items).value| == |items| &&
      forall i :: 0 <= i < |items| ==> Names(items).value[i] == Subscript(items[i], "name").value
  {
    if items != [] {
      NamesInOrder(items[1..]);
      assert forall i :: 1 <= i < |items| ==> items[i] == items[1..][i - 1];
    }
  }

  /** The total is defined exactly when every body's mass is. */
  lemma {:induction false} MassTotalDefined(items: seq<Json>)
    ensures MassTotal(items).Ok? <==> forall i :: 0 <= i < |items| ==> BodyMass(items[i]).Ok?
  {
    if items != [] {
      MassTotalDefined(items[1..]);
      assert forall i :: 1 <= i < |items| ==> items[i] == items[1..][i - 1];
    }
  }

  /** The total is additive over the body list. */
  lemma {:induction false} MassTotalAppend(a: seq<Json>, b: seq<Json>)
    ensures MassTotal(a + b).Ok? <==> MassTotal(a).Ok? && MassTotal(b).Ok?
    ensures MassTotal(a + b).Ok? ==> MassTotal(a + b).value == MassTotal(a).value + MassTotal(b).value
  {
    if a != [] {
      assert (a + b)[1..] == a[1..] + b;
      MassTotalAppend(a[1..], b);
    } else {
      assert a + b == b;
    }
  }

  /** A body adds its `mass`, and 0 when `mass_properties` or `mass` is absent. */
  lemma BodyMassDefaults(body: seq<(string, Json)>)
    ensures !HasKey(body, "mass_properties") ==> BodyMass(Obj(body)) == Ok(0.0)
    ensures Lookup(body, "mass_properties") == Some(Obj([])) ==> BodyMass(Obj(body)) == Ok(0.0)
    ensures forall props, m ::
      Lookup(body, "mass_properties") == Some(Obj(props)) && Lookup(props, "mass") == Some(Num(m)) ==>
        BodyMass(Obj(body)) == Ok(m)
    ensures forall props ::
      Lookup(body, "mass_properties") == Some(Obj(props)) && !HasKey(props, "mass") ==>
        BodyMass(Obj(body)) == Ok(0.0)
  {
  }

  /** The counts are the lengths of the lists, and the names are the records' names in order. */
  lemma SummaryCounts(src: Source)
    requires ModelSummary(src).Ok?
    ensures var s := ModelSummary(src).value;
      s.numBodies == |s.bodies| && s.numJoints == |s.joints|
    ensures forall items ::
      Lookup(src.doc.fields, "bodies") == Some(Arr(items)) ==>
        var s := ModelSummary(src).value;
        s.numBodies == |items| &&
        forall i :: 0 <= i < |items| ==> Subscript(items[i], "name") == Ok(s.bodies[i])
    ensures forall items ::
      Lookup(src.doc.fields, "joints") == Some(Arr(items)) ==>
        var s := ModelSummary(src).value;
        s.numJoints == |items| &&
        forall i :: 0 <= i < |items| ==> Subscript(items[i], "name") == Ok(s.joints[i])
  {
    var data := src.doc;
    NamesInOrder(Iter(Get(data, "bodies", Arr([])).value).value);
    NamesInOrder(Iter(Get(data, "joints", Arr([])).value).value);
  }

  /** `model_name` defaults to 'Unknown' and `units` to 'unknown'. */
  lemma SummaryDefaults(src: Source)
    requires ModelSummary(src).Ok?
    ensures src.Parsed? && src.doc.Obj?
    ensures !HasKey(src.doc.fields, "model_name") ==> ModelSummary(src).value.modelName == Str("Unknown")
    ensures HasKey(src.doc.fields, "model_name") ==>
      ModelSummary(src).value.modelName == Lookup(src.doc.fields, "model_name").value
    ensures !HasKey(src.doc.fields, "metadata") ==> ModelSummary(src).value.units == Str("unknown")
    ensures forall meta ::
      Lookup(src.doc.fields, "metadata") == Some(Obj(meta)) && !HasKey(meta, "units") ==>
        ModelSummary(src).value.units == Str("unknown")
    ensures forall meta, u ::
      Lookup(src.doc.fields, "metadata") == Some(Obj(meta)) && Lookup(meta, "units") == Some(u) ==>
        ModelSummary(src).value.units == u
  {
  }

  /**
   * The summary succeeds exactly on a readable dict whose `bodies` and
   * `joints` (default `[]`) can be iterated, whose `metadata` (default `{}`)
   * is a dict, whose records all have a `name` and whose masses can be added.
   */
  lemma SummarySucceeds(data: Json)
    ensures ModelSummary(Parsed(data)).Ok? <==> (
      data.Obj? &&
      var bodiesValue := Lookup(data.fields, "bodies").GetOr(Arr([]));
      var jointsValue := Lookup(data.fields, "joints").GetOr(Arr([]));
      Iter(bodiesValue).Ok? && Iter(jointsValue).Ok? &&
      Lookup(data.fields, "metadata").GetOr(Obj([])).Obj? &&
      (forall i :: 0 <= i < |Iter(bodiesValue).value| ==> Subscript(Iter(bodiesValue).value[i], "name").Ok?) &&
      (forall i :: 0 <= i < |Iter(jointsValue).value| ==> Subscript(Iter(jointsValue).value[i], "name").Ok?) &&
      MassTotal(Iter(bodiesValue).value).Ok?)
  {
    if data.Obj? {
      var bodiesValue := Lookup(data.fields, "bodies").GetOr(Arr([]));
      var jointsValue := Lookup(data.fields, "joints").GetOr(Arr([]));
      if Iter(bodiesValue).Ok? && Iter(jointsValue).Ok? {
        NamesInOrder(Iter(bodiesValue).value);
        NamesInOrder(Iter(jointsValue).value);
      }
    }
  }

  /** The reported total is the sum over the records `data.get('bodies', [])` iterates. */
  lemma SummaryTotalMass(data: Json)
    requires ModelSummary(Parsed(data)).Ok?
    ensures data.Obj?
    ensures var records := Iter(Lookup(data.fields, "bodies").GetOr(Arr([])));
      records.Ok? && MassTotal(records.value) == Ok(ModelSummary(Parsed(data)).value.totalMass)
  {
  }

  /** Two bodies of mass 2.5 and 3.5 give a total mass of 6.0. */
  lemma TotalMassExample()
    ensures var body1 := Obj([("name", Str("A")), ("mass_properties", Obj([("mass", Num(2.5))]))]);
      var body2 := Obj([("name", Str("B")), ("mass_properties", Obj([("mass", Num(3.5))]))]);
      var doc := Obj([("model_name", Str("M")), ("bodies", Arr([body1, body2])), ("joints", Arr([]))]);
      ModelSummary(Parsed(doc)).Ok? && ModelSummary(Parsed(doc)).value.totalMass == 6.0
  {
    var body1 := Obj([("name", Str("A")), ("mass_properties", Obj([("mass", Num(2.5))]))]);
    var body2 := Obj([("name", Str("B")), ("mass_properties", Obj([("mass", Num(3.5))]))]);
    assert BodyMass(body1) == Ok(2.5);
    assert BodyMass(body2) == Ok(3.5);
    assert [body1, body2][0] == body1 && [body1, body2][1..] == [body2];
    assert [body2][0] == body2 && [body2][1..] == [];
    assert MassTotal([body2]) == Ok(3.5);
    assert MassTotal([body1, body2]) == Ok(6.0);
    assert Names([body2]).Ok?;
    assert Names([body1, body2]).Ok?;
    var doc := Obj([("model_name", Str("M")), ("bodies", Arr([body1, body2])), ("joints", Arr([]))]);
    assert Lookup(doc.fields, "bodies") == Some(Arr([body1, body2]));
    assert Lookup(doc.fields, "joints") == Some(Arr([]));
    LookupMeaning(doc.fields, "metadata");
    SummarySucceeds(doc);
    SummaryTotalMass(doc);
  }
}
