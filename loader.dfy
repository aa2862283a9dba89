/**
 * pychrono_loader.py: the two passes that turn an interchange document into
 * a simulation system. The body pass adds one body per body record and
 * registers it by name; the joint pass resolves each joint's two bodies by
 * name, classifies its type and adds a link or silently drops the joint.
 */
module PyChronoLoader {
  import opened Wrappers
  import opened Json
  import opened Chrono

  /** The gravity the loader gives every system it creates. */
  const Gravity: Vec3 := Vec3(0.0, -9.81, 0.0)

  // ===========================================================================
  // Paths (POSIX `os.path`)

  /**
   * `os.path.join(dir, file)`: an absolute `file` replaces `dir`; otherwise
   * `dir` and `file` are kept whole, with one '/' between them unless `dir`
   * is empty or already ends in one.
   */
  function JoinPath(dir: string, file: string): (p: string)
    ensures |file| > 0 && file[0] == '/' ==> p == file
    ensures !(|file| > 0 && file[0] == '/') ==>
      |dir| + |file| <= |p| <= |dir| + 1 + |file| && p[..|dir|] == dir && p[|p| - |file|..] == file
    ensures !(|file| > 0 && file[0] == '/') && dir != [] && dir[|dir| - 1] != '/' ==>
      |p| == |dir| + 1 + |file| && p[|dir|] == '/'
    ensures !(|file| > 0 && file[0] == '/') && (dir == [] || dir[|dir| - 1] == '/') ==> p == dir + file
  {
    if |file| > 0 && file[0] == '/' then file
    else if dir == [] || dir[|dir| - 1] == '/' then dir + file
    else dir + "/" + file
  }

  /** The position of the last '/' in `p`, or -1. */
  function LastSlash(p: string): (r: int)
    ensures -1 <= r < |p|
    ensures r >= 0 ==> p[r] == '/'
    ensures forall k :: r < k < |p| ==> p[k] != '/'
  {
    if |p| == 0 then -1
    else if p[|p| - 1] == '/' then |p| - 1
    else LastSlash(p[..|p| - 1])
  }

  function TrimTrailingSlashes(s: string): (t: string)
    ensures |t| <= |s| && t == s[..|t|]
    ensures |t| > 0 ==> t[|t| - 1] != '/'
    ensures forall k :: |t| <= k < |s| ==> s[k] == '/'
  {
    if |s| > 0 && s[|s| - 1] == '/' then TrimTrailingSlashes(s[..|s| - 1]) else s
  }

  predicate AllSlashes(s: string) {
    forall k :: 0 <= k < |s| ==> s[k] == '/'
  }

  /** `os.path.dirname(p)`: everything up to the last '/', without trailing slashes unless only slashes remain. */
  function DirName(p: string): (d: string)
    ensures |d| <= |p| && d == p[..|d|]
    ensures '/' !in p ==> d == ""
  {
    var head := p[..LastSlash(p) + 1];
    if head != [] && !AllSlashes(head) then TrimTrailingSlashes(head) else head
  }

  /** The geometry directory: the one given, else `geometries` beside the document. */
  function GeometryDir(jsonPath: string, geometryDir: Option<string>): (g: string)
    ensures geometryDir.Some? ==> g == geometryDir.value
    ensures geometryDir.None? ==> |g| >= |DirName(jsonPath)| + 10 && g[|g| - 10..] == "geometries" && g[..|DirName(jsonPath)|] == DirName(jsonPath)
  {
    match geometryDir
    case Some(d) => d
    case None => JoinPath(DirName(jsonPath), "geometries")
  }

  /**
   * Splitting a joined path gives its parts back: `os.path.dirname` of
   * `os.path.join(d, f)` is `d`, and what follows the last '/' is `f`.
   */
  lemma SplitJoined(d: string, f: string)
    requires d != [] && d[|d| - 1] != '/' && '/' !in f
    ensures JoinPath(d, f) == d + "/" + f
    ensures DirName(JoinPath(d, f)) == d
    ensures JoinPath(d, f)[LastSlash(JoinPath(d, f)) + 1..] == f
  {
    var p := d + "/" + f;
    assert p[|d|] == '/';
    assert forall k :: |d| < k < |p| ==> p[k] == f[k - |d| - 1];
    assert LastSlash(p) == |d|;
    assert p[..|d| + 1] == d + "/";
    assert !AllSlashes(d + "/") by {
      assert (d + "/")[|d| - 1] == d[|d| - 1];
    }
    assert (d + "/")[..|d|] == d;
    assert TrimTrailingSlashes(d) == d;
  }

  /** A document `d/f` keeps its geometry in `d/geometries`. */
  lemma GeometriesBesideDocument(d: string, f: string)
    requires d != [] && d[|d| - 1] != '/' && '/' !in f
    ensures GeometryDir(d + "/" + f, None) == d + "/geometries"
  {
    SplitJoined(d, f);
    assert d + "/" + "geometries" == d + "/geometries";
  }

  /** A document named without a directory keeps its geometry in `geometries`. */
  lemma GeometriesBesideBareName(f: string)
    requires '/' !in f
    ensures GeometryDir(f, None) == "geometries"
  {
    assert LastSlash(f) == -1;
  }

  // ===========================================================================
  // Vectors read from the document

  /** `v.get(key, 0) / 1000.0`: one millimetre coordinate in metres. */
  function MetresAt(v: Json, key: string): Result<real, PyError> {
    var c :- Get(v, key, Num(0.0));
    var n :- AsNumber(c);
    Ok(n / 1000.0)
  }

  /** A millimetre vector `{x, y, z}` in metres; a missing coordinate counts as 0. */
  function MillimetresToMetres(v: Json): Result<Vec3, PyError> {
    var x :- MetresAt(v, "x");
    var y :- MetresAt(v, "y");
    var z :- MetresAt(v, "z");
    Ok(Vec3(x, y, z))
  }

  /** `v.get(key, 1.0)`: one component of the inertia diagonal. */
  function InertiaAt(v: Json, key: string): Result<real, PyError> {
    var c :- Get(v, key, Num(1.0));
    AsNumber(c)
  }

  function InertiaDiagonal(v: Json): Result<Vec3, PyError> {
    var xx :- InertiaAt(v, "xx");
    var yy :- InertiaAt(v, "yy");
    var zz :- InertiaAt(v, "zz");
    Ok(Vec3(xx, yy, zz))
  }

  /** `if v: <use r>`: `r` matters only when `v` is truthy. */
  function WhenTruthy(v: Json, r: Result<Vec3, PyError>): Result<Option<Vec3>, PyError> {
    if !Truthy(v) then Ok(None)
    else
      match r
      case Ok(p) => Ok(Some(p))
      case Err(e) => Err(e)
  }

  // ---- the same, declaratively, for the lemmas

  /** The number at `key`, or `d` when there is none. */
  ghost function NumberOr(v: Json, key: string, d: real): real {
    match Field(v, key)
    case Num(n) => n
    case Bool(b) => if b then 1.0 else 0.0
    case _ => d
  }

  /** The vector `(x/1000, y/1000, z/1000)`, with 0 for a missing coordinate. */
  ghost function Metres(v: Json): Vec3 {
    Vec3(NumberOr(v, "x", 0.0) / 1000.0, NumberOr(v, "y", 0.0) / 1000.0, NumberOr(v, "z", 0.0) / 1000.0)
  }

  ghost function Inertia(v: Json): Vec3 {
    Vec3(NumberOr(v, "xx", 1.0), NumberOr(v, "yy", 1.0), NumberOr(v, "zz", 1.0))
  }

  /** A coordinate that is absent or a number (a JSON `null` is neither). */
  ghost predicate NumericOrAbsent(v: Json, key: string) {
    v.Obj? && (!HasKey(v.fields, key) || AsNumber(Lookup(v.fields, key).value).Ok?)
  }

  /** The conversion succeeds on a dict of numbers and yields `(x/1000, y/1000, z/1000)`. */
  lemma MillimetresToMetresMeaning(v: Json)
    ensures MillimetresToMetres(v).Ok? <==>
      NumericOrAbsent(v, "x") && NumericOrAbsent(v, "y") && NumericOrAbsent(v, "z")
    ensures MillimetresToMetres(v).Ok? ==> MillimetresToMetres(v).value == Metres(v)
    ensures MillimetresToMetres(Obj([])) == Ok(Vec3(0.0, 0.0, 0.0))
  {
  }

  lemma InertiaDiagonalMeaning(v: Json)
    ensures InertiaDiagonal(v).Ok? <==>
      NumericOrAbsent(v, "xx") && NumericOrAbsent(v, "yy") && NumericOrAbsent(v, "zz")
    ensures InertiaDiagonal(v).Ok? ==> InertiaDiagonal(v).value == Inertia(v)
  {
  }

  // ===========================================================================
  // One body: create_body_from_data

  /** What `mass_properties` contributes: the mass, the centre of mass in metres, the inertia diagonal. */
  datatype MassSettings = MassSettings(mass: Option<real>, com: Option<Vec3>, inertia: Option<Vec3>)

  function MassSettingsOf(massProps: Json): Result<MassSettings, PyError> {
    if !Truthy(massProps) then Ok(MassSettings(None, None, None))
    else
      var massValue :- Get(massProps, "mass", Num(1.0));
      var mass :- AsNumber(massValue);
      // `mass_props.get` did not raise, so `mass_props` is a dict and the next `.get` calls do not either
      var com := Lookup(massProps.fields, "center_of_mass").GetOr(Obj([]));
      var comPos :- WhenTruthy(com, MillimetresToMetres(com));
      var inertia := Lookup(massProps.fields, "moments_of_inertia").GetOr(Obj([]));
      var diagonal :- WhenTruthy(inertia, InertiaDiagonal(inertia));
      Ok(MassSettings(Some(mass), comPos, diagonal))
  }

  /** `transform.translation` in metres, when both are non-empty. */
  function TranslationOf(body: Json): Result<Option<Vec3>, PyError> {
    var transform :- Get(body, "transform", Obj([]));
    if !Truthy(transform) then Ok(None)
    else
      var translation :- Get(transform, "translation", Obj([]));
      WhenTruthy(translation, MillimetresToMetres(translation))
  }

  /** Collision is on when `geometry_file` is non-empty and the joined path exists. */
  function CollidesOf(body: Json, geometryDir: string, fileExists: string -> bool): Result<bool, PyError> {
    var geomFile :- Get(body, "geometry_file", Null);
    if !Truthy(geomFile) then Ok(false)
    else
      var file :- AsText(geomFile);
      Ok(fileExists(JoinPath(geometryDir, file)))
  }

  /**
   * The body a record describes, or the exception the record raises. The
   * position comes from the translation when there is one, otherwise from
   * the centre of mass.
   */
  function BodySpecOf(body: Json, geometryDir: string, fileExists: string -> bool): (r: Result<BodySpec, PyError>)
    ensures !body.Obj? ==> r == Err(TypeError)
    ensures body.Obj? && !HasKey(body.fields, "name") ==> r == Err(KeyError("name"))
    ensures r.Ok? ==> body.Obj? && Lookup(body.fields, "name") == Some(Str(r.value.name))
  {
    var nameValue :- Subscript(body, "name");
    var name :- AsText(nameValue);
    // `body_data['name']` did not raise, so `body_data` is a dict and its `.get` calls do not either
    var massProps := Lookup(body.fields, "mass_properties").GetOr(Obj([]));
    var settings :- MassSettingsOf(massProps);
    var translation :- TranslationOf(body);
    var collide :- CollidesOf(body, geometryDir, fileExists);
    var isFixed := Lookup(body.fields, "is_fixed").GetOr(Bool(false));
    var pos := if translation.Some? then translation else settings.com;
    Ok(BodySpec(name, settings.mass, pos, settings.inertia, collide, Truthy(isFixed)))
  }

  /**
   * `create_body_from_data`: the setters are applied one after another to a
   * new body, `SetPos` possibly twice, and the body is then added to the
   * system. An exception leaves the system as it was.
   */
  method CreateBodyFromData(bodyData: Json, geometryDir: string, fileExists: string -> bool, system: ChSystem)
    returns (r: Result<nat, PyError>)
    requires system.Valid()
    modifies system
    ensures system.Valid()
    ensures r.Ok? <==> BodySpecOf(bodyData, geometryDir, fileExists).Ok?
    ensures r.Ok? ==> r.value == |old(system.bodies)|
    ensures r.Ok? ==> system.bodies == old(system.bodies) + [BodySpecOf(bodyData, geometryDir, fileExists).value]
    ensures r.Err? ==> r.error == BodySpecOf(bodyData, geometryDir, fileExists).error
    ensures r.Err? ==> system.bodies == old(system.bodies)
    ensures system.links == old(system.links) && system.gravity == old(system.gravity)
  {
    var nameValue :- Subscript(bodyData, "name");
    var name :- AsText(nameValue);
    var body := BodySpec(name, None, None, None, false, false);
    // `body_data['name']` succeeded, so `body_data` is a dict and its `.get` cannot raise.
    var fields := bodyData.fields;

    var massProps := Lookup(fields, "mass_properties").GetOr(Obj([]));
    if Truthy(massProps) {
      var massValue :- Get(massProps, "mass", Num(1.0));
      var mass :- AsNumber(massValue);
      body := body.(mass := Some(mass));
      var com := Lookup(massProps.fields, "center_of_mass").GetOr(Obj([]));
      if Truthy(com) {
        var pos :- MillimetresToMetres(com);
        body := body.(pos := Some(pos));
      }
      assert WhenTruthy(com, MillimetresToMetres(com)) == Ok(body.pos);
      var inertia := Lookup(massProps.fields, "moments_of_inertia").GetOr(Obj([]));
      if Truthy(inertia) {
        var diagonal :- InertiaDiagonal(inertia);
        body := body.(inertia := Some(diagonal));
      }
      assert WhenTruthy(inertia, InertiaDiagonal(inertia)) == Ok(body.inertia);
    }
    ghost var settings := MassSettings(body.mass, body.pos, body.inertia);
    assert MassSettingsOf(massProps) == Ok(settings);

    var transform := Lookup(fields, "transform").GetOr(Obj([]));
    ghost var translated: Option<Vec3> := None;
    if Truthy(transform) {
      var translation :- Get(transform, "translation", Obj([]));
      if Truthy(translation) {
        var pos :- MillimetresToMetres(translation);
        body := body.(pos := Some(pos));
        translated := Some(pos);
      }
    }

    assert TranslationOf(bodyData) == Ok(translated);
    assert body == BodySpec(name, settings.mass, if translated.Some? then translated else settings.com,
                            settings.inertia, false, false);

    var geomFile := Lookup(fields, "geometry_file").GetOr(Null);
    if Truthy(geomFile) {
      var file :- AsText(geomFile);
      if fileExists(JoinPath(geometryDir, file)) {
        body := body.(collide := true);
      }
    }

    assert CollidesOf(bodyData, geometryDir, fileExists) == Ok(body.collide);

    var isFixed := Lookup(fields, "is_fixed").GetOr(Bool(false));
    if Truthy(isFixed) {
      body := body.(fixed := true);
    }

    assert BodySpecOf(bodyData, geometryDir, fileExists) == Ok(body);
    var handle := system.AddBody(body);
    r := Ok(handle);
  }

  // ---- what a body record yields

  /**
   * Position precedence: a non-empty `transform.translation` wins over the
   * centre of mass, even when all its coordinates are 0; the centre of mass
   * counts only inside non-empty `mass_properties`; without either no
   * position is set.
   */
  lemma BodyPosition(body: Json, geometryDir: string, fileExists: string -> bool)
    requires BodySpecOf(body, geometryDir, fileExists).Ok?
    ensures var pos := BodySpecOf(body, geometryDir, fileExists).value.pos;
      var translation := Field(Field(body, "transform"), "translation");
      var props := Field(body, "mass_properties");
      var com := Field(props, "center_of_mass");
      && (Truthy(translation) ==> pos == Some(Metres(translation)))
      && (!Truthy(translation) && Truthy(props) && Truthy(com) ==> pos == Some(Metres(com)))
      && (pos.None? <==> !Truthy(translation) && !(Truthy(props) && Truthy(com)))
  {
    var props := Field(body, "mass_properties");
    var com := Field(props, "center_of_mass");
    var translation := Field(Field(body, "transform"), "translation");
    MillimetresToMetresMeaning(translation);
    MillimetresToMetresMeaning(com);
  }

  /**
   * Mass is set exactly when `mass_properties` is non-empty, to 1.0 when it
   * has no `mass`; the inertia diagonal is set exactly when
   * `moments_of_inertia` is non-empty too, with 1.0 for a missing component.
   */
  lemma BodyMassAndInertia(body: Json, geometryDir: string, fileExists: string -> bool)
    requires BodySpecOf(body, geometryDir, fileExists).Ok?
    ensures var spec := BodySpecOf(body, geometryDir, fileExists).value;
      var props := Field(body, "mass_properties");
      var inertia := Field(props, "moments_of_inertia");
      && (spec.mass.Some? <==> Truthy(props))
      && (Truthy(props) ==> spec.mass == Some(NumberOr(props, "mass", 1.0)))
      && (spec.inertia.Some? <==> Truthy(props) && Truthy(inertia))
      && (spec.inertia.Some? ==> spec.inertia.value == Inertia(inertia))
  {
    // `body_data.get('mass_properties', {})`; `Field` gives `Null` instead of `{}`, equally false
    var props := Lookup(body.fields, "mass_properties").GetOr(Obj([]));
    var settings := MassSettingsOf(props).value;
    assert BodySpecOf(body, geometryDir, fileExists).value.mass == settings.mass;
    assert BodySpecOf(body, geometryDir, fileExists).value.inertia == settings.inertia;
    MassSettingsMeaning(props);
  }

  /** What non-empty `mass_properties` set: the mass (1.0 without `mass`) and the inertia diagonal. */
  lemma MassSettingsMeaning(props: Json)
    requires MassSettingsOf(props).Ok?
    ensures var s := MassSettingsOf(props).value;
      var inertia := Field(props, "moments_of_inertia");
      && (s.mass.Some? <==> Truthy(props))
      && (Truthy(props) ==> s.mass == Some(NumberOr(props, "mass", 1.0)))
      && (s.inertia.Some? <==> Truthy(props) && Truthy(inertia))
      && (s.inertia.Some? ==> s.inertia.value == Inertia(inertia))
  {
    if Truthy(props) {
      InertiaDiagonalMeaning(Field(props, "moments_of_inertia"));
    }
  }

  /** A record without `mass_properties` keeps the engine's mass 1.0 and inertia (1, 1, 1). */
  lemma AbsentMassPropertiesUseDefaults(body: Json, geometryDir: string, fileExists: string -> bool)
    requires BodySpecOf(body, geometryDir, fileExists).Ok?
    requires !HasKey(body.fields, "mass_properties")
    ensures BodySpecOf(body, geometryDir, fileExists).value.mass.GetOr(DefaultMass) == 1.0
    ensures BodySpecOf(body, geometryDir, fileExists).value.inertia.GetOr(DefaultInertia) == Vec3(1.0, 1.0, 1.0)
  {
    BodyMassAndInertia(body, geometryDir, fileExists);
  }

  /**
   * The name is the record's `name`; the body is fixed exactly when
   * `is_fixed` is truthy; collision is on exactly when `geometry_file` is
   * non-empty and the joined path exists.
   */
  lemma BodyNameAndFlags(body: Json, geometryDir: string, fileExists: string -> bool)
    requires BodySpecOf(body, geometryDir, fileExists).Ok?
    ensures var spec := BodySpecOf(body, geometryDir, fileExists).value;
      var geomFile := Field(body, "geometry_file");
      && body.Obj? && Lookup(body.fields, "name") == Some(Str(spec.name))
      && (spec.fixed <==> Truthy(Field(body, "is_fixed")))
      && (spec.collide <==> Truthy(geomFile) && fileExists(JoinPath(geometryDir, geomFile.text)))
  {
  }

  // ===========================================================================
  // The body pass and the name table

  /** The bodies of a list of records, in document order, or the first exception. */
  function BodiesPass(records: seq<Json>, geometryDir: string, fileExists: string -> bool): (r: Result<seq<BodySpec>, PyError>)
    ensures r.Ok? ==> |r.value| == |records|
  {
    if records == [] then Ok([])
    else
      var before :- BodiesPass(records[..|records| - 1], geometryDir, fileExists);
      var spec :- BodySpecOf(records[|records| - 1], geometryDir, fileExists);
      Ok(before + [spec])
  }

  /** `body_map`: each name to the position of the body registered under it; a later body replaces an earlier one. */
  function BodyMap(specs: seq<BodySpec>): (m: map<string, nat>)
    ensures specs != [] ==> specs[|specs| - 1].name in m && m[specs[|specs| - 1].name] == |specs| - 1
  {
    if specs == [] then map[]
    else BodyMap(specs[..|specs| - 1])[specs[|specs| - 1].name := |specs| - 1]
  }

  /** Each record adds exactly one body, in document order. */
  lemma {:induction false} BodiesPassOnePerRecord(records: seq<Json>, geometryDir: string, fileExists: string -> bool)
    ensures BodiesPass(records, geometryDir, fileExists).Ok? <==>
      forall i :: 0 <= i < |records| ==> BodySpecOf(records[i], geometryDir, fileExists).Ok?
    ensures BodiesPass(records, geometryDir, fileExists).Ok? ==>
      var specs := BodiesPass(records, geometryDir, fileExists).value;
      |specs| == |records| &&
      forall i :: 0 <= i < |records| ==> BodySpecOf(records[i], geometryDir, fileExists) == Ok(specs[i])
  {
    if records != [] {
      var init := records[..|records| - 1];
      BodiesPassOnePerRecord(init, geometryDir, fileExists);
      assert forall i :: 0 <= i < |init| ==> init[i] == records[i];
    }
  }

  /** One more body record extends the pass by its body. */
  lemma BodiesPassStep(records: seq<Json>, i: nat, geometryDir: string, fileExists: string -> bool)
    requires i < |records|
    requires BodiesPass(records[..i], geometryDir, fileExists).Ok?
    requires BodySpecOf(records[i], geometryDir, fileExists).Ok?
    ensures BodiesPass(records[..i + 1], geometryDir, fileExists) ==
      Ok(BodiesPass(records[..i], geometryDir, fileExists).value + [BodySpecOf(records[i], geometryDir, fileExists).value])
  {
    assert records[..i + 1][..i] == records[..i];
  }

  /** A new body is registered under its name at its position. */
  lemma BodyMapStep(specs: seq<BodySpec>, spec: BodySpec)
    ensures BodyMap(specs + [spec]) == BodyMap(specs)[spec.name := |specs|]
  {
    assert (specs + [spec])[..|specs|] == specs;
  }

  /** Once a prefix of the records raises, the whole pass raises the same exception. */
  lemma {:induction false} BodiesPassKeepsError(records: seq<Json>, n: nat, geometryDir: string, fileExists: string -> bool)
    requires n <= |records|
    requires BodiesPass(records[..n], geometryDir, fileExists).Err?
    ensures BodiesPass(records, geometryDir, fileExists) == BodiesPass(records[..n], geometryDir, fileExists)
    decreases |records| - n
  {
    if n < |records| {
      assert records[..n + 1][..n] == records[..n];
      BodiesPassKeepsError(records, n + 1, geometryDir, fileExists);
    } else {
      assert records[..n] == records;
    }
  }

  /** A name is in the table exactly when some body has it, and then it maps to the LAST such body. */
  lemma {:induction false} BodyMapLastWins(specs: seq<BodySpec>, name: string)
    ensures name in BodyMap(specs) <==> exists i :: 0 <= i < |specs| && specs[i].name == name
    ensures name in BodyMap(specs) ==>
      var i := BodyMap(specs)[name];
      i < |specs| && specs[i].name == name &&
      forall j :: i < j < |specs| ==> specs[j].name != name
  {
    if specs != [] {
      var init := specs[..|specs| - 1];
      BodyMapLastWins(init, name);
      assert forall i :: 0 <= i < |init| ==> init[i] == specs[i];
    }
  }

  lemma BodyMapInRange(specs: seq<BodySpec>)
    ensures forall name :: name in BodyMap(specs) ==> BodyMap(specs)[name] < |specs|
  {
    forall name | name in BodyMap(specs) ensures BodyMap(specs)[name] < |specs| {
      BodyMapLastWins(specs, name);
    }
  }

  // ===========================================================================
  // One joint: create_joint_from_data

  /** `body_map.get(name)`: a str is looked up, another hashable value is absent, a list or dict raises. */
  function Resolve(name: Json, bodyMap: map<string, nat>): (r: Result<Option<nat>, PyError>)
    ensures r.Err? <==> name.Arr? || name.Obj?
    ensures r.Err? ==> r.error == TypeError
    ensures r.Ok? && r.value.Some? <==> name.Str? && name.text in bodyMap
    ensures r.Ok? && r.value.Some? ==> r.value.value == bodyMap[name.text]
  {
    match name
    case Str(s) => Ok(if s in bodyMap then Some(bodyMap[s]) else None)
    case Arr(_) => Err(TypeError)
    case Obj(_) => Err(TypeError)
    case _ => Ok(None)
  }

  /** `a in t or b in t`. */
  function InEither(a: string, b: string, t: Json): Result<bool, PyError> {
    var first :- In(a, t);
    if first then Ok(true) else In(b, t)
  }

  /** The link class for a joint type, tested in the fixed order Revolute, Rigid, Slider. */
  function LinkKindOf(jointType: Json): (r: Result<Option<LinkKind>, PyError>)
    ensures r.Err? <==> jointType.Null? || jointType.Bool? || jointType.Num?
    ensures r.Err? ==> r.error == TypeError
    ensures jointType.Arr? ==> r == Ok(
      if Str("Revolute") in jointType.items || Str("RevoluteJointType") in jointType.items then Some(Revolute)
      else if Str("Rigid") in jointType.items || Str("RigidJointType") in jointType.items then Some(Lock)
      else if Str("Slider") in jointType.items || Str("SliderJointType") in jointType.items then Some(Prismatic)
      else None)
  {
    var revolute :- InEither("Revolute", "RevoluteJointType", jointType);
    if revolute then Ok(Some(Revolute))
    else
      // the first `in` test did not raise, so the later ones do not either
      var rigid := InEither("Rigid", "RigidJointType", jointType).value;
      if rigid then Ok(Some(Lock))
      else
        var slider := InEither("Slider", "SliderJointType", jointType).value;
        if slider then Ok(Some(Prismatic)) else Ok(None)
  }

  /**
   * The link a joint record yields: `None` when a body name is missing, empty
   * or not registered, or the type matches no class; or the exception the
   * record raises.
   */
  function LinkOf(joint: Json, bodyMap: map<string, nat>): (r: Result<Option<LinkSpec>, PyError>)
    ensures !joint.Obj? ==> r == Err(AttributeError)
    ensures r.Ok? && r.value.Some? ==> r.value.value.body1 in bodyMap.Values && r.value.value.body2 in bodyMap.Values
  {
    var jointType :- Get(joint, "type", Str(""));
    // `joint_data.get` did not raise, so `joint_data` is a dict and its later `.get` calls do not either
    var one := Lookup(joint.fields, "body_one").GetOr(Null);
    var two := Lookup(joint.fields, "body_two").GetOr(Null);
    if !Truthy(one) || !Truthy(two) then Ok(None)
    else
      var body1 :- Resolve(one, bodyMap);
      var body2 :- Resolve(two, bodyMap);
      if body1.None? || body2.None? then Ok(None)
      else
        var originValue := Lookup(joint.fields, "origin").GetOr(Obj([]));
        var origin :- MillimetresToMetres(originValue);
        var kind :- LinkKindOf(jointType);
        if kind.None? then Ok(None)
        else
          var nameValue := Lookup(joint.fields, "name").GetOr(Str(""));
          var name :- AsText(nameValue);
          Ok(Some(LinkSpec(kind.value, body1.value, body2.value, origin, name)))
  }

  /**
   * `create_joint_from_data`: the link, if any, is added to the system; the
   * bodies are left alone.
   */
  method CreateJointFromData(jointData: Json, bodyMap: map<string, nat>, system: ChSystem)
    returns (r: Result<Option<LinkSpec>, PyError>)
    requires system.Valid()
    requires forall name :: name in bodyMap ==> bodyMap[name] < |system.bodies|
    modifies system
    ensures system.Valid()
    ensures r == LinkOf(jointData, bodyMap)
    ensures system.links == old(system.links) + (if r.Ok? && r.value.Some? then [r.value.value] else [])
    ensures system.bodies == old(system.bodies) && system.gravity == old(system.gravity)
  {
    r := LinkOf(jointData, bodyMap);
    if r.Ok? && r.value.Some? {
      LinkEnds(jointData, bodyMap);
      system.AddLink(r.value.value);
    }
  }

  // ---- what a joint record yields

  /**
   * Classification is an ordered, case-sensitive substring test on the type
   * string: Revolute, else Rigid, else Slider, else nothing.
   */
  lemma ClassifyByName(t: string)
    ensures LinkKindOf(Str(t)) == Ok(
      if IsSubstring("Revolute", t) then Some(Revolute)
      else if IsSubstring("Rigid", t) then Some(Lock)
      else if IsSubstring("Slider", t) then Some(Prismatic)
      else None)
  {
    if IsSubstring("RevoluteJointType", t) {
      assert "RevoluteJointType" == "Revolute" + "JointType";
      ExtensionContainsPrefix("Revolute", "JointType", t);
    }
    if IsSubstring("RigidJointType", t) {
      assert "RigidJointType" == "Rigid" + "JointType";
      ExtensionContainsPrefix("Rigid", "JointType", t);
    }
    if IsSubstring("SliderJointType", t) {
      assert "SliderJointType" == "Slider" + "JointType";
      ExtensionContainsPrefix("Slider", "JointType", t);
    }
  }

  /**
   * A type that begins with a class name gets that class, provided no
   * earlier class name occurs in it; the exporter writes `RevoluteJointType`,
   * `RigidJointType` and `SliderJointType`.
   */
  lemma ClassifyByPrefix(t: string)
    ensures "Revolute" <= t ==> LinkKindOf(Str(t)) == Ok(Some(Revolute))
    ensures "Rigid" <= t && !IsSubstring("Revolute", t) ==> LinkKindOf(Str(t)) == Ok(Some(Lock))
    ensures "Slider" <= t && !IsSubstring("Revolute", t) && !IsSubstring("Rigid", t) ==>
      LinkKindOf(Str(t)) == Ok(Some(Prismatic))
  {
    ClassifyByName(t);
  }

  /**
   * The test is case-sensitive: a type without the capitals `R` and `S`
   * (`revolute`, `BallJointType`) matches no class.
   */
  lemma ClassifyWithoutCapitals(t: string)
    requires 'R' !in t && 'S' !in t
    ensures LinkKindOf(Str(t)) == Ok(None)
  {
    ClassifyByName(t);
    NotIn("Revolute", t, 0);
    NotIn("Rigid", t, 0);
    NotIn("Slider", t, 0);
  }

  /** A needle with a character `hay` lacks does not occur in it. */
  lemma NotIn(needle: string, hay: string, j: nat)
    requires j < |needle| && needle[j] !in hay
    ensures !IsSubstring(needle, hay)
  {
    IsSubstringCorrect(needle, hay);
    forall i: nat ensures !OccursAt(needle, hay, i) {
      if i + |needle| <= |hay| {
        assert hay[i..i + |needle|][j] == hay[i + j];
      }
    }
  }

  /** A joint with a missing or empty body name adds nothing and raises nothing. */
  lemma JointWithoutBodyNamesDropped(joint: seq<(string, Json)>, bodyMap: map<string, nat>)
    requires !Truthy(Field(Obj(joint), "body_one")) || !Truthy(Field(Obj(joint), "body_two"))
    ensures LinkOf(Obj(joint), bodyMap) == Ok(None)
  {
  }

  /**
   * A joint naming a body that `body_map.get` does not find (an unregistered
   * str, a number, a bool) adds nothing and raises nothing, provided neither
   * lookup raises.
   */
  lemma JointWithUnknownBodyDropped(joint: seq<(string, Json)>, bodyMap: map<string, nat>)
    requires Resolve(Field(Obj(joint), "body_one"), bodyMap).Ok?
    requires Resolve(Field(Obj(joint), "body_two"), bodyMap).Ok?
    requires Resolve(Field(Obj(joint), "body_one"), bodyMap).value.None? ||
             Resolve(Field(Obj(joint), "body_two"), bodyMap).value.None?
    ensures LinkOf(Obj(joint), bodyMap) == Ok(None)
  {
  }

  /**
   * An added link joins the two registered bodies the joint names, sits at
   * the origin converted to metres ((0, 0, 0) when there is none), has the
   * class of the joint's type and carries the joint's name, or '' if none.
   */
  lemma LinkEnds(joint: Json, bodyMap: map<string, nat>)
    requires LinkOf(joint, bodyMap).Ok? && LinkOf(joint, bodyMap).value.Some?
    ensures var link := LinkOf(joint, bodyMap).value.value;
      var one := Field(joint, "body_one");
      var two := Field(joint, "body_two");
      && joint.Obj?
      && one.Str? && one.text in bodyMap && link.body1 == bodyMap[one.text]
      && two.Str? && two.text in bodyMap && link.body2 == bodyMap[two.text]
      && link.origin == Metres(Field(joint, "origin"))
      && LinkKindOf(Lookup(joint.fields, "type").GetOr(Str(""))) == Ok(Some(link.kind))
      && link.name == (if HasKey(joint.fields, "name") then Field(joint, "name").text else "")
  {
    MillimetresToMetresMeaning(Lookup(joint.fields, "origin").GetOr(Obj([])));
  }

  /** Conversely, a well-formed joint between registered bodies whose type has a class is added. */
  lemma LinkAdded(joint: seq<(string, Json)>, bodyMap: map<string, nat>, one: string, two: string, t: string, k: LinkKind)
    requires one != "" && two != ""
    requires Lookup(joint, "body_one") == Some(Str(one)) && one in bodyMap
    requires Lookup(joint, "body_two") == Some(Str(two)) && two in bodyMap
    requires Lookup(joint, "type") == Some(Str(t)) && LinkKindOf(Str(t)) == Ok(Some(k))
    requires MillimetresToMetres(Lookup(joint, "origin").GetOr(Obj([]))).Ok?
    requires !HasKey(joint, "name") || Field(Obj(joint), "name").Str?
    ensures LinkOf(Obj(joint), bodyMap) == Ok(Some(LinkSpec(
      k, bodyMap[one], bodyMap[two], Metres(Field(Obj(joint), "origin")),
      if HasKey(joint, "name") then Field(Obj(joint), "name").text else "")))
  {
    MillimetresToMetresMeaning(Lookup(joint, "origin").GetOr(Obj([])));
  }

  // ===========================================================================
  // The joint pass

  /** The links of a list of joint records, in document order, or the first exception. */
  function JointsPass(joints: seq<Json>, bodyMap: map<string, nat>): (r: Result<seq<LinkSpec>, PyError>)
    ensures r.Ok? ==> |r.value| <= |joints|
  {
    if joints == [] then Ok([])
    else
      var before :- JointsPass(joints[..|joints| - 1], bodyMap);
      var link :- LinkOf(joints[|joints| - 1], bodyMap);
      Ok(if link.Some? then before + [link.value] else before)
  }

  /** One more joint record extends the pass by the link it yields, if any. */
  lemma JointsPassStep(joints: seq<Json>, k: nat, bodyMap: map<string, nat>)
    requires k < |joints|
    requires JointsPass(joints[..k], bodyMap).Ok? && LinkOf(joints[k], bodyMap).Ok?
    ensures var link := LinkOf(joints[k], bodyMap).value;
      JointsPass(joints[..k + 1], bodyMap) ==
        Ok(JointsPass(joints[..k], bodyMap).value + if link.Some? then [link.value] else [])
  {
    assert joints[..k + 1][..k] == joints[..k];
    assert JointsPass(joints[..k], bodyMap).value + [] == JointsPass(joints[..k], bodyMap).value;
  }

  lemma {:induction false} JointsPassKeepsError(joints: seq<Json>, n: nat, bodyMap: map<string, nat>)
    requires n <= |joints|
    requires JointsPass(joints[..n], bodyMap).Err?
    ensures JointsPass(joints, bodyMap) == JointsPass(joints[..n], bodyMap)
    decreases |joints| - n
  {
    if n < |joints| {
      assert joints[..n + 1][..n] == joints[..n];
      JointsPassKeepsError(joints, n + 1, bodyMap);
    } else {
      assert joints[..n] == joints;
    }
  }

  /**
   * The joint pass adds at most one link per joint record, and every link
   * joins two bodies that are in the table.
   */
  lemma {:induction false} JointsPassBounded(joints: seq<Json>, bodyMap: map<string, nat>, nBodies: nat)
    requires forall name :: name in bodyMap ==> bodyMap[name] < nBodies
    requires JointsPass(joints, bodyMap).Ok?
    ensures |JointsPass(joints, bodyMap).value| <= |joints|
    ensures forall l :: l in JointsPass(joints, bodyMap).value ==> l.body1 < nBodies && l.body2 < nBodies
  {
    if joints != [] {
      JointsPassBounded(joints[..|joints| - 1], bodyMap, nBodies);
      var link := LinkOf(joints[|joints| - 1], bodyMap).value;
      if link.Some? {
        LinkEnds(joints[|joints| - 1], bodyMap);
      }
    }
  }

  // ===========================================================================
  // The whole load: load_model_from_json

  datatype Loaded = Loaded(bodies: seq<BodySpec>, links: seq<LinkSpec>)

  /** The system a document loads into, or the exception that aborts the load. */
  function Load(src: Source, jsonPath: string, geometryDir: Option<string>, fileExists: string -> bool): (r: Result<Loaded, PyError>)
    ensures !src.Parsed? ==> r == Err(ReadError(src))
    ensures src.Parsed? && !src.doc.Obj? ==> r == Err(AttributeError)
    ensures r.Ok? ==> src.Parsed? && Records(src.doc, "bodies").Ok? && Records(src.doc, "joints").Ok?
    ensures r.Ok? ==>
      |r.value.bodies| == |Records(src.doc, "bodies").value| && |r.value.links| <= |Records(src.doc, "joints").value|
  {
    if !src.Parsed? then Err(ReadError(src))
    else
      var records :- Records(src.doc, "bodies");
      var bodies :- BodiesPass(records, GeometryDir(jsonPath, geometryDir), fileExists);
      var joints :- Records(src.doc, "joints");
      var links :- JointsPass(joints, BodyMap(bodies));
      Ok(Loaded(bodies, links))
  }

  /** `for x in data.get(key, [])`: the records iterated over. */
  function Records(data: Json, key: string): Result<seq<Json>, PyError> {
    var value :- Get(data, key, Arr([]));
    Iter(value)
  }

  /**
   * The body loop of `load_model_from_json`: each record becomes a body of
   * `system` and is registered in `body_map`, until a record raises.
   */
  method AddBodies(records: seq<Json>, geometryDir: string, fileExists: string -> bool, system: ChSystem)
    returns (r: Result<map<string, nat>, PyError>)
    requires system.Valid() && system.bodies == []
    modifies system
    ensures system.Valid()
    ensures system.links == old(system.links) && system.gravity == old(system.gravity)
    ensures match BodiesPass(records, geometryDir, fileExists)
      case Ok(specs) => system.bodies == specs && r == Ok(BodyMap(specs))
      case Err(e) => r == Err(e)
  {
    var bodyMap: map<string, nat> := map[];
    var i := 0;
    while i < |records|
      invariant 0 <= i <= |records|
      invariant system.Valid()
      invariant BodiesPass(records[..i], geometryDir, fileExists) == Ok(system.bodies)
      invariant bodyMap == BodyMap(system.bodies)
      invariant system.links == old(system.links) && system.gravity == old(system.gravity)
    {
      ghost var previous := system.bodies;
      var created := CreateBodyFromData(records[i], geometryDir, fileExists, system);
      if created.Err? {
        assert records[..i + 1][..i] == records[..i];
        BodiesPassKeepsError(records, i + 1, geometryDir, fileExists);
        return Err(created.error);
      }
      BodiesPassStep(records, i, geometryDir, fileExists);
      BodyMapStep(previous, system.bodies[created.value]);
      bodyMap := bodyMap[system.bodies[created.value].name := created.value];
      i := i + 1;
    }
    assert records[..i] == records;
    r := Ok(bodyMap);
  }

  /**
   * The joint loop of `load_model_from_json`: each record's link, if any, is
   * added to `system`, until a record raises.
   */
  method AddLinks(joints: seq<Json>, bodyMap: map<string, nat>, system: ChSystem)
    returns (r: Result<(), PyError>)
    requires system.Valid()
    requires forall name :: name in bodyMap ==> bodyMap[name] < |system.bodies|
    modifies system
    ensures system.Valid()
    ensures system.bodies == old(system.bodies) && system.gravity == old(system.gravity)
    ensures match JointsPass(joints, bodyMap)
      case Ok(links) => r.Ok? && system.links == old(system.links) + links
      case Err(e) => r == Err(e)
  {
    var k := 0;
    while k < |joints|
      invariant 0 <= k <= |joints|
      invariant system.Valid()
      invariant system.bodies == old(system.bodies) && system.gravity == old(system.gravity)
      invariant JointsPass(joints[..k], bodyMap).Ok?
      invariant system.links == old(system.links) + JointsPass(joints[..k], bodyMap).value
    {
      var step := AddJoint(joints, k, bodyMap, system, old(system.links));
      if step.Err? {
        JointsPassKeepsError(joints, k + 1, bodyMap);
        return Err(step.error);
      }
      k := k + 1;
    }
    assert joints[..k] == joints;
    r := Ok(());
  }

  /** One iteration of the joint loop: `create_joint_from_data` on the joint record at `k`. */
  method AddJoint(joints: seq<Json>, k: nat, bodyMap: map<string, nat>, system: ChSystem, ghost base: seq<LinkSpec>)
    returns (r: Result<(), PyError>)
    requires system.Valid()
    requires forall name :: name in bodyMap ==> bodyMap[name] < |system.bodies|
    requires k < |joints| && JointsPass(joints[..k], bodyMap).Ok?
    requires system.links == base + JointsPass(joints[..k], bodyMap).value
    modifies system
    ensures system.Valid()
    ensures system.bodies == old(system.bodies) && system.gravity == old(system.gravity)
    ensures r.Ok? <==> JointsPass(joints[..k + 1], bodyMap).Ok?
    ensures r.Err? ==> JointsPass(joints[..k + 1], bodyMap) == Err(r.error)
    ensures r.Ok? ==> system.links == base + JointsPass(joints[..k + 1], bodyMap).value
  {
    var added := CreateJointFromData(joints[k], bodyMap, system);
    assert joints[..k + 1][..k] == joints[..k];
    if added.Err? {
      return Err(added.error);
    }
    JointsPassStep(joints, k, bodyMap);
    ghost var link := if added.value.Some? then [added.value.value] else [];
    assert base + (JointsPass(joints[..k], bodyMap).value + link) == old(system.links) + link;
    r := Ok(());
  }

  /**
   * `load_model_from_json`: a new system with gravity set, then the body
   * pass filling `body_map`, then the joint pass reading it.
   */
  method LoadModelFromJson(src: Source, jsonPath: string, geometryDir: Option<string>, fileExists: string -> bool)
    returns (r: Result<ChSystem, PyError>)
    ensures r.Ok? <==> Load(src, jsonPath, geometryDir, fileExists).Ok?
    ensures r.Err? ==> r.error == Load(src, jsonPath, geometryDir, fileExists).error
    ensures r.Ok? ==>
      fresh(r.value) && r.value.Valid() && r.value.gravity == Some(Gravity) &&
      r.value.bodies == Load(src, jsonPath, geometryDir, fileExists).value.bodies &&
      r.value.links == Load(src, jsonPath, geometryDir, fileExists).value.links
  {
    if !src.Parsed? {
      return Err(ReadError(src));
    }
    var modelData := src.doc;
    var system := new ChSystem();
    system.SetGravity(Gravity);
    var dir := GeometryDir(jsonPath, geometryDir);
    var records :- Records(modelData, "bodies");
    var bodyMap :- AddBodies(records, dir, fileExists, system);
    BodyMapInRange(system.bodies);
    var joints :- Records(modelData, "joints");
    var done :- AddLinks(joints, bodyMap, system);
    r := Ok(system);
  }

  // ---- what a load yields

  /**
   * A successful load has one body per body record, in document order, at
   * most one link per joint record, and every link joins two of its bodies.
   */
  lemma LoadShape(src: Source, jsonPath: string, geometryDir: Option<string>, fileExists: string -> bool)
    requires Load(src, jsonPath, geometryDir, fileExists).Ok?
    ensures src.Parsed? && src.doc.Obj?
    ensures var loaded := Load(src, jsonPath, geometryDir, fileExists).value;
      var records := Iter(Lookup(src.doc.fields, "bodies").GetOr(Arr([]))).value;
      var joints := Iter(Lookup(src.doc.fields, "joints").GetOr(Arr([]))).value;
      && |loaded.bodies| == |records|
      && (forall i :: 0 <= i < |records| ==>
            BodySpecOf(records[i], GeometryDir(jsonPath, geometryDir), fileExists) == Ok(loaded.bodies[i]))
      && |loaded.links| <= |joints|
      && (forall l :: l in loaded.links ==> l.body1 < |loaded.bodies| && l.body2 < |loaded.bodies|)
  {
    var dir := GeometryDir(jsonPath, geometryDir);
    var records := Iter(Lookup(src.doc.fields, "bodies").GetOr(Arr([]))).value;
    var joints := Iter(Lookup(src.doc.fields, "joints").GetOr(Arr([]))).value;
    BodiesPassOnePerRecord(records, dir, fileExists);
    var bodies := BodiesPass(records, dir, fileExists).value;
    BodyMapInRange(bodies);
    JointsPassBounded(joints, BodyMap(bodies), |bodies|);
  }

  /** A record with nothing but a name gives a free body that keeps the engine's defaults. */
  lemma NameOnlyBody(name: string, geometryDir: string, fileExists: string -> bool)
    ensures BodySpecOf(Obj([("name", Str(name))]), geometryDir, fileExists) ==
      Ok(BodySpec(name, None, None, None, false, false))
  {
    var fields := [("name", Str(name))];
    LookupMeaning(fields, "name");
    LookupMeaning(fields, "mass_properties");
    LookupMeaning(fields, "transform");
    LookupMeaning(fields, "geometry_file");
    LookupMeaning(fields, "is_fixed");
  }
}
