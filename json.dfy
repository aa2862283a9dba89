/**
 * The parsed interchange document and the handful of Python operations that
 * utils.py and pychrono_loader.py apply to it: `k in v`, `v[k]`, `v.get(k, d)`,
 * truthiness, iteration and `len`, arithmetic on a number and passing a value
 * where a `str` is needed. Each operation keeps Python's behaviour on every
 * kind of value, so an exception becomes an `Err` instead of a precondition.
 */
module Json {
  import opened Wrappers

  /** A JSON value as `json.load` returns it; an object keeps its pairs in document order. */
  datatype Json =
    | Null
    | Bool(boolean: bool)
    | Num(number: real)
    | Str(text: string)
    | Arr(items: seq<Json>)
    | Obj(fields: seq<(string, Json)>)

  /** The Python exceptions the core can raise while it works on a document. */
  datatype PyError =
    | KeyError(key: string)   // `d[k]` on a dict without `k`
    | TypeError               // wrong kind of operand, an unhashable key, a non-`str` name
    | AttributeError          // `.get` on something that is not a dict
    | FileNotFoundError       // `open` of a missing file
    | JsonDecodeError         // `json.load` of text that is not JSON
    | OSError                 // any other failure to read the file

  /** What opening and parsing the document file produced. */
  datatype Source = Parsed(doc: Json) | NotFound | Malformed | Unreadable

  /** The exception that reading `src` raised, when it was not parsed. */
  function ReadError(src: Source): PyError
    requires !src.Parsed?
  {
    match src
    case NotFound => FileNotFoundError
    case Malformed => JsonDecodeError
    case Unreadable => OSError
  }

  // ---------------------------------------------------------------------------
  // Objects as dictionaries

  /**
   * The value bound to `key`. `json.load` keeps the LAST of several pairs that
   * share a key, so the search runs from the end.
   */
  function Lookup(fields: seq<(string, Json)>, key: string): Option<Json> {
    if |fields| == 0 then None
    else if fields[|fields| - 1].0 == key then Some(fields[|fields| - 1].1)
    else Lookup(fields[..|fields| - 1], key)
  }

  /** A key is found exactly when some pair has it, and the value found is that of the last such pair. */
  lemma {:induction false} LookupMeaning(fields: seq<(string, Json)>, key: string)
    ensures Lookup(fields, key).Some? <==> exists i :: 0 <= i < |fields| && fields[i].0 == key
    ensures Lookup(fields, key).Some? ==>
      exists i :: 0 <= i < |fields| && fields[i] == (key, Lookup(fields, key).value) &&
        forall j :: i < j < |fields| ==> fields[j].0 != key
  {
    if |fields| > 0 && fields[|fields| - 1].0 != key {
      var init := fields[..|fields| - 1];
      LookupMeaning(init, key);
      assert forall i :: 0 <= i < |init| ==> init[i] == fields[i];
    }
  }

  predicate HasKey(fields: seq<(string, Json)>, key: string) {
    Lookup(fields, key).Some?
  }

  /** The keys of a dictionary as iteration yields them: each key once. */
  function Keys(fields: seq<(string, Json)>): (ks: seq<string>)
    ensures forall k :: k in ks <==> HasKey(fields, k)
    ensures forall i, j :: 0 <= i < j < |ks| ==> ks[i] != ks[j]
  {
    if |fields| == 0 then []
    else
      var ks := Keys(fields[..|fields| - 1]);
      assert forall k :: HasKey(fields, k) <==> HasKey(fields[..|fields| - 1], k) || k == fields[|fields| - 1].0;
      if fields[|fields| - 1].0 in ks then ks else ks + [fields[|fields| - 1].0]
  }

  // ---------------------------------------------------------------------------
  // Substrings, for `k in s` on a string

  /** `needle` occurs in `hay` starting at position `i`. */
  ghost predicate OccursAt(needle: string, hay: string, i: nat) {
    i + |needle| <= |hay| && hay[i..i + |needle|] == needle
  }

  function IsSubstring(needle: string, hay: string): bool
    decreases |hay|
  {
    if |needle| <= |hay| && hay[..|needle|] == needle then true
    else if |hay| <= |needle| then false
    else IsSubstring(needle, hay[1..])
  }

  /** The search finds `needle` exactly when it occurs somewhere in `hay`. */
  lemma {:induction false} IsSubstringCorrect(needle: string, hay: string)
    ensures IsSubstring(needle, hay) <==> exists i: nat :: OccursAt(needle, hay, i)
    decreases |hay|
  {
    if |needle| <= |hay| && hay[..|needle|] == needle {
      assert OccursAt(needle, hay, 0);
    } else if |hay| <= |needle| {
      forall i: nat ensures !OccursAt(needle, hay, i) {
        if i + |needle| <= |hay| {
          assert i == 0 && |needle| == |hay|;
          assert hay[..|needle|] == hay[i..i + |needle|];
        }
      }
    } else {
      IsSubstringCorrect(needle, hay[1..]);
      forall i: nat ensures OccursAt(needle, hay, i + 1) <==> OccursAt(needle, hay[1..], i) {
        if i + 1 + |needle| <= |hay| {
          assert hay[1..][i..i + |needle|] == hay[i + 1..i + 1 + |needle|];
        }
      }
      if exists i: nat :: OccursAt(needle, hay, i) {
        var i: nat :| OccursAt(needle, hay, i);
        if i > 0 {
          assert OccursAt(needle, hay[1..], i - 1);
        }
      }
    }
  }

  /** Whatever contains `needle + more` contains `needle`. */
  lemma ExtensionContainsPrefix(needle: string, more: string, hay: string)
    requires IsSubstring(needle + more, hay)
    ensures IsSubstring(needle, hay)
  {
    IsSubstringCorrect(needle + more, hay);
    IsSubstringCorrect(needle, hay);
    var i: nat :| OccursAt(needle + more, hay, i);
    assert hay[i..i + |needle|] == (needle + more)[..|needle|];
    assert OccursAt(needle, hay, i);
  }

  // ---------------------------------------------------------------------------
  // Python operations on JSON values

  /** Python truthiness: `None`, `False`, zero, empty strings, lists and dicts are false. */
  predicate Truthy(v: Json) {
    match v
    case Null => false
    case Bool(b) => b
    case Num(n) => n != 0.0
    case Str(s) => s != ""
    case Arr(items) => items != []
    case Obj(fields) => fields != []
  }

  /** Exactly six values are false: `None`, `False`, `0`, `''`, `[]` and `{}`. */
  lemma FalsyValues(v: Json)
    ensures !Truthy(v) <==> v in [Null, Bool(false), Num(0.0), Str(""), Arr([]), Obj([])]
  {
  }

  /** `key in v`: a key test on a dict, a substring test on a str, membership on a list. */
  function In(key: string, v: Json): (r: Result<bool, PyError>)
    ensures r.Err? <==> v.Null? || v.Bool? || v.Num?
    ensures r.Err? ==> r.error == TypeError
    ensures v.Obj? && r == Ok(true) ==> Subscript(v, key).Ok?
  {
    match v
    case Obj(fields) => Ok(HasKey(fields, key))
    case Str(s) => Ok(IsSubstring(key, s))
    case Arr(items) => Ok(Str(key) in items)
    case _ => Err(TypeError)
  }

  /** `v[key]`. */
  function Subscript(v: Json, key: string): (r: Result<Json, PyError>)
    ensures r.Ok? <==> v.Obj? && HasKey(v.fields, key)
    ensures r.Err? ==> r.error == if v.Obj? then KeyError(key) else TypeError
  {
    match v
    case Obj(fields) =>
      (match Lookup(fields, key)
       case Some(x) => Ok(x)
       case None => Err(KeyError(key)))
    case _ => Err(TypeError)
  }

  /** `v.get(key, default)`; only a dict has `.get`. */
  function Get(v: Json, key: string, default: Json): (r: Result<Json, PyError>)
    ensures r.Ok? <==> v.Obj?
    ensures r.Err? ==> r.error == AttributeError
    ensures Subscript(v, key).Ok? ==> r == Subscript(v, key)
    ensures v.Obj? && !HasKey(v.fields, key) ==> r == Ok(default)
  {
    match v
    case Obj(fields) => Ok(Lookup(fields, key).GetOr(default))
    case _ => Err(AttributeError)
  }

  /** `for x in v`: a list's items, a str's characters, a dict's keys. `len(v)` is the length of this. */
  function Iter(v: Json): (r: Result<seq<Json>, PyError>)
    ensures r.Ok? <==> v.Arr? || v.Str? || v.Obj?
    ensures r.Err? ==> r.error == TypeError
    ensures v.Str? ==> |r.value| == |v.text|
    ensures v.Obj? ==> forall x :: x in r.value ==> x.Str? && HasKey(v.fields, x.text)
  {
    match v
    case Arr(items) => Ok(items)
    case Str(s) => Ok(seq(|s|, i requires 0 <= i < |s| => Str([s[i]])))
    case Obj(fields) =>
      var ks := Keys(fields);
      Ok(seq(|ks|, i requires 0 <= i < |ks| => Str(ks[i])))
    case _ => Err(TypeError)
  }

  /** The value as a number in arithmetic or where a C++ `double` is expected; `bool` is an `int` in Python. */
  function AsNumber(v: Json): Result<real, PyError> {
    match v
    case Num(n) => Ok(n)
    case Bool(b) => Ok(if b then 1.0 else 0.0)
    case _ => Err(TypeError)
  }

  /** The value where a `str` is expected (`os.path.join`, a C++ `std::string` argument). */
  function AsText(v: Json): Result<string, PyError> {
    match v
    case Str(s) => Ok(s)
    case _ => Err(TypeError)
  }

  /** For specifications: the value of `key` in an object, `Null` when absent (Python treats both as false). */
  function Field(v: Json, key: string): Json {
    if v.Obj? then Lookup(v.fields, key).GetOr(Null) else Null
  }
}
