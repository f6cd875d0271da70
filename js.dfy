/** The JavaScript values that travel through JSON, and the small part of
    JavaScript's semantics the route and the pages rely on: truthiness,
    property access, optional chaining, `a || b` and `String.prototype.trim`. */
module Js {
  import opened Wrappers

  /** A value produced by `JSON.parse`. JSON has no NaN, so a number is a real. */
  datatype Json =
    | JNull
    | JBool(b: bool)
    | JNumber(n: real)
    | JString(s: string)
    | JArray(items: seq<Json>)
    | JObject(fields: map<string, Json>)

  /** ECMAScript ToBoolean on a JSON value. */
  predicate Truthy(v: Json) {
    match v
    case JNull => false
    case JBool(b) => b
    case JNumber(n) => n != 0.0
    case JString(s) => s != ""
    case JArray(_) => true
    case JObject(_) => true
  }

  /** `v.name` on a value that is not null, for a name that is neither an array
      index, nor `length`, nor a member of a built-in prototype: only an
      object's own field can answer; anything else gives `undefined`. */
  function Field(v: Json, name: string): (r: Option<Json>)
    ensures r.Some? <==> v.JObject? && name in v.fields
    ensures r.Some? ==> r.value == v.fields[name]
  {
    match v
    case JObject(fields) => if name in fields then Some(fields[name]) else None
    case _ => None
  }

  /** `v[0]` on a value that is not null: the first element of an array, the
      first character of a string, or an object's field named "0". */
  function First(v: Json): (r: Option<Json>)
    ensures v.JArray? ==> (r.Some? <==> v.items != [])
    ensures v.JArray? && v.items != [] ==> r == Some(v.items[0])
    ensures v.JString? && v.s != [] ==> r == Some(JString([v.s[0]]))
  {
    match v
    case JArray(items) => if items != [] then Some(items[0]) else None
    case JString(s) => if s != [] then Some(JString([s[0]])) else None
    case JObject(fields) => if "0" in fields then Some(fields["0"]) else None
    case _ => None
  }

  /** True when `x?.p` short-circuits: `x` is undefined or null. */
  predicate Nullish(x: Option<Json>) {
    x.None? || x.value.JNull?
  }

  /** `x?.name`: `undefined` when `x` is nullish, otherwise `x.name`. */
  function OptField(x: Option<Json>, name: string): (r: Option<Json>)
    ensures Nullish(x) ==> r.None?
    ensures !Nullish(x) ==> r == Field(x.value, name)
  {
    if Nullish(x) then None else Field(x.value, name)
  }

  /** `x?.[0]`. */
  function OptFirst(x: Option<Json>): (r: Option<Json>)
    ensures Nullish(x) ==> r.None?
    ensures !Nullish(x) ==> r == First(x.value)
  {
    if Nullish(x) then None else First(x.value)
  }

  /** `x || fallback`, where `x` may be `undefined`. */
  function Or(x: Option<Json>, fallback: Json): (r: Json)
    ensures x.Some? && Truthy(x.value) ==> r == x.value
    ensures !(x.Some? && Truthy(x.value)) ==> r == fallback
  {
    if x.Some? && Truthy(x.value) then x.value else fallback
  }

  /** The characters `String.prototype.trim` removes: ECMAScript's WhiteSpace
      (tab, vertical tab, form feed, space, no-break space, byte order mark and
      the Unicode space separators) and LineTerminator characters. */
  predicate IsWhitespace(c: char) {
    c == '\t' || c == '\U{000B}' || c == '\U{000C}' || c == ' ' || c == '\U{00A0}' || c == '\U{FEFF}'
    || c == '\U{1680}' || ('\U{2000}' <= c <= '\U{200A}') || c == '\U{202F}' || c == '\U{205F}'
    || c == '\U{3000}' || c == '\n' || c == '\r' || c == '\U{2028}' || c == '\U{2029}'
  }

  function TrimStart(s: string): (r: string)
    ensures |r| <= |s|
    ensures r == s[|s| - |r|..]
    ensures r != [] ==> !IsWhitespace(r[0])
    ensures forall i :: 0 <= i < |s| - |r| ==> IsWhitespace(s[i])
  {
    if s != [] && IsWhitespace(s[0]) then TrimStart(s[1..]) else s
  }

  function TrimEnd(s: string): (r: string)
    ensures |r| <= |s|
    ensures r == s[..|r|]
    ensures r != [] ==> !IsWhitespace(r[|r| - 1])
    ensures forall i :: |r| <= i < |s| ==> IsWhitespace(s[i])
  {
    if s != [] && IsWhitespace(s[|s| - 1]) then TrimEnd(s[..|s| - 1]) else s
  }

  /** `s.trim()`: `s` without its leading and trailing whitespace. */
  function Trim(s: string): (r: string)
    ensures r != [] ==> !IsWhitespace(r[0]) && !IsWhitespace(r[|r| - 1])
    ensures exists a, b :: 0 <= a <= b <= |s| && r == s[a..b]
              && (forall i :: 0 <= i < a ==> IsWhitespace(s[i]))
              && (forall i :: b <= i < |s| ==> IsWhitespace(s[i]))
  {
    var t := TrimStart(s);
    var r := TrimEnd(t);
    SliceOfSlice(s, t, r, IsWhitespace);
    r
  }

  /** A prefix `r` of a suffix `t` of `s` is the slice of `s` between them;
      what lies outside it satisfies `p` when both cuts removed only `p`s. */
  lemma SliceOfSlice(s: string, t: string, r: string, p: char -> bool)
    requires |t| <= |s| && t == s[|s| - |t|..]
    requires |r| <= |t| && r == t[..|r|]
    requires forall i :: 0 <= i < |s| - |t| ==> p(s[i])
    requires forall i :: |r| <= i < |t| ==> p(t[i])
    ensures var a := |s| - |t|;
            r == s[a..a + |r|]
            && (forall i :: 0 <= i < a ==> p(s[i]))
            && (forall i :: a + |r| <= i < |s| ==> p(s[i]))
  {
    var a := |s| - |t|;
    forall i | a + |r| <= i < |s|
      ensures p(s[i])
    {
      assert s[i] == t[i - a];
    }
  }

  /** `!s.trim()`: the guard every page puts in front of a request. */
  predicate IsBlank(s: string) {
    Trim(s) == ""
  }

  /** `s.trim()` is empty exactly when every character of `s` is whitespace. */
  lemma BlankIffAllWhitespace(s: string)
    ensures IsBlank(s) <==> forall i :: 0 <= i < |s| ==> IsWhitespace(s[i])
  {
    var t := TrimStart(s);
    assert t != [] ==> t[0] == s[|s| - |t|];
    assert IsBlank(s) ==> t == [];
  }
}
