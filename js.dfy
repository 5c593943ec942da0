/**
  The small part of JavaScript's value semantics the application relies on:
  values returned by the wallet extension, truthiness, optional chaining,
  and String.prototype.trim.
 */
module Js {
  import opened Wrappers

  /** A JavaScript value as far as this application inspects it.
      Numbers are kept integral (see README, "Left out"). */
  datatype JsValue =
    | Undefined
    | Null
    | Bool(b: bool)
    | Num(n: int)
    | Str(s: string)
    | Obj(fields: map<string, JsValue>)

  /** The outcome of awaiting a foreign call: it resolves to a value or rejects. */
  datatype Reply = Threw(message: string) | Returned(value: JsValue)

  /** ToBoolean: what `if (v)` and `!v` test. */
  predicate Truthy(v: JsValue)
  {
    match v
    case Undefined => false
    case Null => false
    case Bool(b) => b
    case Num(n) => n != 0
    case Str(s) => s != []
    case Obj(_) => true
  }

  /** `v?.name`: undefined when v is nullish, when v is a primitive without
      such a property, or when the object lacks the property. */
  function OptionalGet(v: JsValue, name: string): (r: JsValue)
    ensures r != Undefined ==> v.Obj? && name in v.fields && r == v.fields[name]
    ensures v.Obj? && name in v.fields ==> r == v.fields[name]
  {
    if v.Obj? && name in v.fields then v.fields[name] else Undefined
  }

  /** `v.name` without optional chaining: reading a property of null or
      undefined throws a TypeError. */
  function Get(v: JsValue, name: string): (r: Result<JsValue, ()>)
    ensures r.Failure? <==> v == Undefined || v == Null
    ensures r.Success? ==> r.value == OptionalGet(v, name)
  {
    if v == Undefined || v == Null then Failure(()) else Success(OptionalGet(v, name))
  }

  /** ECMAScript WhiteSpace and LineTerminator code points: the characters
      that trim() removes and parseFloat() skips. */
  predicate IsWhiteSpace(c: char)
  {
    || c == '\t' || c == '\n' || c == '\U{000B}' || c == '\U{000C}' || c == '\r'
    || c == ' ' || c == '\U{00A0}' || c == '\U{1680}'
    || ('\U{2000}' <= c <= '\U{200A}')
    || c == '\U{2028}' || c == '\U{2029}' || c == '\U{202F}' || c == '\U{205F}'
    || c == '\U{3000}' || c == '\U{FEFF}'
  }

  /** String.prototype.trimStart: drops the leading white space and nothing else. */
  function TrimStart(s: string): (r: string)
    ensures |r| <= |s| && r == s[|s| - |r|..]
    ensures forall i :: 0 <= i < |s| - |r| ==> IsWhiteSpace(s[i])
    ensures r != [] ==> !IsWhiteSpace(r[0])
  {
    if s != [] && IsWhiteSpace(s[0]) then TrimStart(s[1..]) else s
  }

  /** Dropping the trailing white space and nothing else. */
  function TrimEnd(s: string): (r: string)
    ensures |r| <= |s| && r == s[..|r|]
    ensures forall i :: |r| <= i < |s| ==> IsWhiteSpace(s[i])
    ensures r != [] ==> !IsWhiteSpace(r[|r| - 1])
  {
    if s != [] && IsWhiteSpace(s[|s| - 1]) then TrimEnd(s[..|s| - 1]) else s
  }

  /** String.prototype.trim: the longest substring that neither starts nor
      ends with white space, obtained by dropping only white space. */
  function Trim(s: string): (r: string)
    ensures var a := |s| - |TrimStart(s)|;
      && a + |r| <= |s|
      && r == s[a..a + |r|]
      && (forall i :: 0 <= i < a ==> IsWhiteSpace(s[i]))
      && (forall i :: a + |r| <= i < |s| ==> IsWhiteSpace(s[i]))
    ensures r != [] ==> !IsWhiteSpace(r[0]) && !IsWhiteSpace(r[|r| - 1])
  {
    TrimEnd(TrimStart(s))
  }

  /** A string trims to "" exactly when every character is white space:
      what `!s.trim()` tests. */
  lemma {:induction false} TrimEmptyIffBlank(s: string)
    ensures Trim(s) == [] <==> forall i :: 0 <= i < |s| ==> IsWhiteSpace(s[i])
  {
    var t := TrimStart(s);
    var a := |s| - |t|;
    if Trim(s) != [] {
      var i := a;
      assert s[i] == Trim(s)[0];
    }
  }
}
