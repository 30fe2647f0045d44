/**
  The pieces of JavaScript semantics that the message handler's guards rely
  on: truthiness of a request value, String.prototype.trim, and the optional
  call `content?.trim()`.
*/
module JsValues {

  /** A value decoded from a JSON request body or absent from it. Numbers are
      integers here; `Obj` stands for any object or array. */
  datatype Json = Undefined | Null | Bool(b: bool) | Num(n: int) | Str(s: string) | Obj

  /** JavaScript's ToBoolean on these values. */
  predicate Truthy(v: Json)
  {
    match v
    case Undefined => false
    case Null => false
    case Bool(b) => b
    case Num(n) => n != 0
    case Str(s) => s != ""
    case Obj => true
  }

  /** The characters trim removes: ECMAScript's WhiteSpace (tab, vertical tab,
      form feed, no-break space, byte order mark and the space separators)
      and LineTerminator (line feed, carriage return, the line and paragraph
      separators). */
  predicate IsWhiteSpace(c: char)
  {
    c == '\t' || c == '\n' || c == '\U{000B}' || c == '\U{000C}' || c == '\r' ||
    c == ' ' || c == '\U{00A0}' || c == '\U{1680}' ||
    ('\U{2000}' <= c <= '\U{200A}') ||
    c == '\U{2028}' || c == '\U{2029}' || c == '\U{202F}' || c == '\U{205F}' ||
    c == '\U{3000}' || c == '\U{FEFF}'
  }

  /** `s` with its leading white space removed. */
  function TrimStart(s: string): (t: string)
    ensures |t| <= |s| && t == s[|s| - |t|..]
    ensures t == [] || !IsWhiteSpace(t[0])
    ensures forall i :: 0 <= i < |s| - |t| ==> IsWhiteSpace(s[i])
  {
    if s != [] && IsWhiteSpace(s[0]) then TrimStart(s[1..]) else s
  }

  /** `s` with its trailing white space removed. */
  function TrimEnd(s: string): (t: string)
    ensures |t| <= |s| && t == s[..|t|]
    ensures t == [] || !IsWhiteSpace(t[|t| - 1])
    ensures forall i :: |t| <= i < |s| ==> IsWhiteSpace(s[i])
  {
    if s != [] && IsWhiteSpace(s[|s| - 1]) then TrimEnd(s[..|s| - 1]) else s
  }

  /** String.prototype.trim. */
  function Trim(s: string): string
  {
    TrimEnd(TrimStart(s))
  }

  predicate Blank(s: string)
  {
    forall i :: 0 <= i < |s| ==> IsWhiteSpace(s[i])
  }

  /** trim yields the empty string, the one falsy string, exactly when every
      character is white space. */
  lemma TrimEmptyIffBlank(s: string)
    ensures Trim(s) == "" <==> Blank(s)
  {
  }

  /** What `v?.trim()` evaluates to. */
  datatype TrimResult = NoValue | Trimmed(text: string) | TypeError

  /** `v?.trim()`: nothing for null or undefined, the trimmed text for a
      string, and a thrown TypeError for anything else (a number, boolean or
      object has no trim method). */
  function OptionalTrim(v: Json): (r: TrimResult)
    ensures r.NoValue? <==> v.Undefined? || v.Null?
    ensures r.Trimmed? <==> v.Str?
    ensures r.Trimmed? ==> (r.text == "" <==> Blank(v.s))
  {
    match v
    case Undefined => NoValue
    case Null => NoValue
    case Str(s) => TrimEmptyIffBlank(s); Trimmed(Trim(s))
    case _ => TypeError
  }
}
