/** The small part of JavaScript value semantics the chat component relies on:
    truthiness and `||` on string-valued properties, and `String.prototype.trim`. */
module JsValues {

  /** A property that should hold a string, as JavaScript sees it: missing
      (`undefined`), explicitly `null` (a nullable database column), or a string.
      Strict equality `===` on these is structural equality of this datatype. */
  datatype JsVal = Undefined | Null | Str(s: string)

  /** JavaScript truthiness of such a value: only a non-empty string is truthy. */
  predicate Truthy(v: JsVal) {
    v.Str? && v.s != ""
  }

  /** `a || b`: the first operand when it is truthy, otherwise the second, whatever it is. */
  function Or(a: JsVal, b: JsVal): (r: JsVal)
    ensures r == a || r == b
    ensures Truthy(a) ==> r == a
    ensures !Truthy(a) ==> r == b
    ensures Truthy(r) <==> Truthy(a) || Truthy(b)
  {
    if Truthy(a) then a else b
  }

  /** The code points `String.prototype.trim` removes: ECMAScript WhiteSpace
      (TAB, VT, FF, ZWNBSP and every Unicode "Zs" space) and LineTerminator
      (LF, CR, LINE SEPARATOR, PARAGRAPH SEPARATOR). */
  predicate IsTrimmable(c: char) {
    c == '\t' || c == '\U{000B}' || c == '\U{000C}' || c == '\U{FEFF}'
    || c == ' ' || c == '\U{00A0}' || c == '\U{1680}'
    || ('\U{2000}' <= c <= '\U{200A}')
    || c == '\U{202F}' || c == '\U{205F}' || c == '\U{3000}'
    || c == '\n' || c == '\r' || c == '\U{2028}' || c == '\U{2029}'
  }

  /** Every character of `s` is one that `trim` removes. */
  predicate Blank(s: string) {
    forall i :: 0 <= i < |s| ==> IsTrimmable(s[i])
  }

  /** `s` with its leading trimmable characters removed. */
  function TrimStart(s: string): (r: string)
    ensures |r| <= |s| && r == s[|s| - |r|..]
    ensures Blank(s[..|s| - |r|])
    ensures r == [] || !IsTrimmable(r[0])
  {
    if s != [] && IsTrimmable(s[0]) then
      var r := TrimStart(s[1..]);
      assert s[..|s| - |r|] == [s[0]] + s[1..][..|s| - 1 - |r|];
      r
    else
      s
  }

  /** `s` with its trailing trimmable characters removed. */
  function TrimEnd(s: string): (r: string)
    ensures |r| <= |s| && r == s[..|r|]
    ensures Blank(s[|r|..])
    ensures r == [] || !IsTrimmable(r[|r| - 1])
  {
    if s != [] && IsTrimmable(s[|s| - 1]) then
      var r := TrimEnd(s[..|s| - 1]);
      assert s[|r|..] == s[..|s| - 1][|r|..] + [s[|s| - 1]];
      r
    else
      s
  }

  /** `s.trim()`: `s` without its leading and trailing trimmable characters. */
  function Trim(s: string): (r: string)
    ensures |r| <= |s|
    ensures exists i, j :: 0 <= i <= j <= |s| && r == s[i..j] && Blank(s[..i]) && Blank(s[j..])
    ensures r == [] || (!IsTrimmable(r[0]) && !IsTrimmable(r[|r| - 1]))
  {
    var t := TrimStart(s);
    var r := TrimEnd(t);
    var i := |s| - |t|;
    var j := i + |r|;
    assert t == s[i..];
    assert r == s[i..j];
    assert t[|r|..] == s[j..];
    r
  }

  /** `!s.trim()` holds exactly for the strings made only of trimmable characters
      (the empty string among them). */
  lemma TrimEmptyIffBlank(s: string)
    ensures Trim(s) == [] <==> Blank(s)
  {
    var t := TrimStart(s);
    if Trim(s) == [] {
      assert Blank(t[0..]);
      assert t == [];
      assert s[..|s|] == s;
    } else {
      var r := Trim(s);
      assert t[..|r|] == r;
      assert r[0] == s[|s| - |t|];
    }
  }

  /** Evaluates `!s.trim()`: true exactly for blank strings. */
  method TrimIsEmpty(s: string) returns (empty: bool)
    ensures empty <==> Blank(s)
  {
    empty := Trim(s) == [];
    TrimEmptyIffBlank(s);
  }
}
