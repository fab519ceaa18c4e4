/** JavaScript value semantics the core relies on: truthiness of optional
    strings and numbers, `a || b`, and `String.prototype.trim`. */
module JsValues {
  import opened Wrappers

  /** A possibly absent string is truthy when present and non-empty. */
  predicate Truthy(s: Option<string>) {
    s.Some? && s.value != ""
  }

  /** A possibly absent number is truthy when present and non-zero. */
  predicate TruthyNumber(n: Option<int>) {
    n.Some? && n.value != 0
  }

  /** `s || fallback` where the fallback is a plain string. */
  function OrElse(s: Option<string>, fallback: string): (r: string)
    ensures r == s.GetOr(fallback) || r == fallback
  {
    if Truthy(s) then s.value else fallback
  }

  /** `a || b` where both sides may be absent. */
  function Or(a: Option<string>, b: Option<string>): (r: Option<string>)
    ensures r == a || r == b
  {
    if Truthy(a) then a else b
  }

  /** The characters `trim` removes: ECMAScript WhiteSpace and LineTerminator. */
  predicate IsWhitespace(c: char) {
    c == '\t' || c == '\n' || c == '\U{000B}' || c == '\U{000C}' || c == '\r' || c == ' '
    || c == '\U{00A0}' || c == '\U{1680}' || ('\U{2000}' <= c <= '\U{200A}')
    || c == '\U{2028}' || c == '\U{2029}' || c == '\U{202F}' || c == '\U{205F}'
    || c == '\U{3000}' || c == '\U{FEFF}'
  }

  /** Every character of `s` is whitespace (the empty string included). */
  predicate IsBlank(s: string) {
    forall i :: 0 <= i < |s| ==> IsWhitespace(s[i])
  }

  function TrimStart(s: string): (r: string)
    ensures |r| <= |s| && r == s[|s| - |r|..]
    ensures IsBlank(s[..|s| - |r|])
    ensures r != [] ==> !IsWhitespace(r[0])
    decreases |s|
  {
    if s != [] && IsWhitespace(s[0]) then
      var r := TrimStart(s[1..]);
      assert s[1..][..|s| - 1 - |r|] == s[1..|s| - |r|];
      r
    else s
  }

  function TrimEnd(s: string): (r: string)
    ensures |r| <= |s| && r == s[..|r|]
    ensures IsBlank(s[|r|..])
    ensures r != [] ==> !IsWhitespace(r[|r| - 1])
    decreases |s|
  {
    if s != [] && IsWhitespace(s[|s| - 1]) then
      var r := TrimEnd(s[..|s| - 1]);
      assert s[..|s| - 1][|r|..] + [s[|s| - 1]] == s[|r|..];
      r
    else s
  }

  /** `s.trim()`: both ends stripped of whitespace. */
  function Trim(s: string): (r: string)
    ensures r != [] ==> !IsWhitespace(r[0]) && !IsWhitespace(r[|r| - 1])
  {
    TrimEnd(TrimStart(s))
  }

  /** Every suffix of a blank string is blank. */
  lemma BlankSuffix(s: string, k: int)
    requires IsBlank(s) && 0 <= k <= |s|
    ensures IsBlank(s[k..])
  {
    forall i | 0 <= i < |s[k..]| ensures IsWhitespace(s[k..][i]) {
      assert s[k..][i] == s[k + i];
    }
  }

  /** A blank string is stripped completely from the start. */
  lemma {:induction false} TrimStartOfBlank(s: string)
    requires IsBlank(s)
    ensures TrimStart(s) == ""
    decreases |s|
  {
    if s != [] {
      assert IsWhitespace(s[0]);
      BlankSuffix(s, 1);
      TrimStartOfBlank(s[1..]);
    }
  }

  /** A blank string trims to "". */
  lemma BlankTrimsToEmpty(s: string)
    requires IsBlank(s)
    ensures Trim(s) == ""
  {
    TrimStartOfBlank(s);
    assert TrimStart(s) == "";
  }

  /** Only a blank string trims to "": what the end cut removes is blank, so
      the start cut, which leaves no whitespace in front, has taken everything,
      and the start cut is blank. */
  lemma EmptyTrimIsBlank(s: string)
    ensures Trim(s) == "" ==> IsBlank(s)
  {
    if Trim(s) == "" {
      var t := TrimStart(s);
      assert IsBlank(t) by {
        assert t[|TrimEnd(t)|..] == t;
      }
      assert t == [];
      assert s[..|s|] == s;
    }
  }

  /** `s.trim()` is falsy exactly when `s` is blank. */
  lemma TrimEmptyIffBlank(s: string)
    ensures Trim(s) == "" <==> IsBlank(s)
  {
    if IsBlank(s) {
      BlankTrimsToEmpty(s);
    }
    EmptyTrimIsBlank(s);
  }
}
