/** Text helpers the chatbot kernel relies on: Python's notion of a whitespace
    character, `str.strip()` with no argument, and substring predicates used to
    state what a prompt contains. */
module Strings {

  /** The characters for which Python's `str.isspace()` holds; these are what
      `str.strip()` removes when called without an argument. */
  predicate IsSpace(c: char) {
    || ('\t' <= c <= '\r')              // tab, line feed, vertical tab, form feed, carriage return
    || ('\U{1C}' <= c <= '\U{1F}')      // file, group, record and unit separators
    || c == ' '
    || c == '\U{85}'                    // next line
    || c == '\U{A0}'                    // no-break space
    || c == '\U{1680}'
    || ('\U{2000}' <= c <= '\U{200A}')
    || c == '\U{2028}' || c == '\U{2029}'
    || c == '\U{202F}' || c == '\U{205F}' || c == '\U{3000}'
  }

  ghost predicate AllSpace(s: string) {
    forall i :: 0 <= i < |s| ==> IsSpace(s[i])
  }

  /** Removes the longest whitespace prefix. */
  function TrimStart(s: string): (r: string)
    ensures |r| <= |s| && r == s[|s| - |r|..]
    ensures AllSpace(s[..|s| - |r|])
    ensures r == [] || !IsSpace(r[0])
  {
    if |s| > 0 && IsSpace(s[0]) then
      var r := TrimStart(s[1..]);
      assert s[..|s| - |r|] == [s[0]] + s[1..][..|s| - 1 - |r|];
      r
    else
      s
  }

  /** Removes the longest whitespace suffix. */
  function TrimEnd(s: string): (r: string)
    ensures |r| <= |s| && r == s[..|r|]
    ensures AllSpace(s[|r|..])
    ensures r == [] || !IsSpace(r[|r| - 1])
  {
    if |s| > 0 && IsSpace(s[|s| - 1]) then
      var r := TrimEnd(s[..|s| - 1]);
      assert s[|r|..] == s[..|s| - 1][|r|..] + [s[|s| - 1]];
      r
    else
      s
  }

  /** Python's `s.strip()`: the middle of `s` left after removing whitespace at both ends. */
  function Strip(s: string): (r: string)
    ensures exists i, j :: 0 <= i <= j <= |s| && r == s[i..j] && AllSpace(s[..i]) && AllSpace(s[j..])
    ensures r == [] || (!IsSpace(r[0]) && !IsSpace(r[|r| - 1]))
  {
    var t := TrimStart(s);
    var r := TrimEnd(t);
    var i := |s| - |t|;
    assert r == s[i..i + |r|];
    assert s[i + |r|..] == t[|r|..];
    r
  }

  /** `not s.strip()` in Python: the stripped string is empty. */
  predicate IsBlank(s: string) {
    Strip(s) == []
  }

  /** A string is blank exactly when every one of its characters is whitespace. */
  lemma BlankIffAllSpace(s: string)
    ensures IsBlank(s) <==> AllSpace(s)
  {
    var t := TrimStart(s);
    var r := TrimEnd(t);
    if r == [] {
      // both trimmed parts are whitespace and together they make up `s`
      assert s == s[..|s| - |t|] + t;
      assert t == t[|r|..];
    } else {
      // if `s` were all whitespace, so would its suffix `t` and the prefix `r` of `t`
      assert r[0] == t[0] == s[|s| - |t|];
    }
  }

  /** `p` occurs in `s` starting at index `k`. */
  ghost predicate OccursAt(s: string, p: string, k: nat) {
    k + |p| <= |s| && s[k..k + |p|] == p
  }

  ghost predicate Contains(s: string, p: string) {
    exists k: nat :: OccursAt(s, p, k)
  }

  ghost predicate StartsWith(s: string, p: string) {
    OccursAt(s, p, 0)
  }

  ghost predicate EndsWith(s: string, p: string) {
    |p| <= |s| && s[|s| - |p|..] == p
  }

  /** An occurrence of `a` ends no later than where an occurrence of `b` begins. */
  ghost predicate ContainsInOrder(s: string, a: string, b: string) {
    exists i: nat, j: nat :: OccursAt(s, a, i) && OccursAt(s, b, j) && i + |a| <= j
  }

  /** In a concatenation, the middle piece occurs right after the first. */
  lemma OccursInMiddle(x: string, p: string, y: string)
    ensures OccursAt(x + p + y, p, |x|)
  {
    assert (x + p + y)[|x|..|x| + |p|] == p;
  }

  /** A concatenation starts with its first piece and ends with its last. */
  lemma EndsOfConcat(x: string, y: string)
    ensures StartsWith(x + y, x) && EndsWith(x + y, y)
  {
    assert (x + y)[..|x|] == x;
    assert (x + y)[|x|..] == y;
  }

  /** Filling the one hole of a template `a _ c` with `x`: the result keeps the
      template's ends, holds `x` right after `a`, and nothing more. */
  lemma FilledHole(a: string, x: string, c: string)
    ensures StartsWith(a + x + c, a) && EndsWith(a + x + c, c)
    ensures OccursAt(a + x + c, x, |a|) && Contains(a + x + c, x)
    ensures |a + x + c| == |a| + |x| + |c|
  {
    OccursInMiddle(a, x, c);
    EndsOfConcat(a, x + c);
    assert a + (x + c) == a + x + c;
    EndsOfConcat(a + x, c);
  }

  /** Filling two holes of a template `a _ b _ c` with `x` and `y`: the result
      keeps the template's ends, holds `x` right after `a` and `y` right after
      `b`, so `x` comes before `y`, and nothing more. */
  lemma FilledTemplate(a: string, x: string, b: string, y: string, c: string)
    ensures StartsWith(a + x + b + y + c, a) && EndsWith(a + x + b + y + c, c)
    ensures OccursAt(a + x + b + y + c, x, |a|)
    ensures OccursAt(a + x + b + y + c, y, |a| + |x| + |b|)
    ensures ContainsInOrder(a + x + b + y + c, x, y)
    ensures |a + x + b + y + c| == |a| + |x| + |b| + |y| + |c|
  {
    var s := a + x + b + y + c;
    assert s == a + x + (b + y + c);
    OccursInMiddle(a, x, b + y + c);
    OccursInMiddle(a + x + b, y, c);
    EndsOfConcat(a, x + b + y + c);
    assert a + (x + b + y + c) == s;
    EndsOfConcat(a + x + b + y, c);
  }
}
