/** Optional values, used for the form's age and for lookups that may miss. */
module Wrappers {
  datatype Option<+T> = None | Some(value: T)
}

/**
 * Character classes and trimming as the validator uses them. JavaScript's
 * `trim()` and the regex class `\s` strip or match the same set of
 * characters; this model fixes that set to ASCII whitespace, and `\d` and
 * `[A-Za-z]` to ASCII digits and letters.
 */
module Text {

  predicate IsSpace(c: char) {
    c == ' ' || c == '\t' || c == '\n' || c == '\r' || c == '\U{000B}' || c == '\U{000C}'
  }

  predicate IsLetter(c: char) {
    ('A' <= c <= 'Z') || ('a' <= c <= 'z')
  }

  predicate IsDigit(c: char) {
    '0' <= c <= '9'
  }

  /** Every character of `s` is whitespace (true of the empty string). */
  predicate AllSpace(s: string) {
    forall i :: 0 <= i < |s| ==> IsSpace(s[i])
  }

  /** `s` with its leading whitespace removed. */
  function TrimStart(s: string): (r: string)
    ensures |r| <= |s| && r == s[|s| - |r|..] && AllSpace(s[..|s| - |r|])
    ensures r == [] || !IsSpace(r[0])
  {
    if |s| > 0 && IsSpace(s[0]) then
      var r := TrimStart(s[1..]);
      assert s[1..][..|s| - 1 - |r|] == s[1..|s| - |r|];
      r
    else
      s
  }

  /** `s` with its trailing whitespace removed. */
  function TrimEnd(s: string): (r: string)
    ensures |r| <= |s| && r == s[..|r|] && AllSpace(s[|r|..])
    ensures r == [] || !IsSpace(r[|r| - 1])
  {
    if |s| > 0 && IsSpace(s[|s| - 1]) then
      var r := TrimEnd(s[..|s| - 1]);
      assert s[..|s| - 1][|r|..] == s[|r|..|s| - 1];
      assert s[|r|..] == s[|r|..|s| - 1] + [s[|s| - 1]];
      r
    else
      s
  }

  /** `r` sits at `k` in `s` with only whitespace before and after it. */
  ghost predicate SpaceAround(s: string, r: string, k: int) {
    0 <= k <= |s| - |r| && r == s[k..k + |r|] && AllSpace(s[..k]) && AllSpace(s[k + |r|..])
  }

  /** JavaScript's `String.prototype.trim`, over the whitespace set above. */
  function Trim(s: string): (r: string)
    ensures |r| <= |s|
    ensures r == [] || (!IsSpace(r[0]) && !IsSpace(r[|r| - 1]))
    ensures exists k :: SpaceAround(s, r, k)
  {
    var t := TrimStart(s);
    TrimSlice(s, t, TrimEnd(t), |s| - |t|);
    TrimEnd(t)
  }

  /**
   * A value with whitespace cut off its front at `k` and then off its back
   * sits at `k` with only whitespace around it.
   */
  lemma TrimSlice(s: string, t: string, r: string, k: int)
    requires 0 <= k <= |s| && t == s[k..] && AllSpace(s[..k])
    requires |r| <= |t| && r == t[..|r|] && AllSpace(t[|r|..])
    ensures SpaceAround(s, r, k)
  {
    assert r == s[k..k + |r|];
    assert s[k + |r|..] == t[|r|..];
  }

  /** The validator's `s.trim() === ""` test: blank exactly when all whitespace. */
  lemma {:induction false} TrimEmptyIffAllSpace(s: string)
    ensures Trim(s) == [] <==> AllSpace(s)
  {
    var t := TrimStart(s);
    var k := |s| - |t|;
    if t == [] {
      assert k == |s| && s[..k] == s;
      assert Trim(s) == [];
    } else {
      assert t[0] == s[k] && !IsSpace(s[k]);
      assert !AllSpace(t);
      assert Trim(s) != [];
    }
  }
}
