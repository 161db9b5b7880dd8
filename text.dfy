/**
 * The string operations the directive checks are built from: `str.lower()`
 * and the substring test `pat in s`, together with `any(...)` over a list of
 * patterns.
 */
module Text {

  predicate IsUpper(c: char) {
    'A' <= c <= 'Z'
  }

  /** Lower-cases one ASCII capital letter and leaves every other character alone. */
  function LowerChar(c: char): char {
    if IsUpper(c) then (c as int + 32) as char else c
  }

  /** `s.lower()`, restricted to the ASCII case mapping. */
  function Lower(s: string): (r: string)
    ensures |r| == |s|
  {
    seq(|s|, i requires 0 <= i < |s| => LowerChar(s[i]))
  }

  /** Each character of the result is the lower-cased character at the same index. */
  lemma LowerAt(s: string, i: int)
    requires 0 <= i < |s|
    ensures Lower(s)[i] == LowerChar(s[i])
    ensures !IsUpper(Lower(s)[i])
    ensures IsUpper(s[i]) ==> Lower(s)[i] as int == s[i] as int + 32
    ensures !IsUpper(s[i]) ==> Lower(s)[i] == s[i]
  {
  }

  /** Lower-casing works character by character, so it distributes over concatenation. */
  lemma LowerAppend(a: string, b: string)
    ensures Lower(a + b) == Lower(a) + Lower(b)
  {
  }

  /** A string whose characters each lower-case to those of `t` lower-cases to `t`. */
  lemma LowerIs(s: string, t: string)
    requires |s| == |t|
    requires forall i :: 0 <= i < |s| ==> LowerChar(s[i]) == t[i]
    ensures Lower(s) == t
  {
    forall i | 0 <= i < |s| ensures Lower(s)[i] == t[i] {
      LowerAt(s, i);
    }
  }

  /** Lower-casing commutes with slicing. */
  lemma LowerSlice(s: string, i: int, j: int)
    requires 0 <= i <= j <= |s|
    ensures Lower(s)[i..j] == Lower(s[i..j])
  {
  }

  /** `pat` occurs in `s` starting at index `i`. */
  ghost predicate OccursAt(s: string, pat: string, i: int) {
    0 <= i && i + |pat| <= |s| && s[i..i + |pat|] == pat
  }

  /** `pat in s`: tries each start position from the left. */
  function Contains(s: string, pat: string): (r: bool)
    ensures |pat| == 0 ==> r
    ensures r ==> |pat| <= |s|
    decreases |s|
  {
    if |pat| > |s| then false
    else if s[..|pat|] == pat then true
    else Contains(s[1..], pat)
  }

  /** The search finds a match exactly when `pat` occurs somewhere in `s`. */
  lemma {:induction false} ContainsIff(s: string, pat: string)
    ensures Contains(s, pat) <==> exists i :: OccursAt(s, pat, i)
    decreases |s|
  {
    if |pat| > |s| {
    } else if s[..|pat|] == pat {
      assert OccursAt(s, pat, 0);
    } else {
      ContainsIff(s[1..], pat);
      if Contains(s[1..], pat) {
        var j :| OccursAt(s[1..], pat, j);
        assert s[j + 1..j + 1 + |pat|] == s[1..][j..j + |pat|];
        assert OccursAt(s, pat, j + 1);
      }
      if i :| OccursAt(s, pat, i) {
        assert i != 0;
        assert s[1..][i - 1..i - 1 + |pat|] == s[i..i + |pat|];
        assert OccursAt(s[1..], pat, i - 1);
      }
    }
  }

  /** A pattern holding a character that `s` lacks does not occur in `s`. */
  lemma NotContainsMissingChar(s: string, pat: string, j: int)
    requires 0 <= j < |pat| && pat[j] !in s
    ensures !Contains(s, pat)
  {
    ContainsIff(s, pat);
  }

  /** Some pattern of the list occurs somewhere in `s`. */
  ghost predicate OccursAny(s: string, pats: seq<string>) {
    exists k, i :: 0 <= k < |pats| && OccursAt(s, pats[k], i)
  }

  /** `any(p in s for p in pats)`. */
  function ContainsAny(s: string, pats: seq<string>): (r: bool)
    ensures r <==> exists k :: 0 <= k < |pats| && Contains(s, pats[k])
    decreases |pats|
  {
    |pats| > 0 && (Contains(s, pats[0]) || ContainsAny(s, pats[1..]))
  }

  /** Some pattern of the list occurs in `s` exactly when the scan over the list says so. */
  lemma {:induction false} ContainsAnyIff(s: string, pats: seq<string>)
    ensures ContainsAny(s, pats) <==> OccursAny(s, pats)
    decreases |pats|
  {
    if |pats| > 0 {
      ContainsIff(s, pats[0]);
      ContainsAnyIff(s, pats[1..]);
      if k, i :| 0 <= k < |pats| && OccursAt(s, pats[k], i) {
        if k > 0 {
          assert pats[1..][k - 1] == pats[k];
        }
      }
      if ContainsAny(s, pats[1..]) {
        var k, i :| 0 <= k < |pats| - 1 && OccursAt(s, pats[1..][k], i);
        assert OccursAt(s, pats[k + 1], i);
      }
    }
  }
}
