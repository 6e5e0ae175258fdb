/**
 * The two JavaScript string operations the renderer relies on:
 * `String.prototype.replace` with a global, literal pattern, and
 * `toLowerCase` on the ASCII labels it is applied to.
 */
module Strings {

  /** `pat` occurs in `s` starting at index `k`. */
  predicate OccursAt(s: string, pat: string, k: int) {
    0 <= k && k + |pat| <= |s| && s[k..k + |pat|] == pat
  }

  predicate Occurs(s: string, pat: string) {
    exists k | 0 <= k <= |s| :: OccursAt(s, pat, k)
  }

  predicate Lacks(s: string, c: char) {
    forall i :: 0 <= i < |s| ==> s[i] != c
  }

  /**
   * Replace every occurrence of `pat`, scanning left to right, matches not
   * overlapping, and inserting `rep` literally. The replaced text is not
   * scanned again.
   */
  function ReplaceAll(s: string, pat: string, rep: string): string
    requires pat != ""
    decreases |s|
  {
    if |s| < |pat| then s
    else if s[..|pat|] == pat then rep + ReplaceAll(s[|pat|..], pat, rep)
    else [s[0]] + ReplaceAll(s[1..], pat, rep)
  }

  /**
   * The replacement text that `String.prototype.replace` inserts for one
   * match of a regular expression without capture groups when the
   * replacement is a string: `$$` gives `$`, `$&` the match, `` $` `` the
   * text before the match and `$'` the text after it; any other `$` stays.
   */
  function Expand(rep: string, matched: string, before: string, after: string): string
    decreases |rep|
  {
    if |rep| >= 2 && rep[0] == '$' && rep[1] == '$' then "$" + Expand(rep[2..], matched, before, after)
    else if |rep| >= 2 && rep[0] == '$' && rep[1] == '&' then matched + Expand(rep[2..], matched, before, after)
    else if |rep| >= 2 && rep[0] == '$' && rep[1] == '`' then before + Expand(rep[2..], matched, before, after)
    else if |rep| >= 2 && rep[0] == '$' && rep[1] == '\'' then after + Expand(rep[2..], matched, before, after)
    else if rep == [] then []
    else [rep[0]] + Expand(rep[1..], matched, before, after)
  }

  /** The scan of `ReplaceAllAsWritten` from index `i` of the whole subject `s`. */
  function ScanAsWritten(s: string, pat: string, rep: string, i: nat): string
    requires pat != "" && i <= |s|
    decreases |s| - i
  {
    if |s| - i < |pat| then s[i..]
    else if s[i..i + |pat|] == pat then
      Expand(rep, pat, s[..i], s[i + |pat|..]) + ScanAsWritten(s, pat, rep, i + |pat|)
    else [s[i]] + ScanAsWritten(s, pat, rep, i + 1)
  }

  /** `s.replace(/pat/g, rep)` as JavaScript evaluates it, `$` patterns included. */
  function ReplaceAllAsWritten(s: string, pat: string, rep: string): string
    requires pat != ""
  {
    ScanAsWritten(s, pat, rep, 0)
  }

  function LowerChar(c: char): char {
    if 'A' <= c <= 'Z' then (c as int + 32) as char else c
  }

  /** `toLowerCase` for ASCII letters; other characters are kept. */
  function Lower(s: string): (r: string)
    ensures |r| == |s|
    ensures forall i :: 0 <= i < |s| ==> r[i] == LowerChar(s[i])
  {
    seq(|s|, i requires 0 <= i < |s| => LowerChar(s[i]))
  }

  /** An occurrence in `y` is an occurrence in `x + y`, shifted by `|x|`. */
  lemma OccursShifted(x: string, y: string, pat: string, k: int)
    requires OccursAt(y, pat, k)
    ensures OccursAt(x + y, pat, |x| + k)
  {
    assert (x + y)[|x| + k..|x| + k + |pat|] == y[k..k + |pat|];
  }

  /** An occurrence in `x + y` that starts inside `y` is an occurrence in `y`. */
  lemma OccursInSuffix(x: string, y: string, pat: string, k: int)
    requires k >= |x|
    ensures OccursAt(x + y, pat, k) ==> OccursAt(y, pat, k - |x|)
  {
    if OccursAt(x + y, pat, k) {
      assert (x + y)[k..k + |pat|] == y[k - |x|..k - |x| + |pat|];
    }
  }

  /** An occurrence at `k` has the pattern's `j`-th character at `k + j`. */
  lemma OccursAtChar(s: string, pat: string, k: int, j: int)
    requires 0 <= j < |pat|
    ensures OccursAt(s, pat, k) ==> s[k + j] == pat[j]
  {
    if OccursAt(s, pat, k) {
      assert s[k..k + |pat|][j] == s[k + j];
    }
  }

  /** Text in which `pat` never occurs comes back unchanged. */
  lemma {:induction false} ReplaceAllWithoutOccurrence(s: string, pat: string, rep: string)
    requires pat != ""
    requires !Occurs(s, pat)
    ensures ReplaceAll(s, pat, rep) == s
    decreases |s|
  {
    if |s| >= |pat| {
      assert !OccursAt(s, pat, 0);
      assert !Occurs(s[1..], pat) by {
        forall k ensures !OccursAt(s[1..], pat, k) {
          if OccursAt(s[1..], pat, k) {
            assert s[1..][k..k + |pat|] == s[k + 1..k + 1 + |pat|];
            assert OccursAt(s, pat, k + 1);
          }
        }
      }
      ReplaceAllWithoutOccurrence(s[1..], pat, rep);
      assert s == [s[0]] + s[1..];
    }
  }

  /** A prefix that does not contain the first character of `pat` is copied through. */
  lemma {:induction false} ReplaceAllSkips(x: string, y: string, pat: string, rep: string)
    requires pat != ""
    requires Lacks(x, pat[0])
    ensures ReplaceAll(x + y, pat, rep) == x + ReplaceAll(y, pat, rep)
    decreases |x|
  {
    if x == [] {
      assert x + y == y;
    } else {
      var s := x + y;
      if |s| < |pat| {
        assert ReplaceAll(y, pat, rep) == y;
      } else {
        assert s[..|pat|][0] == x[0] != pat[0];
        assert s[1..] == x[1..] + y;
        ReplaceAllSkips(x[1..], y, pat, rep);
        calc {
          ReplaceAll(s, pat, rep);
          [x[0]] + ReplaceAll(x[1..] + y, pat, rep);
          [x[0]] + (x[1..] + ReplaceAll(y, pat, rep));
          { assert x == [x[0]] + x[1..]; }
          x + ReplaceAll(y, pat, rep);
        }
      }
    }
  }

  /** A match at the front is replaced and the scan goes on after it. */
  lemma ReplaceAllAtFront(y: string, pat: string, rep: string)
    requires pat != ""
    ensures ReplaceAll(pat + y, pat, rep) == rep + ReplaceAll(y, pat, rep)
  {
    assert (pat + y)[..|pat|] == pat;
    assert (pat + y)[|pat|..] == y;
  }

  /** Replacing a pattern by itself changes nothing. */
  lemma {:induction false} ReplaceAllBySelf(s: string, pat: string)
    requires pat != ""
    ensures ReplaceAll(s, pat, pat) == s
    decreases |s|
  {
    if |s| >= |pat| {
      if s[..|pat|] == pat {
        ReplaceAllBySelf(s[|pat|..], pat);
        assert s == s[..|pat|] + s[|pat|..];
      } else {
        ReplaceAllBySelf(s[1..], pat);
        assert s == [s[0]] + s[1..];
      }
    }
  }

  /** A replacement string without `$` is inserted as it is. */
  lemma {:induction false} ExpandWithoutDollar(rep: string, matched: string, before: string, after: string)
    requires Lacks(rep, '$')
    ensures Expand(rep, matched, before, after) == rep
    decreases |rep|
  {
    if rep != [] {
      ExpandWithoutDollar(rep[1..], matched, before, after);
      assert rep == [rep[0]] + rep[1..];
    }
  }

  /** Without `$` in the replacement, JavaScript's replace and `ReplaceAll` agree. */
  lemma {:induction false} ScanAsWrittenAgrees(s: string, pat: string, rep: string, i: nat)
    requires pat != "" && i <= |s|
    requires Lacks(rep, '$')
    ensures ScanAsWritten(s, pat, rep, i) == ReplaceAll(s[i..], pat, rep)
    decreases |s| - i
  {
    var t := s[i..];
    var n := |pat|;
    if |s| - i < n {
      assert |t| < n;
    } else if s[i..i + n] == pat {
      assert t[..n] == pat && t[n..] == s[i + n..];
      assert ReplaceAll(t, pat, rep) == rep + ReplaceAll(s[i + n..], pat, rep);
      ExpandWithoutDollar(rep, pat, s[..i], s[i + n..]);
      ScanAsWrittenAgrees(s, pat, rep, i + n);
    } else {
      assert t[..n] == s[i..i + n];
      assert t[0] == s[i] && t[1..] == s[i + 1..];
      assert ReplaceAll(t, pat, rep) == [s[i]] + ReplaceAll(s[i + 1..], pat, rep);
      ScanAsWrittenAgrees(s, pat, rep, i + 1);
    }
  }

  /** The JavaScript scan copies through a stretch without the pattern's first character. */
  lemma {:induction false} ScanAsWrittenSkips(s: string, pat: string, rep: string, i: nat, j: nat)
    requires pat != "" && i <= j <= |s|
    requires forall k :: i <= k < j ==> s[k] != pat[0]
    ensures ScanAsWritten(s, pat, rep, i) == s[i..j] + ScanAsWritten(s, pat, rep, j)
    decreases j - i
  {
    if i < j {
      ScanStep(s, pat, rep, i);
      ScanAsWrittenSkips(s, pat, rep, i + 1, j);
      assert s[i..j] == [s[i]] + s[i + 1..j];
    } else {
      assert s[i..j] == [];
    }
  }

  /** At a character that cannot start a match, the scan copies it and moves on. */
  lemma ScanStep(s: string, pat: string, rep: string, i: nat)
    requires pat != "" && i < |s| && s[i] != pat[0]
    ensures ScanAsWritten(s, pat, rep, i) == [s[i]] + ScanAsWritten(s, pat, rep, i + 1)
  {
    if |s| - i >= |pat| {
      assert s[i..i + |pat|][0] == s[i];
    }
  }

  lemma ReplaceAllAsWrittenAgrees(s: string, pat: string, rep: string)
    requires pat != ""
    requires Lacks(rep, '$')
    ensures ReplaceAllAsWritten(s, pat, rep) == ReplaceAll(s, pat, rep)
  {
    ScanAsWrittenAgrees(s, pat, rep, 0);
    assert s[0..] == s;
  }

  /**
   * The discrepancy: a replacement containing `$&` re-inserts the matched
   * placeholder instead of the literal text.
   */
  lemma DollarAmpersandReinsertsMatch()
    ensures ReplaceAllAsWritten("{x}", "{x}", "A$&B") == "A{x}B"
    ensures ReplaceAll("{x}", "{x}", "A$&B") == "A$&B"
  {
    var s, pat, rep := "{x}", "{x}", "A$&B";
    assert s[0..3] == pat;
    assert Expand(rep[3..], pat, "", "") == "B";
    assert Expand(rep[1..], pat, "", "") == "{x}B";
    assert ScanAsWritten(s, pat, rep, 3) == "";
    assert ScanAsWritten(s, pat, rep, 0) == "A{x}B";
    assert s[..3] == pat && s[3..] == "";
  }
}
