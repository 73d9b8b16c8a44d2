/** The Python string operations the controller uses, on `seq<char>`. */
module Text {

  predicate StartsWith(s: string, prefix: string) {
    |prefix| <= |s| && s[..|prefix|] == prefix
  }

  predicate EndsWith(s: string, suffix: string) {
    |suffix| <= |s| && s[|s| - |suffix|..] == suffix
  }

  /** `s.replace(from, to)` for one-character arguments. */
  function ReplaceChar(s: string, from: char, to: char): (r: string)
    ensures |r| == |s|
    ensures forall i :: 0 <= i < |s| ==> r[i] == if s[i] == from then to else s[i]
  {
    if s == [] then [] else [if s[0] == from then to else s[0]] + ReplaceChar(s[1..], from, to)
  }

  lemma ReplaceCharConcat(a: string, b: string, from: char, to: char)
    ensures ReplaceChar(a + b, from, to) == ReplaceChar(a, from, to) + ReplaceChar(b, from, to)
  {
  }

  /** `pat` occurs in `s` starting at index `i`. */
  predicate OccursAt(s: string, pat: string, i: int) {
    0 <= i && i + |pat| <= |s| && s[i..i + |pat|] == pat
  }

  predicate Occurs(s: string, pat: string) {
    exists i :: 0 <= i <= |s| && OccursAt(s, pat, i)
  }

  /** Where `pat` does not start `s`, it occurs in `s` exactly when it occurs after the first character. */
  lemma OccursTail(s: string, pat: string)
    requires s != [] && !OccursAt(s, pat, 0)
    ensures Occurs(s, pat) <==> Occurs(s[1..], pat)
  {
    forall i | OccursAt(s[1..], pat, i)
      ensures OccursAt(s, pat, i + 1)
    {
      assert s[1..][i..i + |pat|] == s[i + 1..i + 1 + |pat|];
    }
    forall i | OccursAt(s, pat, i)
      ensures OccursAt(s[1..], pat, i - 1)
    {
      assert s[1..][i - 1..i - 1 + |pat|] == s[i..i + |pat|];
    }
  }

  /** `s.replace(pat, '')`: every occurrence of `pat`, scanned left to right without overlap, is
      deleted. Text without an occurrence comes back unchanged; text with one gets shorter. */
  function RemoveAll(s: string, pat: string): (r: string)
    requires pat != []
    ensures |r| <= |s|
    ensures !Occurs(s, pat) ==> r == s
    ensures Occurs(s, pat) ==> |r| < |s|
    decreases |s|
  {
    if |s| < |pat| then s
    else if s[..|pat|] == pat then
      assert OccursAt(s, pat, 0);
      RemoveAll(s[|pat|..], pat)
    else
      OccursTail(s, pat);
      assert s == [s[0]] + s[1..];
      [s[0]] + RemoveAll(s[1..], pat)
  }

  /** `n` copies of `c`. */
  function Repeat(c: char, n: nat): (r: string)
    ensures |r| == n && forall i :: 0 <= i < n ==> r[i] == c
  {
    seq(n, _ => c)
  }

  /** `s.lstrip(c)` */
  function LStrip(s: string, c: char): (r: string)
    ensures r == [] || r[0] != c
    ensures |r| <= |s| && s == Repeat(c, |s| - |r|) + r
    ensures EndsWith(s, r)
  {
    if s != [] && s[0] == c then
      var r := LStrip(s[1..], c);
      assert s == [c] + s[1..];
      assert [c] + Repeat(c, |s| - 1 - |r|) == Repeat(c, |s| - |r|);
      r
    else
      assert Repeat(c, 0) == [];
      s
  }

  /** `s.rstrip(c)` */
  function RStrip(s: string, c: char): (r: string)
    ensures r == [] || r[|r| - 1] != c
    ensures |r| <= |s| && s == r + Repeat(c, |s| - |r|)
    ensures StartsWith(s, r)
  {
    if s != [] && s[|s| - 1] == c then
      var r := RStrip(s[..|s| - 1], c);
      assert s == s[..|s| - 1] + [c];
      assert Repeat(c, |s| - 1 - |r|) + [c] == Repeat(c, |s| - |r|);
      r
    else
      assert Repeat(c, 0) == [];
      s
  }

  /** The text after the last `/` of `s` (all of `s` when it has none). */
  function LastSegment(s: string): (r: string)
    ensures EndsWith(s, r) && '/' !in r
  {
    if s == [] || s[|s| - 1] == '/' then [] else LastSegment(s[..|s| - 1]) + [s[|s| - 1]]
  }

  lemma {:induction false} LastSegmentAfterSlash(p: string, t: string)
    requires '/' !in t
    ensures LastSegment(p + "/" + t) == t
    decreases |t|
  {
    var s := p + "/" + t;
    if t == [] {
      assert s[|s| - 1] == '/';
    } else {
      assert s[..|s| - 1] == p + "/" + t[..|t| - 1];
      LastSegmentAfterSlash(p, t[..|t| - 1]);
      assert t == t[..|t| - 1] + [t[|t| - 1]];
    }
  }

  /** A pattern character that never occurs in `s` keeps `pat` from occurring: nothing is removed. */
  lemma {:induction false} RemoveAllAbsent(s: string, pat: string, c: char)
    requires pat != [] && c in pat && c !in s
    ensures RemoveAll(s, pat) == s
    decreases |s|
  {
    if |s| >= |pat| {
      var i :| 0 <= i < |pat| && pat[i] == c;
      assert s[..|pat|][i] == s[i];
      assert s[..|pat|] != pat;
      assert c !in s[1..] by { assert forall j :: 0 <= j < |s[1..]| ==> s[1..][j] == s[j + 1]; }
      RemoveAllAbsent(s[1..], pat, c);
      assert s == [s[0]] + s[1..];
    }
  }

  /** A leading occurrence of `pat` is removed and scanning resumes right after it. */
  lemma RemoveAllLeading(pat: string, s: string)
    requires pat != []
    ensures RemoveAll(pat + s, pat) == RemoveAll(s, pat)
  {
    assert (pat + s)[..|pat|] == pat;
    assert (pat + s)[|pat|..] == s;
  }

  /** Where `pat` does not start, the first character is kept and scanning resumes after it. */
  lemma RemoveAllNoMatch(s: string, pat: string)
    requires pat != [] && s != [] && !StartsWith(s, pat)
    ensures RemoveAll(s, pat) == [s[0]] + RemoveAll(s[1..], pat)
  {
  }

  /** A leading character that cannot start `pat` is kept and scanning resumes after it. */
  lemma RemoveAllKeeps(c: char, s: string, pat: string)
    requires pat != [] && c != pat[0]
    ensures RemoveAll([c] + s, pat) == [c] + RemoveAll(s, pat)
  {
    var t := [c] + s;
    assert t[1..] == s;
    if |t| < |pat| {
      assert RemoveAll(s, pat) == s;
    } else {
      assert t[..|pat|][0] == c;
    }
  }
}
