/**
 * The few Python `str` operations the bot relies on: `lower`, `capitalize`,
 * slicing `s[:n]`, `replace(p, "")` and locating a substring.
 * Case mapping covers the ASCII letters; every other character is left alone.
 */
module PyStr {

  function LowerChar(c: char): char
  {
    if 'A' <= c <= 'Z' then (c as int + 32) as char else c
  }

  function UpperChar(c: char): char
  {
    if 'a' <= c <= 'z' then (c as int - 32) as char else c
  }

  /** `s.lower()` */
  function Lower(s: string): (r: string)
    ensures |r| == |s|
    ensures forall i :: 0 <= i < |s| ==> r[i] == LowerChar(s[i])
  {
    if s == [] then [] else [LowerChar(s[0])] + Lower(s[1..])
  }

  /** `s.capitalize()`: the first character upper-cased, all the others lower-cased. */
  function Capitalize(s: string): (r: string)
    ensures |r| == |s|
    ensures s != [] ==> r[0] == UpperChar(s[0])
    ensures forall i :: 0 < i < |s| ==> r[i] == LowerChar(s[i])
  {
    if s == [] then [] else [UpperChar(s[0])] + Lower(s[1..])
  }

  /** `s[:n]` for a non-negative `n`. */
  function Prefix(s: string, n: nat): (r: string)
    ensures |r| == if |s| <= n then |s| else n
    ensures r <= s
    ensures |s| <= n ==> r == s
  {
    if |s| <= n then s else s[..n]
  }

  /** Lower-casing the capitalised form gives the lower-cased form: the first letter's case is lost. */
  lemma LowerOfCapitalize(s: string)
    ensures Lower(Capitalize(s)) == Lower(s)
  {
  }

  /** `p` occurs in `s` starting at index `i`. */
  predicate OccursAt(s: string, p: string, i: nat)
  {
    i + |p| <= |s| && s[i..i + |p|] == p
  }

  predicate Occurs(s: string, p: string)
  {
    exists i: nat | i <= |s| :: OccursAt(s, p, i)
  }

  /**
   * `s.replace(p, "")`: scanning from the left, every occurrence of `p` that does
   * not overlap one already removed is deleted. An empty `p` leaves `s` as it is.
   */
  function RemoveAll(s: string, p: string): (r: string)
    ensures |r| <= |s|
    ensures |p| == 0 ==> r == s
    decreases |s|
  {
    if |p| == 0 || |s| < |p| then s
    else if s[..|p|] == p then RemoveAll(s[|p|..], p)
    else [s[0]] + RemoveAll(s[1..], p)
  }

  /**
   * The non-overlapping occurrences of `p`, leftmost first, that `replace(p, "")`
   * deletes. For a non-empty `p` this is Python's `s.count(p)`; for an empty one it is
   * 0, as nothing is deleted (Python's `count` would give `len(s) + 1`).
   */
  function CountOccurrences(s: string, p: string): (r: nat)
    ensures r > 0 ==> |p| > 0 && Occurs(s, p)
    decreases |s|
  {
    if |p| == 0 || |s| < |p| then 0
    else if s[..|p|] == p then
      assert OccursAt(s, p, 0);
      1 + CountOccurrences(s[|p|..], p)
    else
      OccursInSuffix(s, p, 1);
      CountOccurrences(s[1..], p)
  }

  /** An occurrence in a suffix is an occurrence in the whole text. */
  lemma OccursInSuffix(s: string, p: string, k: nat)
    requires k <= |s|
    ensures Occurs(s[k..], p) ==> Occurs(s, p)
  {
    if Occurs(s[k..], p) {
      var i: nat :| i <= |s[k..]| && OccursAt(s[k..], p, i);
      assert s[k..][i..i + |p|] == s[k + i..k + i + |p|];
      assert OccursAt(s, p, k + i);
    }
  }

  /** `a` can be obtained from `b` by deleting characters. */
  predicate IsSubsequence(a: string, b: string)
    decreases |b|
  {
    a == [] ||
    (b != [] && ((a[0] == b[0] && IsSubsequence(a[1..], b[1..])) || IsSubsequence(a, b[1..])))
  }

  lemma MulSucc(a: nat, c: nat)
    ensures a * (1 + c) == a + a * c && a * c >= 0
  {
  }

  /** Removing `p` deletes exactly `|p|` characters per occurrence that `str.count` reports. */
  lemma {:induction false} RemoveAllLength(s: string, p: string)
    ensures |RemoveAll(s, p)| == |s| - |p| * CountOccurrences(s, p)
    decreases |s|
  {
    if |p| == 0 || |s| < |p| {
    } else if s[..|p|] == p {
      var c := CountOccurrences(s[|p|..], p);
      RemoveAllLength(s[|p|..], p);
      MulSucc(|p|, c);
    } else {
      RemoveAllLength(s[1..], p);
    }
  }

  /** A pattern that does not occur leaves the text unchanged. */
  lemma {:induction false} RemoveAbsent(s: string, p: string)
    requires !Occurs(s, p)
    ensures RemoveAll(s, p) == s
    decreases |s|
  {
    if |p| == 0 || |s| < |p| {
    } else {
      assert !OccursAt(s, p, 0);
      assert s[..|p|] != p;
      forall i: nat | OccursAt(s[1..], p, i)
        ensures OccursAt(s, p, i + 1)
      {
        assert s[1..][i..i + |p|] == s[i + 1..i + 1 + |p|];
      }
      RemoveAbsent(s[1..], p);
    }
  }

  /** A non-empty pattern that occurs is counted at least once. */
  lemma {:induction false} OccursCounted(s: string, p: string)
    requires |p| > 0 && Occurs(s, p)
    ensures CountOccurrences(s, p) >= 1
    decreases |s|
  {
    var i: nat :| i <= |s| && OccursAt(s, p, i);
    assert |s| >= |p| && i + |p| <= |s|;
    if s[..|p|] != p {
      assert i != 0;
      assert s[1..][i - 1..i - 1 + |p|] == s[i..i + |p|];
      assert OccursAt(s[1..], p, i - 1);
      OccursCounted(s[1..], p);
    }
  }

  /** Removal changes the text exactly when the pattern is non-empty and occurs in it. */
  lemma RemoveAllUnchangedIff(s: string, p: string)
    ensures RemoveAll(s, p) == s <==> (|p| == 0 || !Occurs(s, p))
  {
    if |p| > 0 && Occurs(s, p) {
      var c := CountOccurrences(s, p);
      OccursCounted(s, p);
      RemoveAllLength(s, p);
      MulSucc(|p|, c - 1);
      assert |RemoveAll(s, p)| <= |s| - |p|;
    } else if |p| > 0 {
      RemoveAbsent(s, p);
    }
  }

  lemma {:induction false} SubsequenceReflexive(s: string)
    ensures IsSubsequence(s, s)
  {
    if s != [] {
      SubsequenceReflexive(s[1..]);
    }
  }

  lemma {:induction false} SubsequenceOfSuffix(a: string, b: string, k: nat)
    requires k <= |b| && IsSubsequence(a, b[k..])
    ensures IsSubsequence(a, b)
    decreases k
  {
    if k > 0 {
      assert b[1..][k - 1..] == b[k..];
      SubsequenceOfSuffix(a, b[1..], k - 1);
    }
  }

  lemma {:induction false} SubsequenceTransitive(a: string, b: string, c: string)
    requires IsSubsequence(a, b) && IsSubsequence(b, c)
    ensures IsSubsequence(a, c)
    decreases |c|
  {
    if a == [] {
    } else if IsSubsequence(b, c[1..]) {
      SubsequenceTransitive(a, b, c[1..]);
    } else {
      // b[0] == c[0] and b[1..] is a subsequence of c[1..]
      if a[0] == b[0] && IsSubsequence(a[1..], b[1..]) {
        SubsequenceTransitive(a[1..], b[1..], c[1..]);
      } else {
        SubsequenceTransitive(a, b[1..], c[1..]);
      }
    }
  }

  /** Removal only deletes characters: the result is a subsequence of the input. */
  lemma {:induction false} RemoveAllSubsequence(s: string, p: string)
    ensures IsSubsequence(RemoveAll(s, p), s)
    decreases |s|
  {
    if |p| == 0 || |s| < |p| {
      SubsequenceReflexive(s);
    } else if s[..|p|] == p {
      RemoveAllSubsequence(s[|p|..], p);
      SubsequenceOfSuffix(RemoveAll(s[|p|..], p), s, |p|);
    } else {
      RemoveAllSubsequence(s[1..], p);
      var r := RemoveAll(s[1..], p);
      assert ([s[0]] + r)[1..] == r;
    }
  }
}
