/** Result types and the few string operations that several components share. */
module Common {
  datatype Option<+T> = None | Some(value: T)

  datatype Result<+T> = Ok(value: T) | Err(error: string)

  /** Readings of the clock are integers in nanoseconds. */
  const SECOND := 1_000_000_000

  /** ASCII case folding; folding of other letters is not part of this model. */
  function Lower(c: char): char {
    if 'A' <= c <= 'Z' then ((c as int) + 32) as char else c
  }

  predicate EqualFold(a: string, b: string) {
    |a| == |b| && forall i :: 0 <= i < |a| ==> Lower(a[i]) == Lower(b[i])
  }

  /** Equal under folding means equal but for the case of letters. */
  lemma FoldsCaseOnly(a: string, b: string)
    ensures EqualFold(a, b) <==>
      |a| == |b| && forall i :: 0 <= i < |a| ==>
        a[i] == b[i] || ('A' <= a[i] <= 'Z' && b[i] as int == a[i] as int + 32) || ('A' <= b[i] <= 'Z' && a[i] as int == b[i] as int + 32)
  {
  }

  /** `pat` stands in `s` at position `i`. */
  predicate StandsAt(s: string, pat: string, i: int) {
    0 <= i && i + |pat| <= |s| && s[i..i + |pat|] == pat
  }

  /** The first position at or after `from` where `pat` stands in `s`, or -1. */
  function IndexFrom(s: string, pat: string, from: nat): (i: int)
    requires from <= |s|
    ensures i == -1 || (from <= i && StandsAt(s, pat, i))
    ensures forall j :: from <= j && (i == -1 || j < i) ==> !StandsAt(s, pat, j)
    decreases |s| - from
  {
    if StandsAt(s, pat, from) then from
    else if from == |s| then -1
    else IndexFrom(s, pat, from + 1)
  }

  function Index(s: string, pat: string): int {
    IndexFrom(s, pat, 0)
  }

  lemma {:induction false} StandsWithItsFirst(s: string, pat: string)
    requires pat != ""
    ensures forall j :: StandsAt(s, pat, j) ==> s[j] == pat[0]
  {
    forall j | StandsAt(s, pat, j) ensures s[j] == pat[0] {
      assert s[j..j + |pat|][0] == s[j];
    }
  }

  lemma {:induction false} IndexOfFirst(s: string, pat: string, i: nat)
    requires pat != "" && StandsAt(s, pat, i) && pat[0] !in s[..i]
    ensures Index(s, pat) == i
  {
    StandsWithItsFirst(s, pat);
    forall j | 0 <= j < i ensures !StandsAt(s, pat, j) {
      assert s[j] == s[..i][j];
    }
  }

  lemma {:induction false} IndexOfAbsent(s: string, c: char)
    requires c !in s
    ensures Index(s, [c]) == -1
  {
    StandsWithItsFirst(s, [c]);
  }

  /** The last position of `c` in `s`, or -1. */
  function LastIndex(s: string, c: char): (i: int)
    ensures -1 <= i < |s|
    ensures i >= 0 ==> s[i] == c
    ensures forall j :: i < j < |s| ==> s[j] != c
  {
    if s == "" then -1
    else if s[|s| - 1] == c then |s| - 1
    else LastIndex(s[..|s| - 1], c)
  }

  /** The last position of an element for which `p` holds, or -1. */
  function LastWhere<T>(s: seq<T>, p: T -> bool): (i: int)
    ensures -1 <= i < |s|
    ensures i >= 0 ==> p(s[i])
    ensures forall j :: i < j < |s| ==> !p(s[j])
  {
    if s == [] then -1
    else if p(s[|s| - 1]) then |s| - 1
    else LastWhere(s[..|s| - 1], p)
  }
}
