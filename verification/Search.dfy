/** std::string::find, and cutting a text at a delimiter. */
module Search {
  import opened Wrappers
  import opened Text

  predicate OccursAt(s: string, pat: string, i: int) {
    0 <= i <= |s| - |pat| && forall k :: 0 <= k < |pat| ==> s[i + k] == pat[k]
  }

  /** Whether the first n characters of a pattern stand at a position. */
  predicate Stands(s: string, pat: string, i: nat, n: nat)
    requires i + |pat| <= |s| && n <= |pat|
  {
    n == 0 || (Stands(s, pat, i, n - 1) && s[i + n - 1] == pat[n - 1])
  }

  lemma {:induction false} StandsIs(s: string, pat: string, i: nat, n: nat)
    requires i + |pat| <= |s| && n <= |pat|
    ensures Stands(s, pat, i, n) <==> forall k :: 0 <= k < n ==> s[i + k] == pat[k]
  {
    if n > 0 {
      StandsIs(s, pat, i, n - 1);
    }
  }

  /** The first occurrence at or after a position; None stands for npos. */
  function Find(s: string, pat: string, from: nat): (r: Option<nat>)
    ensures r.Some? ==> from <= r.value <= |s| - |pat|
    decreases |s| - from
  {
    if from + |pat| > |s| then None
    else if Stands(s, pat, from, |pat|) then Some(from)
    else Find(s, pat, from + 1)
  }

  /** One step of the search. */
  lemma {:induction false} FindStep(s: string, pat: string, from: nat)
    ensures Find(s, pat, from) ==
              if OccursAt(s, pat, from) then Some(from) else if from + |pat| > |s| then None else Find(s, pat, from + 1)
  {
    if from + |pat| <= |s| {
      StandsIs(s, pat, from, |pat|);
    }
  }

  lemma {:induction false} FindSpec(s: string, pat: string, from: nat)
    ensures var r := Find(s, pat, from);
            if r.Some? then OccursAt(s, pat, r.value) && forall j :: from <= j < r.value ==> !OccursAt(s, pat, j)
            else forall j :: from <= j ==> !OccursAt(s, pat, j)
    decreases |s| - from
  {
    FindStep(s, pat, from);
    if from + |pat| <= |s| && !OccursAt(s, pat, from) {
      FindSpec(s, pat, from + 1);
    }
  }

  ghost predicate Contains(s: string, pat: string) {
    exists i :: OccursAt(s, pat, i)
  }

  lemma {:induction false} FindIs(s: string, pat: string, from: nat, i: nat)
    requires from <= i && OccursAt(s, pat, i)
    requires forall j :: from <= j < i ==> !OccursAt(s, pat, j)
    ensures Find(s, pat, from) == Some(i)
  {
    FindSpec(s, pat, from);
  }

  /** An occurrence in the second part of a text, seen from the whole. */
  lemma {:induction false} OccursShift(a: string, b: string, pat: string, i: int)
    requires i >= 0
    ensures OccursAt(a + b, pat, |a| + i) <==> OccursAt(b, pat, i)
  {
    if i + |pat| <= |b| {
      assert (a + b)[|a| + i..|a| + i + |pat|] == b[i..i + |pat|];
    }
  }

  function Shift(r: Option<nat>, n: nat): Option<nat> {
    match r
    case None => None
    case Some(i) => Some(n + i)
  }

  /** Searching from a position in the second part is searching the second part. */
  lemma {:induction false} FindShift(a: string, b: string, pat: string, from: nat, at: nat)
    requires at == |a| + from
    ensures Find(a + b, pat, at) == Shift(Find(b, pat, from), |a|)
    decreases |b| - from
  {
    FindStep(a + b, pat, at);
    FindStep(b, pat, from);
    OccursShift(a, b, pat, from);
    if from + |pat| <= |b| {
      FindShift(a, b, pat, from + 1, at + 1);
    }
  }

  lemma {:induction false} FoundAt(a: string, b: string, pat: string, i: nat)
    requires Find(b, pat, 0) == Some(i)
    ensures Find(a + b, pat, |a|) == Some(|a| + i)
  {
    FindShift(a, b, pat, 0, |a|);
  }

  ghost predicate NoneIn(s: string, pat: string, from: nat, upto: nat) {
    forall j :: from <= j < upto ==> !OccursAt(s, pat, j)
  }

  /** A search goes on past positions where nothing is. */
  lemma {:induction false} FindLater(s: string, pat: string, from: nat, upto: nat)
    requires from <= upto && NoneIn(s, pat, from, upto)
    ensures Find(s, pat, from) == Find(s, pat, upto)
    decreases upto
  {
    if from < upto {
      FindStep(s, pat, upto - 1);
      FindLater(s, pat, from, upto - 1);
    }
  }

  /** Nothing is found in the first part, so the search goes on in the second. */
  lemma {:induction false} FindSkips(a: string, b: string, pat: string)
    requires NoneIn(a + b, pat, 0, |a|)
    ensures Find(a + b, pat, 0) == Shift(Find(b, pat, 0), |a|)
  {
    FindLater(a + b, pat, 0, |a|);
    FindShift(a, b, pat, 0, |a|);
  }

  /** Searching from a position is searching the text from there on. */
  lemma {:induction false} FindFrom(s: string, pat: string, from: nat)
    requires from <= |s|
    ensures Find(s, pat, from) == Shift(Find(s[from..], pat, 0), from)
  {
    assert s == s[..from] + s[from..];
    FindShift(s[..from], s[from..], pat, 0, from);
  }

  /** Where the pattern's first character is missing the pattern does not start. */
  lemma {:induction false} NoStart(s: string, pat: string, i: int)
    requires pat != "" && 0 <= i < |s| && s[i] != pat[0]
    ensures !OccursAt(s, pat, i)
  {
    if i + |pat| <= |s| {
      assert s[i..i + |pat|][0] == s[i];
    }
  }

  /** A single character is found where IndexOf finds it. */
  lemma {:induction false} FindChar(a: string, c: char, b: string)
    requires Free(a, c)
    ensures Find(a + [c] + b, [c], 0) == Some(|a|)
  {
    var s := a + [c] + b;
    assert s[|a|..|a| + 1] == [c];
    forall j | 0 <= j < |a|
      ensures !OccursAt(s, [c], j)
    {
      assert s[j] == a[j];
      NoStart(s, [c], j);
    }
    FindIs(s, [c], 0, |a|);
  }

  /** The pieces of a text between occurrences of a delimiter. */
  function SplitOn(s: string, pat: string): seq<string>
    requires pat != ""
    decreases |s|
  {
    match Find(s, pat, 0)
    case None => [s]
    case Some(i) => [s[..i]] + SplitOn(s[i + |pat|..], pat)
  }

  /** A delimiter that starts with a character it does not repeat cannot overlap itself. */
  predicate Sharp(pat: string) {
    pat != "" && Free(pat[1..], pat[0])
  }

  /** So the first piece of a text ends where the delimiter was put. */
  lemma {:induction false} SplitAtDelimiter(p: string, pat: string, rest: string)
    requires Sharp(pat) && !Contains(p, pat)
    ensures SplitOn(p + pat + rest, pat) == [p] + SplitOn(rest, pat)
  {
    var s := p + pat + rest;
    assert s[|p|..|p| + |pat|] == pat;
    forall j | 0 <= j < |p|
      ensures !OccursAt(s, pat, j)
    {
      NotBefore(p, pat, rest, j);
    }
    FindIs(s, pat, 0, |p|);
    assert s[..|p|] == p && s[|p| + |pat|..] == rest;
  }

  /** An occurrence that ends within the first part is one of the first part. */
  lemma {:induction false} OccursInFirst(p: string, rest: string, pat: string, j: nat)
    requires OccursAt(p + rest, pat, j) && j + |pat| <= |p|
    ensures Contains(p, pat)
  {
    assert (p + rest)[j..j + |pat|] == p[j..j + |pat|];
    assert OccursAt(p, pat, j);
  }

  /** An occurrence that reaches into a following copy of the pattern repeats its first character. */
  lemma {:induction false} OverlapRepeats(p: string, pat: string, rest: string, j: nat)
    requires pat != "" && OccursAt(p + pat + rest, pat, j) && j < |p| < j + |pat|
    ensures !Sharp(pat)
  {
    var s, k := p + pat + rest, |p| - j;
    assert s[|p|] == pat[0];
    assert s[j..j + |pat|][k] == s[|p|];
    assert pat[1..][k - 1] == pat[0];
  }

  lemma {:induction false} NotBefore(p: string, pat: string, rest: string, j: nat)
    requires Sharp(pat) && !Contains(p, pat) && j < |p|
    ensures !OccursAt(p + pat + rest, pat, j)
  {
    if OccursAt(p + pat + rest, pat, j) {
      if j + |pat| <= |p| {
        assert p + pat + rest == p + (pat + rest);
        OccursInFirst(p, pat + rest, pat, j);
      } else {
        OverlapRepeats(p, pat, rest, j);
      }
    }
  }

  /** The first piece holds no delimiter. */
  lemma {:induction false} FirstPieceHoldsNone(s: string, pat: string, i: nat)
    requires pat != "" && Find(s, pat, 0) == Some(i)
    ensures !Contains(s[..i], pat)
  {
    FindSpec(s, pat, 0);
    forall j | OccursAt(s[..i], pat, j)
      ensures OccursAt(s, pat, j)
    {
      assert s == s[..i] + s[i..];
    }
  }

  /** No piece holds the delimiter. */
  lemma {:induction false} SplitPiecesHoldNone(s: string, pat: string)
    requires pat != ""
    ensures forall i :: 0 <= i < |SplitOn(s, pat)| ==> !Contains(SplitOn(s, pat)[i], pat)
    decreases |s|
  {
    match Find(s, pat, 0)
    case None =>
      FindSpec(s, pat, 0);
    case Some(i) =>
      FirstPieceHoldsNone(s, pat, i);
      SplitPiecesHoldNone(s[i + |pat|..], pat);
  }

  lemma {:induction false} SplitWithout(s: string, pat: string)
    requires pat != "" && !Contains(s, pat)
    ensures SplitOn(s, pat) == [s]
  {
    FindSpec(s, pat, 0);
  }

  lemma {:induction false} OccursPrefix(s: string, pat: string, more: string, i: int)
    requires OccursAt(s, pat + more, i)
    ensures OccursAt(s, pat, i)
  {
    assert forall k :: 0 <= k < |pat| ==> (pat + more)[k] == pat[k];
  }

  /** What does not contain a pattern does not contain a longer one. */
  lemma {:induction false} ContainsLess(s: string, pat: string, more: string)
    requires !Contains(s, pat)
    ensures !Contains(s, pat + more)
  {
    forall i | OccursAt(s, pat + more, i)
      ensures OccursAt(s, pat, i)
    {
      OccursPrefix(s, pat, more, i);
    }
  }
}
