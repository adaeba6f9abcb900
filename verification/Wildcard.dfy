/** wildcardMatch (src/Utilities.cpp) and the language of a pattern. */
module Wildcard {
  import opened Text

  /** toupper in the C locale. */
  function Upper(c: char): char {
    if 'a' <= c <= 'z' then ((c as int) - 32) as char else c
  }

  /** The strings one pattern character stands for. */
  predicate Covers(p: char, piece: string) {
    if p == '*' then true
    else if p == '?' then |piece| == 1
    else |piece| == 1 && Upper(piece[0]) == Upper(p)
  }

  ghost predicate CoversAll(pattern: string, pieces: seq<string>) {
    |pieces| == |pattern| && forall i :: 0 <= i < |pattern| ==> Covers(pattern[i], pieces[i])
  }

  /** s is a concatenation of strings its pattern characters stand for, in order. */
  ghost predicate InLanguage(pattern: string, s: string) {
    exists pieces :: CoversAll(pattern, pieces) && Concat(pieces) == s
  }

  /** The decision the matcher makes. */
  predicate Matches(s: string, pattern: string)
    decreases |pattern|, |s|
  {
    if pattern == "" then s == ""
    else if pattern[0] == '*' then
      Matches(s, pattern[1..]) || (s != "" && Matches(s[1..], pattern))
    else
      s != "" && Covers(pattern[0], s[..1]) && Matches(s[1..], pattern[1..])
  }

  lemma {:induction false} MatchesIsSound(s: string, pattern: string)
    requires Matches(s, pattern)
    ensures InLanguage(pattern, s)
    decreases |pattern|, |s|
  {
    if pattern == "" {
      assert CoversAll(pattern, []) && Concat([]) == s;
    } else if pattern[0] == '*' {
      if Matches(s, pattern[1..]) {
        MatchesIsSound(s, pattern[1..]);
        var rest :| CoversAll(pattern[1..], rest) && Concat(rest) == s;
        Prepend(pattern, "", rest);
      } else {
        MatchesIsSound(s[1..], pattern);
        var pieces :| CoversAll(pattern, pieces) && Concat(pieces) == s[1..];
        Prepend(pattern, s[..1] + pieces[0], pieces[1..]);
        assert s == s[..1] + pieces[0] + Concat(pieces[1..]);
      }
    } else {
      MatchesIsSound(s[1..], pattern[1..]);
      var rest :| CoversAll(pattern[1..], rest) && Concat(rest) == s[1..];
      Prepend(pattern, s[..1], rest);
      assert s == s[..1] + s[1..];
    }
  }

  lemma {:induction false} Prepend(pattern: string, piece: string, rest: seq<string>)
    requires pattern != "" && Covers(pattern[0], piece) && CoversAll(pattern[1..], rest)
    ensures InLanguage(pattern, piece + Concat(rest))
  {
    var pieces := [piece] + rest;
    assert forall i :: 0 < i < |pattern| ==> pattern[i] == pattern[1..][i - 1] && pieces[i] == rest[i - 1];
    assert pieces[1..] == rest;
    assert CoversAll(pattern, pieces) && Concat(pieces) == piece + Concat(rest);
  }

  lemma {:induction false} MatchesIsComplete(pattern: string, pieces: seq<string>)
    requires CoversAll(pattern, pieces)
    ensures Matches(Concat(pieces), pattern)
    decreases |pattern|, |Concat(pieces)|
  {
    if pattern != "" {
      var rest := pieces[1..];
      assert CoversAll(pattern[1..], rest);
      var s := Concat(pieces);
      if pattern[0] == '*' {
        if pieces[0] == "" {
          MatchesIsComplete(pattern[1..], rest);
          assert "" + Concat(rest) == Concat(rest);
        } else {
          var shorter := [pieces[0][1..]] + rest;
          assert shorter[1..] == rest;
          assert s[1..] == Concat(shorter);
          MatchesIsComplete(pattern, shorter);
        }
      } else {
        MatchesIsComplete(pattern[1..], rest);
        assert s[..1] == pieces[0] && s[1..] == Concat(rest);
      }
    }
  }

  /** The matcher decides the language of the pattern. */
  lemma {:induction false} MatchesExactly(s: string, pattern: string)
    ensures Matches(s, pattern) <==> InLanguage(pattern, s)
  {
    if Matches(s, pattern) {
      MatchesIsSound(s, pattern);
    }
    if pieces :| CoversAll(pattern, pieces) && Concat(pieces) == s {
      MatchesIsComplete(pattern, pieces);
    }
  }

  /** A pattern without wildcards matches its own text and nothing else, in any case. */
  lemma {:induction false} PlainPattern(s: string, pattern: string)
    requires Free(pattern, '*') && Free(pattern, '?')
    ensures Matches(s, pattern) <==>
              |s| == |pattern| && forall i :: 0 <= i < |s| ==> LowerChar(s[i]) == LowerChar(pattern[i])
    decreases |pattern|
  {
    if pattern != "" && s != "" {
      PlainPattern(s[1..], pattern[1..]);
      SameCase(s[0], pattern[0]);
      if |s| == |pattern| && forall i :: 0 <= i < |s[1..]| ==> LowerChar(s[1..][i]) == LowerChar(pattern[1..][i]) {
        assert forall i :: 0 < i < |s| ==> s[i] == s[1..][i - 1] && pattern[i] == pattern[1..][i - 1];
      }
    }
  }

  lemma {:induction false} SameCase(a: char, b: char)
    ensures Upper(a) == Upper(b) <==> LowerChar(a) == LowerChar(b)
  {
  }

  /** As many question marks match just any text of that length. */
  lemma {:induction false} QuestionMarks(s: string, pattern: string)
    requires forall i :: 0 <= i < |pattern| ==> pattern[i] == '?'
    ensures Matches(s, pattern) <==> |s| == |pattern|
    decreases |pattern|
  {
    if pattern != "" && s != "" {
      QuestionMarks(s[1..], pattern[1..]);
    }
  }

  /** A star behind a pattern lets it match a beginning, one before it an end. */
  lemma {:induction false} Stars(s: string, pattern: string)
    ensures Matches(s, pattern + "*") <==> exists i :: 0 <= i <= |s| && Matches(s[..i], pattern)
    ensures Matches(s, "*" + pattern) <==> exists i :: 0 <= i <= |s| && Matches(s[i..], pattern)
  {
    StarBehind(s, pattern);
    StarBefore(s, pattern);
  }

  lemma {:induction false} StarBefore(s: string, pattern: string)
    ensures Matches(s, "*" + pattern) <==> exists i :: 0 <= i <= |s| && Matches(s[i..], pattern)
    decreases |s|
  {
    var p := "*" + pattern;
    assert p[1..] == pattern && s[0..] == s;
    if s != "" {
      StarBefore(s[1..], pattern);
      if i :| 0 <= i <= |s[1..]| && Matches(s[1..][i..], pattern) {
        assert s[1..][i..] == s[i + 1..];
      }
      if i :| 0 < i <= |s| && Matches(s[i..], pattern) {
        assert s[i..] == s[1..][i - 1..];
      }
    }
  }

  lemma {:induction false} StarAlone(s: string)
    ensures Matches(s, "*")
    decreases |s|
  {
    assert "*"[1..] == "";
    if s != "" {
      StarAlone(s[1..]);
    }
  }

  lemma {:induction false} StarBehind(s: string, pattern: string)
    ensures Matches(s, pattern + "*") <==> exists i :: 0 <= i <= |s| && Matches(s[..i], pattern)
  {
    if i :| 0 <= i <= |s| && Matches(s[..i], pattern) {
      MatchesIsSound(s[..i], pattern);
      var pieces :| CoversAll(pattern, pieces) && Concat(pieces) == s[..i];
      assert CoversAll(pattern + "*", pieces + [s[i..]]);
      ConcatLast(pieces + [s[i..]]);
      assert Front(pieces + [s[i..]]) == pieces && s[..i] + s[i..] == s;
      MatchesIsComplete(pattern + "*", pieces + [s[i..]]);
    }
    if Matches(s, pattern + "*") {
      MatchesIsSound(s, pattern + "*");
      var pieces :| CoversAll(pattern + "*", pieces) && Concat(pieces) == s;
      var front := Front(pieces);
      assert CoversAll(pattern, front) by {
        assert forall i :: 0 <= i < |pattern| ==> (pattern + "*")[i] == pattern[i];
      }
      ConcatLast(pieces);
      MatchesIsComplete(pattern, front);
      assert s[..|Concat(front)|] == Concat(front);
    }
  }

  /** std::string's operator[]: the position after the last character holds the terminator. */
  function At(s: string, i: nat): char
    requires i <= |s|
  {
    if i < |s| then s[i] else '\0'
  }

  /**
   The source's matcher. The pattern holds no NUL, which is what keeps the comparison
   with the terminator from succeeding and the index from passing it.
   */
  method WildcardMatch(s: string, pattern: string, sOffset: nat, pOffset: nat) returns (r: bool)
    requires Free(pattern, '\0') && sOffset <= |s| && pOffset <= |pattern|
    ensures r <==> InLanguage(pattern[pOffset..], s[sOffset..])
    decreases |pattern| - pOffset, |s| - sOffset
  {
    var i, j := sOffset, pOffset;
    MatchesExactly(s[i..], pattern[j..]);
    while j < |pattern|
      invariant sOffset <= i <= |s| && pOffset <= j <= |pattern|
      invariant Matches(s[i..], pattern[j..]) <==> InLanguage(pattern[pOffset..], s[sOffset..])
      decreases |pattern| - j
    {
      Unfold(s, i, pattern, j);
      if pattern[j] == '?' {
        if i >= |s| {
          return false;
        }
        i, j := i + 1, j + 1;
      } else if pattern[j] == '*' {
        MatchesExactly(s[i..], pattern[j + 1..]);
        var skip := WildcardMatch(s, pattern, i, j + 1);
        if skip {
          return true;
        }
        if i < |s| {
          MatchesExactly(s[i + 1..], pattern[j..]);
          var take := WildcardMatch(s, pattern, i + 1, j);
          if take {
            return true;
          }
        }
        return false;
      } else {
        if Upper(At(s, i)) != Upper(pattern[j]) {
          return false;
        }
        i, j := i + 1, j + 1;
      }
    }
    return i >= |s| && j >= |pattern|;
  }

  lemma {:induction false} Unfold(s: string, i: nat, pattern: string, j: nat)
    requires i <= |s| && j < |pattern|
    ensures Matches(s[i..], pattern[j..]) <==>
              if pattern[j] == '*' then
                Matches(s[i..], pattern[j + 1..]) || (i < |s| && Matches(s[i + 1..], pattern[j..]))
              else
                i < |s| && Covers(pattern[j], [s[i]]) && Matches(s[i + 1..], pattern[j + 1..])
  {
    assert pattern[j..][1..] == pattern[j + 1..];
    if i < |s| {
      assert s[i..][1..] == s[i + 1..] && s[i..][..1] == [s[i]];
    }
  }
}
