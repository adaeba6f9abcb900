/** Splitting and joining text: the parts of std::string and boost::algorithm the gateway uses. */
module Text {

  /** What either side of the gateway buffers of an unfinished line before it closes the connection. */
  const LIMIT := 32768

  /** tolower in the C locale. */
  function LowerChar(c: char): char {
    if 'A' <= c <= 'Z' then ((c as int) + 32) as char else c
  }

  predicate Free(s: string, c: char) {
    forall i :: 0 <= i < |s| ==> s[i] != c
  }

  /** Where c first occurs, or the length when it does not. */
  function IndexOf(s: string, c: char): (i: nat)
    ensures i <= |s| && Free(s[..i], c) && (i < |s| ==> s[i] == c)
  {
    if s == "" || s[0] == c then 0
    else
      var i := IndexOf(s[1..], c) + 1;
      assert s[..i] == [s[0]] + s[1..][..i - 1];
      i
  }

  /** boost::split on one character, without compressing tokens: the pieces between occurrences of c. */
  function Split(s: string, c: char): (parts: seq<string>)
    ensures parts != []
    decreases |s|
  {
    var i := IndexOf(s, c);
    if i == |s| then [s] else [s[..i]] + Split(s[i + 1..], c)
  }

  /** boost::join. */
  function Join(parts: seq<string>, c: char): string
    requires parts != []
  {
    if |parts| == 1 then parts[0] else parts[0] + [c] + Join(parts[1..], c)
  }

  function Concat(parts: seq<string>): string {
    if parts == [] then "" else parts[0] + Concat(parts[1..])
  }

  ghost predicate AllFree(parts: seq<string>, c: char) {
    forall i :: 0 <= i < |parts| ==> Free(parts[i], c)
  }

  lemma {:induction false} IndexOfFirst(a: string, b: string, c: char)
    requires Free(a, c)
    ensures IndexOf(a + [c] + b, c) == |a|
    ensures IndexOf(a, c) == |a|
  {
    var s := a + [c] + b;
    var i := IndexOf(s, c);
    assert s[|a|] == c;
    assert forall k :: 0 <= k < |a| ==> s[k] == a[k];
    assert forall k :: 0 <= k < i ==> s[..i][k] == s[k];
  }

  /** The first piece ends at the first separator. */
  lemma {:induction false} SplitFirst(a: string, b: string, c: char)
    requires Free(a, c)
    ensures Split(a + [c] + b, c) == [a] + Split(b, c)
    ensures Split(a, c) == [a]
  {
    IndexOfFirst(a, b, c);
    var s := a + [c] + b;
    assert s[..|a|] == a && s[|a| + 1..] == b;
  }

  lemma {:induction false} SplitPieces(s: string, c: char)
    ensures AllFree(Split(s, c), c)
    ensures Join(Split(s, c), c) == s
    decreases |s|
  {
    var i := IndexOf(s, c);
    if i < |s| {
      SplitPieces(s[i + 1..], c);
      assert s == s[..i] + [c] + s[i + 1..];
    } else {
      assert s[..i] == s;
    }
  }

  /** Splitting undoes joining pieces that do not contain the separator. */
  lemma {:induction false} SplitJoin(parts: seq<string>, c: char)
    requires parts != [] && AllFree(parts, c)
    ensures Split(Join(parts, c), c) == parts
  {
    if |parts| == 1 {
      SplitFirst(parts[0], "", c);
    } else {
      SplitJoin(parts[1..], c);
      SplitFirst(parts[0], Join(parts[1..], c), c);
    }
  }

  function Last(parts: seq<string>): string
    requires parts != []
  {
    parts[|parts| - 1]
  }

  function Front(parts: seq<string>): seq<string>
    requires parts != []
  {
    parts[..|parts| - 1]
  }

  lemma {:induction false} ConcatStep(x: string, parts: seq<string>, tail: seq<string>)
    requires parts != []
    ensures [x] + (Front(parts) + tail) == Front([x] + parts) + tail
    ensures Last([x] + parts) == Last(parts)
  {
  }

  /** Splitting a concatenation: all pieces of the first part but its last, which goes on into the second. */
  lemma {:induction false} SplitConcat(a: string, b: string, c: char)
    ensures Split(a + b, c) == Front(Split(a, c)) + Split(Last(Split(a, c)) + b, c)
    decreases |a|
  {
    var i := IndexOf(a, c);
    if i == |a| {
      assert Split(a, c) == [a];
      assert [] + Split(a + b, c) == Split(a + b, c);
    } else {
      var x, rest := a[..i], a[i + 1..];
      var parts := Split(rest, c);
      assert Split(a, c) == [x] + parts;
      assert Split(a + b, c) == [x] + Split(rest + b, c) by {
        assert a + b == x + [c] + (rest + b);
        SplitFirst(x, rest + b, c);
      }
      SplitConcat(rest, b, c);
      ConcatStep(x, parts, Split(Last(parts) + b, c));
    }
  }

  /** erase_all of carriage returns and line feeds. */
  function Strip(s: string): (r: string)
    ensures Free(r, '\r') && Free(r, '\n')
  {
    if s == "" then ""
    else if s[0] == '\r' || s[0] == '\n' then Strip(s[1..])
    else [s[0]] + Strip(s[1..])
  }

  lemma {:induction false} Regroup(a: string, b: string, c: string)
    ensures a + b + c == a + (b + c)
  {
  }

  lemma {:induction false} StripConcat(a: string, b: string)
    ensures Strip(a + b) == Strip(a) + Strip(b)
  {
    if a == "" {
      assert a + b == b;
    } else {
      StripConcat(a[1..], b);
      assert (a + b)[1..] == a[1..] + b;
      Regroup([a[0]], Strip(a[1..]), Strip(b));
    }
  }

  lemma {:induction false} StripClean(s: string)
    requires Free(s, '\r') && Free(s, '\n')
    ensures Strip(s) == s
  {
    if s != "" {
      StripClean(s[1..]);
    }
  }

  lemma {:induction false} JoinFree(parts: seq<string>, sep: char, c: char)
    requires parts != [] && AllFree(parts, c) && c != sep
    ensures Free(Join(parts, sep), c)
  {
    if |parts| > 1 {
      JoinFree(parts[1..], sep, c);
    }
  }

  lemma {:induction false} SplitFree(s: string, sep: char, c: char)
    requires Free(s, c)
    ensures AllFree(Split(s, sep), c)
    decreases |s|
  {
    var i := IndexOf(s, sep);
    if i < |s| {
      SplitFree(s[i + 1..], sep, c);
    }
  }

  lemma {:induction false} ConcatLast(chunks: seq<string>)
    requires chunks != []
    ensures Concat(chunks) == Concat(Front(chunks)) + Last(chunks)
  {
    if |chunks| == 1 {
      assert chunks[1..] == [] && Front(chunks) == [];
      assert chunks[0] + "" == chunks[0];
    } else {
      ConcatLast(chunks[1..]);
      assert Front(chunks)[1..] == Front(chunks[1..]);
      Regroup(chunks[0], Concat(Front(chunks[1..])), Last(chunks));
    }
  }
}
