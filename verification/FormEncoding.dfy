/** urlEncode and generateWwwFormUrlencoded (src/HttpParser.cpp; sections 2.1 and 2.3 of RFC 3986). */
module FormEncoding {
  import opened Text

  /** A byte of a std::string. */
  type Byte = c: char | c as int < 256 witness 'a'

  type Bytes = seq<Byte>

  predicate Legit(c: char) {
    'A' <= c <= 'Z' || 'a' <= c <= 'z' || '0' <= c <= '9' || c in "_.-~:"
  }

  /** An upper-case hexadecimal digit. */
  function Hex(n: nat): char
    requires n < 16
  {
    "0123456789ABCDEF"[n]
  }

  function HexValue(c: char): int {
    if '0' <= c <= '9' then c as int - '0' as int
    else if 'A' <= c <= 'F' then c as int - 'A' as int + 10
    else 0
  }

  function EncodeByte(c: Byte): string {
    if Legit(c) then [c] else ['%', Hex(c as int / 16), Hex(c as int % 16)]
  }

  function UrlEncode(s: Bytes): string {
    if s == [] then "" else UrlEncode(s[..|s| - 1]) + EncodeByte(s[|s| - 1])
  }

  /** Percent-decoding; a value above 255 cannot come out of two digits. */
  function PercentDecode(s: string): string {
    if s == "" then ""
    else if s[0] == '%' && |s| >= 3 && 0 <= HexValue(s[1]) * 16 + HexValue(s[2]) < 256 then
      [(HexValue(s[1]) * 16 + HexValue(s[2])) as char] + PercentDecode(s[3..])
    else [s[0]] + PercentDecode(s[1..])
  }

  datatype Pair = Pair(name: Bytes, value: Bytes)

  function EncodePair(p: Pair): string {
    UrlEncode(p.name) + "=" + UrlEncode(p.value)
  }

  function EncodePairs(ps: seq<Pair>): seq<string> {
    if ps == [] then [] else EncodePairs(ps[..|ps| - 1]) + [EncodePair(ps[|ps| - 1])]
  }

  /** The pairs, each encoded, separated by '&'. */
  function FormEncode(ps: seq<Pair>): string {
    if ps == [] then ""
    else if |ps| == 1 then EncodePair(ps[0])
    else FormEncode(ps[..|ps| - 1]) + "&" + EncodePair(ps[|ps| - 1])
  }

  datatype Decoded = Decoded(name: string, value: string)

  function DecodePair(s: string): Decoded {
    var i := IndexOf(s, '=');
    Decoded(PercentDecode(s[..i]), PercentDecode(if i < |s| then s[i + 1..] else ""))
  }

  function DecodeAll(parts: seq<string>): seq<Decoded> {
    if parts == [] then [] else DecodeAll(Front(parts)) + [DecodePair(Last(parts))]
  }

  /** A form body read back: split on '&', each part on its first '=', and percent-decode. */
  function FormDecode(s: string): seq<Decoded> {
    if s == "" then [] else DecodeAll(Split(s, '&'))
  }

  // ----- Separators do not survive encoding -----

  predicate Separator(c: char) {
    c == '&' || c == '=' || c == '+' || c == ' '
  }

  lemma {:induction false} HexIsSafe(n: nat)
    requires n < 16
    ensures !Separator(Hex(n)) && Hex(n) != '%' && HexValue(Hex(n)) == n
  {
    var digits := "0123456789ABCDEF";
    assert digits[0] == '0' && digits[1] == '1' && digits[2] == '2' && digits[3] == '3';
    assert digits[4] == '4' && digits[5] == '5' && digits[6] == '6' && digits[7] == '7';
    assert digits[8] == '8' && digits[9] == '9' && digits[10] == 'A' && digits[11] == 'B';
    assert digits[12] == 'C' && digits[13] == 'D' && digits[14] == 'E' && digits[15] == 'F';
  }

  lemma {:induction false} EncodedIsSafe(s: Bytes, c: char)
    requires Separator(c)
    ensures Free(UrlEncode(s), c)
  {
    if s != [] {
      EncodedIsSafe(s[..|s| - 1], c);
      var b := s[|s| - 1];
      HexIsSafe(b as int / 16);
      HexIsSafe(b as int % 16);
    }
  }

  /** Decoding goes byte by byte. */
  lemma {:induction false} DecodeByte(b: Byte, rest: string)
    ensures PercentDecode(EncodeByte(b) + rest) == [b] + PercentDecode(rest)
  {
    var s := EncodeByte(b) + rest;
    if Legit(b) {
      assert s[1..] == rest;
    } else {
      HexIsSafe(b as int / 16);
      HexIsSafe(b as int % 16);
      assert s[3..] == rest;
    }
  }

  lemma {:induction false} DecodeConcat(s: Bytes, rest: string)
    ensures PercentDecode(UrlEncode(s) + rest) == s + PercentDecode(rest)
  {
    if s == [] {
      assert UrlEncode(s) + rest == rest;
    } else {
      var before, b := s[..|s| - 1], s[|s| - 1];
      Regroup(UrlEncode(before), EncodeByte(b), rest);
      DecodeConcat(before, EncodeByte(b) + rest);
      DecodeByte(b, rest);
      Regroup(before, [b], PercentDecode(rest));
      assert before + [b] == s;
    }
  }

  /** A letter, a digit or one of four marks, the unreserved characters of section 2.3 of RFC 3986, or a colon. */
  predicate Unreserved(c: char) {
    'a' <= c <= 'z' || 'A' <= c <= 'Z' || '0' <= c <= '9' || c == '_' || c == '.' || c == '-' || c == '~' || c == ':'
  }

  ghost predicate AllUnreserved(s: string) {
    forall i :: 0 <= i < |s| ==> Unreserved(s[i])
  }

  lemma {:induction false} UnreservedAppend(s: string, c: char)
    ensures AllUnreserved(s + [c]) <==> AllUnreserved(s) && Unreserved(c)
  {
    var more := s + [c];
    assert more[|s|] == c && forall i :: 0 <= i < |s| ==> more[i] == s[i];
  }

  lemma {:induction false} LegitIsUnreserved(c: char)
    ensures Legit(c) <==> Unreserved(c)
  {
  }

  lemma {:induction false} EncodedByte(b: Byte)
    ensures if Unreserved(b) then EncodeByte(b) == [b] else |EncodeByte(b)| == 3
  {
    LegitIsUnreserved(b);
  }

  lemma {:induction false} EncodedLonger(s: Bytes)
    ensures |UrlEncode(s)| >= |s| && (!AllUnreserved(s) ==> |UrlEncode(s)| > |s|)
  {
    if s != [] {
      var before, b := s[..|s| - 1], s[|s| - 1];
      EncodedLonger(before);
      EncodedByte(b);
      assert before + [b] == s;
      UnreservedAppend(before, b);
    }
  }

  lemma {:induction false} UnreservedStays(s: Bytes)
    requires AllUnreserved(s)
    ensures UrlEncode(s) == s
  {
    if s != [] {
      UnreservedStays(s[..|s| - 1]);
      EncodedByte(s[|s| - 1]);
      assert s[..|s| - 1] + [s[|s| - 1]] == s;
    }
  }

  /** Unreserved characters go through as they are, and every other byte is encoded. */
  lemma {:induction false} UnchangedExactlyWhen(s: Bytes)
    ensures UrlEncode(s) == s <==> AllUnreserved(s)
  {
    EncodedLonger(s);
    if AllUnreserved(s) {
      UnreservedStays(s);
    }
  }

  /** Percent-decoding inverts urlEncode on every byte string. */
  lemma {:induction false} UrlEncodeInverts(s: Bytes)
    ensures PercentDecode(UrlEncode(s)) == s
  {
    DecodeConcat(s, "");
    assert UrlEncode(s) + "" == UrlEncode(s);
    assert s + "" == s;
  }

  lemma {:induction false} PairInverts(p: Pair)
    ensures DecodePair(EncodePair(p)) == Decoded(p.name, p.value)
    ensures Free(EncodePair(p), '&')
  {
    EncodedIsSafe(p.name, '=');
    EncodedIsSafe(p.name, '&');
    EncodedIsSafe(p.value, '&');
    IndexOfFirst(UrlEncode(p.name), UrlEncode(p.value), '=');
    UrlEncodeInverts(p.name);
    UrlEncodeInverts(p.value);
    var s := EncodePair(p);
    assert s[..|UrlEncode(p.name)|] == UrlEncode(p.name);
    assert s[|UrlEncode(p.name)| + 1..] == UrlEncode(p.value);
  }

  lemma {:induction false} FormIsJoin(ps: seq<Pair>)
    requires ps != []
    ensures |EncodePairs(ps)| == |ps| && FormEncode(ps) == Join(EncodePairs(ps), '&')
    ensures AllFree(EncodePairs(ps), '&')
  {
    var before, p := ps[..|ps| - 1], ps[|ps| - 1];
    PairInverts(p);
    if |ps| == 1 {
      assert before == [];
      assert EncodePairs(ps) == [EncodePair(p)];
    } else {
      FormIsJoin(before);
      JoinLast(EncodePairs(before), EncodePair(p), '&');
    }
  }

  lemma {:induction false} JoinLast(parts: seq<string>, last: string, c: char)
    requires parts != []
    ensures Join(parts + [last], c) == Join(parts, c) + [c] + last
  {
    if |parts| > 1 {
      JoinLast(parts[1..], last, c);
      assert (parts + [last])[1..] == parts[1..] + [last];
    } else {
      assert (parts + [last])[1..] == [last];
    }
  }

  ghost predicate SamePairs(ps: seq<Pair>, ds: seq<Decoded>) {
    |ps| == |ds| && forall i :: 0 <= i < |ps| ==> ds[i] == Decoded(ps[i].name, ps[i].value)
  }

  lemma {:induction false} SamePairsAppend(ps: seq<Pair>, ds: seq<Decoded>, p: Pair)
    requires SamePairs(ps, ds)
    ensures SamePairs(ps + [p], ds + [Decoded(p.name, p.value)])
  {
  }

  lemma {:induction false} DecodeEncoded(ps: seq<Pair>)
    ensures SamePairs(ps, DecodeAll(EncodePairs(ps)))
  {
    if ps != [] {
      var before, p := ps[..|ps| - 1], ps[|ps| - 1];
      DecodeEncoded(before);
      PairInverts(p);
      SamePairsAppend(before, DecodeAll(EncodePairs(before)), p);
      assert before + [p] == ps;
      var parts := EncodePairs(before) + [EncodePair(p)];
      assert Front(parts) == EncodePairs(before) && Last(parts) == EncodePair(p);
      assert DecodeAll(parts) == DecodeAll(EncodePairs(before)) + [DecodePair(EncodePair(p))];
    }
  }

  /** Every list of byte-string pairs is read back from its form encoding. */
  lemma {:induction false} FormEncodingInverts(ps: seq<Pair>)
    ensures SamePairs(ps, FormDecode(FormEncode(ps)))
  {
    if ps != [] {
      FormIsJoin(ps);
      SplitJoin(EncodePairs(ps), '&');
      DecodeEncoded(ps);
      assert FormEncode(ps) != "" by {
        NotEmpty(ps);
      }
    }
  }

  lemma {:induction false} NotEmpty(ps: seq<Pair>)
    requires ps != []
    ensures FormEncode(ps) != ""
  {
    assert |EncodePair(ps[|ps| - 1])| > 0;
  }

  /** The encoding loop. */
  method UrlEncodeLoop(value: Bytes) returns (result: string)
    ensures result == UrlEncode(value)
    ensures PercentDecode(result) == value
  {
    result := "";
    for i := 0 to |value|
      invariant result == UrlEncode(value[..i])
    {
      assert value[..i + 1][..i] == value[..i];
      var c := value[i];
      if Legit(c) {
        result := result + [c];
      } else {
        result := result + ['%', Hex(c as int / 16), Hex(c as int % 16)];
      }
    }
    assert value[..|value|] == value;
    UrlEncodeInverts(value);
  }

  lemma {:induction false} FormStep(args: seq<Pair>, i: nat)
    requires i < |args|
    ensures FormEncode(args[..i + 1]) ==
              (if i == 0 then "" else FormEncode(args[..i]) + "&") + EncodePair(args[i])
  {
    assert args[..i + 1][..i] == args[..i];
    assert "" + EncodePair(args[i]) == EncodePair(args[i]);
  }

  /** The loop over the arguments. */
  method GenerateWwwFormUrlencoded(args: seq<Pair>) returns (result: string)
    ensures result == FormEncode(args)
    ensures SamePairs(args, FormDecode(result))
  {
    result := "";
    var firstRun := true;
    for i := 0 to |args|
      invariant result == FormEncode(args[..i]) && firstRun == (i == 0)
    {
      FormStep(args, i);
      if firstRun {
        firstRun := false;
      } else {
        result := result + "&";
      }
      var name := UrlEncodeLoop(args[i].name);
      var value := UrlEncodeLoop(args[i].value);
      result := result + (name + "=" + value);
    }
    assert args[..|args|] == args;
    FormEncodingInverts(args);
  }
}
