/** `btoa` and `atob` as the browser implements them: the Base 64 alphabet and
    padding of section 4 of RFC 4648, and on decoding the "forgiving-base64
    decode" of the HTML standard (ASCII whitespace ignored, padding optional,
    leftover bits dropped). A "binary string" is a string whose characters
    all have codes below 256, one character per byte. */
module Base64 {
  import opened Wrappers

  type byte = x: int | 0 <= x < 256
  type sextet = x: int | 0 <= x < 64

  /** The DOMException `btoa` and `atob` throw. */
  datatype DomError = InvalidCharacterError

  /** Character `v` of the alphabet A-Z, a-z, 0-9, '+', '/'. */
  function CharOf(v: sextet): char {
    if v < 26 then ('A' as int + v) as char
    else if v < 52 then ('a' as int + (v - 26)) as char
    else if v < 62 then ('0' as int + (v - 52)) as char
    else if v == 62 then '+'
    else '/'
  }

  predicate IsAlphabet(c: char) {
    ('A' <= c <= 'Z') || ('a' <= c <= 'z') || ('0' <= c <= '9') || c == '+' || c == '/'
  }

  function ValueOf(c: char): (v: sextet)
    requires IsAlphabet(c)
    ensures CharOf(v) == c
  {
    if 'A' <= c <= 'Z' then c as int - 'A' as int
    else if 'a' <= c <= 'z' then c as int - 'a' as int + 26
    else if '0' <= c <= '9' then c as int - '0' as int + 52
    else if c == '+' then 62
    else 63
  }

  lemma CharOfInAlphabet(v: sextet)
    ensures IsAlphabet(CharOf(v)) && ValueOf(CharOf(v)) == v
  {
  }

  /** The characters of a binary string, one per byte. */
  function BinaryString(b: seq<byte>): (s: string)
    ensures |s| == |b|
    ensures forall i :: 0 <= i < |b| ==> s[i] as int == b[i]
  {
    seq(|b|, i requires 0 <= i < |b| => b[i] as char)
  }

  predicate IsBinaryString(s: string) {
    forall i :: 0 <= i < |s| ==> s[i] as int < 256
  }

  /** The bytes a binary string stands for. */
  function Codes(s: string): (b: seq<byte>)
    requires IsBinaryString(s)
    ensures |b| == |s|
    ensures forall i :: 0 <= i < |s| ==> b[i] == s[i] as int
  {
    seq(|s|, i requires 0 <= i < |s| => s[i] as int)
  }

  lemma CodesOfBinaryString(b: seq<byte>)
    ensures IsBinaryString(BinaryString(b)) && Codes(BinaryString(b)) == b
  {
  }

  /** The first sextet of a group; every group of one, two or three bytes has it. */
  function S0(b0: byte): sextet { b0 / 4 }
  function S1(b0: byte, b1: byte): sextet { (b0 % 4) * 16 + b1 / 16 }
  function S2(b1: byte, b2: byte): sextet { (b1 % 16) * 4 + b2 / 64 }
  function S3(b2: byte): sextet { b2 % 64 }

  function EncodeGroup(b0: byte, b1: byte, b2: byte): (s: string)
    ensures |s| == 4 && AllAlphabet(s)
  {
    [CharOf(S0(b0)), CharOf(S1(b0, b1)), CharOf(S2(b1, b2)), CharOf(S3(b2))]
  }

  /** The encoding without its trailing '=' characters: four characters per
      three bytes, then two characters for one leftover byte or three for two. */
  function EncodeUnpadded(b: seq<byte>): (s: string)
    ensures AllAlphabet(s)
    decreases |b|
  {
    if |b| == 0 then []
    else if |b| == 1 then [CharOf(S0(b[0])), CharOf(S1(b[0], 0))]
    else if |b| == 2 then [CharOf(S0(b[0])), CharOf(S1(b[0], b[1])), CharOf(S2(b[1], 0))]
    else EncodeGroup(b[0], b[1], b[2]) + EncodeUnpadded(b[3..])
  }

  /** The '=' characters that fill the last group up to four characters. */
  function Padding(n: nat): (p: string)
    ensures forall i :: 0 <= i < |p| ==> p[i] == '='
  {
    if n % 3 == 1 then "==" else if n % 3 == 2 then "=" else ""
  }

  /** The Base 64 encoding of section 4 of RFC 4648, padded with '='. */
  function EncodeBytes(b: seq<byte>): string
  {
    EncodeUnpadded(b) + Padding(|b|)
  }

  /** `btoa(s)`: throws on a character outside the binary range, otherwise
      encodes the bytes the string stands for. */
  function Btoa(s: string): (r: Result<string, DomError>)
    ensures r.Ok? <==> IsBinaryString(s)
  {
    if IsBinaryString(s) then Ok(EncodeBytes(Codes(s))) else Err(InvalidCharacterError)
  }

  /** ASCII whitespace, which `atob` skips. */
  predicate IsAsciiWhitespace(c: char) {
    c == '\t' || c == '\n' || c == '\U{000C}' || c == '\r' || c == ' '
  }

  function RemoveWhitespace(s: string): (r: string)
    ensures |r| <= |s|
    ensures forall i :: 0 <= i < |r| ==> !IsAsciiWhitespace(r[i])
    decreases |s|
  {
    if s == [] then []
    else if IsAsciiWhitespace(s[0]) then RemoveWhitespace(s[1..])
    else [s[0]] + RemoveWhitespace(s[1..])
  }

  /** Drops one or two trailing '=' characters. */
  function StripPadding(s: string): string {
    if |s| >= 2 && s[|s| - 2] == '=' && s[|s| - 1] == '=' then s[..|s| - 2]
    else if |s| >= 1 && s[|s| - 1] == '=' then s[..|s| - 1]
    else s
  }

  /** Reads four characters as three bytes, and a last group of two or three
      characters as one or two bytes, dropping the leftover bits. */
  function B0(v0: sextet, v1: sextet): byte { v0 * 4 + v1 / 16 }
  function B1(v1: sextet, v2: sextet): byte { (v1 % 16) * 16 + v2 / 4 }
  function B2(v2: sextet, v3: sextet): byte { (v2 % 4) * 64 + v3 }

  function DecodeGroup(c0: char, c1: char, c2: char, c3: char): seq<byte>
    requires IsAlphabet(c0) && IsAlphabet(c1) && IsAlphabet(c2) && IsAlphabet(c3)
  {
    [B0(ValueOf(c0), ValueOf(c1)), B1(ValueOf(c1), ValueOf(c2)), B2(ValueOf(c2), ValueOf(c3))]
  }

  /** Reads each group of four characters as three bytes, and a last group of
      two or three characters as one or two bytes, dropping the leftover bits. */
  function DecodeUnpadded(s: string): seq<byte>
    requires AllAlphabet(s)
    decreases |s|
  {
    if |s| <= 1 then []
    else if |s| == 2 then [B0(ValueOf(s[0]), ValueOf(s[1]))]
    else if |s| == 3 then [B0(ValueOf(s[0]), ValueOf(s[1])), B1(ValueOf(s[1]), ValueOf(s[2]))]
    else DecodeGroup(s[0], s[1], s[2], s[3]) + DecodeUnpadded(s[4..])
  }

  predicate AllAlphabet(s: string) {
    forall i :: 0 <= i < |s| ==> IsAlphabet(s[i])
  }

  /** `atob(data)`: `None` where the browser throws InvalidCharacterError,
      otherwise the decoded binary string. */
  function Atob(data: string): (r: Option<string>)
    ensures r.Some? ==> IsBinaryString(r.value)
  {
    var d := RemoveWhitespace(data);
    var d' := if |d| % 4 == 0 then StripPadding(d) else d;
    if |d'| % 4 == 1 || !AllAlphabet(d') then None
    else Some(BinaryString(DecodeUnpadded(d')))
  }

  /** One group: the three bytes come back from their four sextets. */
  lemma GroupRoundTrip(b0: byte, b1: byte, b2: byte)
    ensures B0(S0(b0), S1(b0, b1)) == b0
    ensures B1(S1(b0, b1), S2(b1, b2)) == b1
    ensures B2(S2(b1, b2), S3(b2)) == b2
  {
    assert S1(b0, b1) / 16 == b0 % 4 && S1(b0, b1) % 16 == b1 / 16;
    assert S2(b1, b2) / 4 == b1 % 16 && S2(b1, b2) % 4 == b2 / 64;
  }

  /** The same, read through the alphabet. */
  lemma GroupCharsRoundTrip(b0: byte, b1: byte, b2: byte)
    ensures var g := EncodeGroup(b0, b1, b2);
      DecodeGroup(g[0], g[1], g[2], g[3]) == [b0, b1, b2]
  {
    CharOfInAlphabet(S0(b0));
    CharOfInAlphabet(S1(b0, b1));
    CharOfInAlphabet(S2(b1, b2));
    CharOfInAlphabet(S3(b2));
    GroupRoundTrip(b0, b1, b2);
  }

  lemma DecodeTwoChars(c0: char, c1: char)
    requires IsAlphabet(c0) && IsAlphabet(c1)
    ensures DecodeUnpadded([c0, c1]) == [B0(ValueOf(c0), ValueOf(c1))]
  {
  }

  lemma DecodeThreeChars(c0: char, c1: char, c2: char)
    requires IsAlphabet(c0) && IsAlphabet(c1) && IsAlphabet(c2)
    ensures DecodeUnpadded([c0, c1, c2]) == [B0(ValueOf(c0), ValueOf(c1)), B1(ValueOf(c1), ValueOf(c2))]
  {
  }

  /** A last group of one byte, written as two characters. */
  lemma OneByteRoundTrip(b0: byte)
    ensures DecodeUnpadded(EncodeUnpadded([b0])) == [b0]
  {
    var v0, v1 := S0(b0), S1(b0, 0);
    assert EncodeUnpadded([b0]) == [CharOf(v0), CharOf(v1)];
    CharOfInAlphabet(v0);
    CharOfInAlphabet(v1);
    DecodeTwoChars(CharOf(v0), CharOf(v1));
    GroupRoundTrip(b0, 0, 0);
  }

  /** A last group of two bytes, written as three characters. */
  lemma TwoBytesRoundTrip(b0: byte, b1: byte)
    ensures DecodeUnpadded(EncodeUnpadded([b0, b1])) == [b0, b1]
  {
    var v0, v1, v2 := S0(b0), S1(b0, b1), S2(b1, 0);
    assert EncodeUnpadded([b0, b1]) == [CharOf(v0), CharOf(v1), CharOf(v2)];
    CharOfInAlphabet(v0);
    CharOfInAlphabet(v1);
    CharOfInAlphabet(v2);
    DecodeThreeChars(CharOf(v0), CharOf(v1), CharOf(v2));
    GroupRoundTrip(b0, b1, 0);
  }

  /** Four characters per full group of three bytes, then two or three for a
      last group of one or two bytes. */
  lemma {:induction false} EncodeUnpaddedLength(b: seq<byte>)
    ensures |EncodeUnpadded(b)| == |b| + (|b| + 2) / 3
    decreases |b|
  {
    if |b| >= 3 {
      EncodeUnpaddedLength(b[3..]);
      assert |EncodeUnpadded(b)| == 4 + |EncodeUnpadded(b[3..])|;
    } else if |b| == 1 {
      assert |EncodeUnpadded(b)| == 2;
    } else if |b| == 2 {
      assert |EncodeUnpadded(b)| == 3;
    }
  }

  lemma UnpaddedLengthArithmetic(m: nat)
    ensures (m + (m + 2) / 3) % 4 != 1
    ensures m + (m + 2) / 3 + (3 - m % 3) % 3 == 4 * ((m + 2) / 3)
  {
    var q, r := m / 3, m % 3;
    assert m == 3 * q + r;
    assert (m + 2) / 3 == q + (r + 2) / 3;
    var k := r + (r + 2) / 3;
    assert m + (m + 2) / 3 == 4 * q + k && k != 1 && k < 4;
  }

  /** So its length never leaves remainder 1 modulo 4, which `atob` refuses. */
  lemma EncodeUnpaddedNotOneMod4(b: seq<byte>)
    ensures |EncodeUnpadded(b)| % 4 != 1
  {
    EncodeUnpaddedLength(b);
    UnpaddedLengthArithmetic(|b|);
  }

  lemma {:induction false} UnpaddedRoundTrip(b: seq<byte>)
    ensures DecodeUnpadded(EncodeUnpadded(b)) == b
    decreases |b|
  {
    if |b| == 1 {
      OneByteRoundTrip(b[0]);
      assert b == [b[0]];
    } else if |b| == 2 {
      TwoBytesRoundTrip(b[0], b[1]);
      assert b == [b[0], b[1]];
    } else if |b| >= 3 {
      var s := EncodeUnpadded(b);
      var g := EncodeGroup(b[0], b[1], b[2]);
      var t := EncodeUnpadded(b[3..]);
      UnpaddedRoundTrip(b[3..]);
      GroupCharsRoundTrip(b[0], b[1], b[2]);
      assert s == g + t;
      assert s[4..] == t;
      assert s[0] == g[0] && s[1] == g[1] && s[2] == g[2] && s[3] == g[3];
      calc {
        DecodeUnpadded(s);
        DecodeGroup(s[0], s[1], s[2], s[3]) + DecodeUnpadded(t);
        [b[0], b[1], b[2]] + b[3..];
        b;
      }
    }
  }

  lemma {:induction false} NoWhitespaceUnchanged(s: string)
    requires forall i :: 0 <= i < |s| ==> !IsAsciiWhitespace(s[i])
    ensures RemoveWhitespace(s) == s
    decreases |s|
  {
    if s != [] {
      NoWhitespaceUnchanged(s[1..]);
    }
  }

  /** The padded encoding has four characters per started group of three bytes. */
  lemma EncodeBytesLength(b: seq<byte>)
    ensures |EncodeBytes(b)| == 4 * ((|b| + 2) / 3)
    ensures |EncodeBytes(b)| % 4 == 0
  {
    var n := |b|;
    var m := (n + 2) / 3;
    var u := |EncodeUnpadded(b)|;
    var p := |Padding(n)|;
    EncodeUnpaddedLength(b);
    UnpaddedLengthArithmetic(n);
    PaddingLength(n);
    assert |EncodeBytes(b)| == u + p;
    FourTimes(m);
  }

  lemma FourTimes(m: int)
    ensures (4 * m) % 4 == 0
  {
  }

  lemma PaddingLength(n: nat)
    ensures |Padding(n)| == (3 - n % 3) % 3
  {
  }

  /** Removing the padding of an encoding gives back its unpadded form. */
  lemma StripPaddingOfEncoding(b: seq<byte>)
    ensures StripPadding(EncodeBytes(b)) == EncodeUnpadded(b)
  {
    var u := EncodeUnpadded(b);
    var e := EncodeBytes(b);
    if |b| % 3 == 0 {
      assert e == u;
      if |u| > 0 { assert IsAlphabet(u[|u| - 1]); }
    } else if |b| % 3 == 1 {
      assert e == u + "==";
      assert e[..|e| - 2] == u;
    } else {
      assert e == u + "=";
      assert |u| > 0 by { EncodeUnpaddedLength(b); }
      assert IsAlphabet(u[|u| - 1]);
      assert e[|e| - 2] == u[|u| - 1];
      assert e[..|e| - 1] == u;
    }
  }

  /** What `btoa` produces, `atob` reads back: the round trip of the codec. */
  lemma AtobBtoa(b: seq<byte>)
    ensures Btoa(BinaryString(b)) == Ok(EncodeBytes(b))
    ensures Atob(EncodeBytes(b)) == Some(BinaryString(b))
  {
    CodesOfBinaryString(b);
    var u := EncodeUnpadded(b);
    var e := EncodeBytes(b);
    forall i | 0 <= i < |e| ensures !IsAsciiWhitespace(e[i]) {
      if i >= |u| { assert e[i] == Padding(|b|)[i - |u|]; }
    }
    NoWhitespaceUnchanged(e);
    EncodeBytesLength(b);
    StripPaddingOfEncoding(b);
    EncodeUnpaddedNotOneMod4(b);
    UnpaddedRoundTrip(b);
    var d := RemoveWhitespace(e);
    assert d == e;
    var d' := if |d| % 4 == 0 then StripPadding(d) else d;
    assert d' == u;
    assert !(|d'| % 4 == 1 || !AllAlphabet(d'));
  }

  /** A string whose length leaves remainder 1 modulo 4, once whitespace is
      removed, is always refused. */
  lemma AtobRejectsBadLength(data: string)
    requires |RemoveWhitespace(data)| % 4 == 1
    ensures Atob(data) == None
  {
  }
}
