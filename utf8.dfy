/**
 * `str.encode("utf-8")`: UTF-8 as section 3 of RFC 3629 defines it, one to four
 * bytes per Unicode scalar value, with a decoder that reads the code points back.
 */
module Utf8 {
  import opened Bytes
  import opened Numbering

  /** The bytes of one character. */
  function EncodeChar(c: char): (r: seq<byte>)
    ensures 1 <= |r| <= 4
    ensures |r| == 1 <==> c as int < 0x80
  {
    var n := c as int;
    if n < 0x80 then [n]
    else if n < 0x800 then [0xC0 + n / 64, 0x80 + n % 64]
    else if n < 0x10000 then [0xE0 + n / 4096, 0x80 + n / 64 % 64, 0x80 + n % 64]
    else [0xF0 + n / 262144, 0x80 + n / 4096 % 64, 0x80 + n / 64 % 64, 0x80 + n % 64]
  }

  function Encode(s: string): seq<byte>
  {
    if s == [] then [] else EncodeChar(s[0]) + Encode(s[1..])
  }

  /** How many bytes the sequence whose first byte is `lead` takes. */
  function SeqLength(lead: byte): (n: nat)
    ensures 1 <= n <= 4
  {
    if lead < 0x80 then 1 else if lead < 0xE0 then 2 else if lead < 0xF0 then 3 else 4
  }

  /** The low six bits of a continuation byte. */
  function Low6(b: byte): nat
  {
    b % 64
  }

  /** The code point of one well-formed sequence. */
  function DecodeSeq(b: seq<byte>): int
    requires 1 <= |b| <= 4 && |b| == SeqLength(b[0])
  {
    if |b| == 1 then b[0]
    else if |b| == 2 then (b[0] - 0xC0) * 64 + Low6(b[1])
    else if |b| == 3 then (b[0] - 0xE0) * 4096 + Low6(b[1]) * 64 + Low6(b[2])
    else (b[0] - 0xF0) * 262144 + Low6(b[1]) * 4096 + Low6(b[2]) * 64 + Low6(b[3])
  }

  /** The code points of a byte string, up to a truncated final sequence. */
  function Decode(b: seq<byte>): seq<int>
    decreases |b|
  {
    if b == [] || |b| < SeqLength(b[0]) then []
    else [DecodeSeq(b[..SeqLength(b[0])])] + Decode(b[SeqLength(b[0])..])
  }

  function CodePoints(s: string): (r: seq<int>)
    ensures |r| == |s| && forall i :: 0 <= i < |s| ==> r[i] == s[i] as int
  {
    seq(|s|, i requires 0 <= i < |s| => s[i] as int)
  }

  lemma TwoBytes(c: char)
    requires 0x80 <= c as int < 0x800
    ensures SeqLength(EncodeChar(c)[0]) == 2 && DecodeSeq(EncodeChar(c)) == c as int
  {
    var n := c as int;
    var r := EncodeChar(c);
    assert r[0] == 0xC0 + n / 64;
    assert Low6(r[1]) == n % 64;
  }

  /** The three-byte form decodes to its three base-64 digits. */
  lemma Decode3(a: int, b: int, d: int)
    requires 0 <= a < 16 && 0 <= b < 64 && 0 <= d < 64
    ensures SeqLength(0xE0 + a) == 3
    ensures DecodeSeq([0xE0 + a, 0x80 + b, 0x80 + d]) == a * 4096 + b * 64 + d
  {
    assert Low6(0x80 + b) == b;
    assert Low6(0x80 + d) == d;
  }

  /** The four-byte form decodes to its four base-64 digits. */
  lemma Decode4(a: int, b: int, d: int, e: int)
    requires 0 <= a < 8 && 0 <= b < 64 && 0 <= d < 64 && 0 <= e < 64
    ensures SeqLength(0xF0 + a) == 4
    ensures DecodeSeq([0xF0 + a, 0x80 + b, 0x80 + d, 0x80 + e])
      == a * 262144 + b * 4096 + d * 64 + e
  {
    var bytes := [0xF0 + a, 0x80 + b, 0x80 + d, 0x80 + e];
    assert bytes[0] == 0xF0 + a;
    assert SeqLength(bytes[0]) == 4;
    var x := Low6(bytes[1]);
    var y := Low6(bytes[2]);
    var z := Low6(bytes[3]);
    assert x == b && y == d && z == e;
    assert DecodeSeq(bytes) == a * 262144 + x * 4096 + y * 64 + z;
  }

  lemma ThreeBytes(c: char)
    requires 0x800 <= c as int < 0x10000
    ensures SeqLength(EncodeChar(c)[0]) == 3 && DecodeSeq(EncodeChar(c)) == c as int
  {
    var n := c as int;
    Decode3(n / 4096, n / 64 % 64, n % 64);
    Digits3(n);
  }

  lemma FourBytes(c: char)
    requires 0x10000 <= c as int
    ensures SeqLength(EncodeChar(c)[0]) == 4 && DecodeSeq(EncodeChar(c)) == c as int
  {
    var n := c as int;
    assert n < 0x110000;
    Decode4(n / 262144, n / 4096 % 64, n / 64 % 64, n % 64);
    Digits4(n);
  }

  /** The lead byte of a character's encoding announces its length, and the sequence decodes to the character. */
  lemma CharRoundTrip(c: char)
    ensures SeqLength(EncodeChar(c)[0]) == |EncodeChar(c)|
    ensures DecodeSeq(EncodeChar(c)) == c as int
  {
    var n := c as int;
    if n < 0x80 {
    } else if n < 0x800 {
      TwoBytes(c);
    } else if n < 0x10000 {
      ThreeBytes(c);
    } else {
      FourBytes(c);
    }
  }

  /** Decoding the encoding of a string gives back its code points. */
  lemma {:induction false} RoundTrip(s: string)
    ensures Decode(Encode(s)) == CodePoints(s)
  {
    if s != [] {
      var head := EncodeChar(s[0]);
      var b := Encode(s);
      assert b == head + Encode(s[1..]);
      CharRoundTrip(s[0]);
      assert b[0] == head[0];
      assert b[..|head|] == head;
      assert b[|head|..] == Encode(s[1..]);
      RoundTrip(s[1..]);
      assert CodePoints(s) == [s[0] as int] + CodePoints(s[1..]);
    }
  }

  /** Encoding distributes over concatenation. */
  lemma {:induction false} EncodeAppend(a: string, b: string)
    ensures Encode(a + b) == Encode(a) + Encode(b)
  {
    if a != [] {
      assert (a + b)[0] == a[0];
      assert (a + b)[1..] == a[1..] + b;
      EncodeAppend(a[1..], b);
    } else {
      assert a + b == b;
    }
  }

  /** ASCII text is its own encoding, one byte per character. */
  lemma {:induction false} AsciiBytes(s: string)
    requires forall i :: 0 <= i < |s| ==> s[i] as int < 0x80
    ensures |Encode(s)| == |s|
    ensures forall i :: 0 <= i < |s| ==> Encode(s)[i] == s[i] as int
  {
    if s != [] {
      AsciiBytes(s[1..]);
      assert Encode(s) == [s[0] as int] + Encode(s[1..]);
    }
  }
}
