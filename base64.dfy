/**
 * `base64.b64encode`: the padded base 64 encoding of section 4 of RFC 4648, and a
 * decoder that reads an encoding back.
 */
module Base64 {
  import opened Bytes
  import opened Wrappers
  import opened Numbering

  /** The character for a six-bit value: `A`-`Z`, `a`-`z`, `0`-`9`, `+`, `/`. */
  function Alphabet(i: nat): (c: char)
    requires i < 64
    ensures c != '='
  {
    if i < 26 then ('A' as int + i) as char
    else if i < 52 then ('a' as int + i - 26) as char
    else if i < 62 then ('0' as int + i - 52) as char
    else if i == 62 then '+'
    else '/'
  }

  /** The six-bit value of an alphabet character, or -1. */
  function Index(c: char): (i: int)
    ensures -1 <= i < 64
  {
    if 'A' <= c <= 'Z' then c as int - 'A' as int
    else if 'a' <= c <= 'z' then c as int - 'a' as int + 26
    else if '0' <= c <= '9' then c as int - '0' as int + 52
    else if c == '+' then 62
    else if c == '/' then 63
    else -1
  }

  lemma IndexOfAlphabet(i: nat)
    requires i < 64
    ensures Index(Alphabet(i)) == i
  {
  }

  /** Three bytes as four characters. */
  function Quad(b0: byte, b1: byte, b2: byte): (r: string)
    ensures |r| == 4
  {
    var n: int := b0 * 65536 + b1 * 256 + b2;
    [Alphabet(n / 262144), Alphabet(n / 4096 % 64), Alphabet(n / 64 % 64), Alphabet(n % 64)]
  }

  /** A final pair of bytes: three characters and one `=`. */
  function QuadOfTwo(b0: byte, b1: byte): (r: string)
    ensures |r| == 4
  {
    var n: int := b0 * 256 + b1;
    [Alphabet(n / 1024), Alphabet(n / 16 % 64), Alphabet(n % 16 * 4), '=']
  }

  /** A final single byte: two characters and `==`. */
  function QuadOfOne(b0: byte): (r: string)
    ensures |r| == 4
  {
    var n: int := b0;
    [Alphabet(n / 4), Alphabet(n % 4 * 16), '=', '=']
  }

  /** `base64.b64encode(b).decode()`: four characters for every three bytes, the last group padded. */
  function Encode(b: seq<byte>): (r: string)
    ensures |r| == 4 * ((|b| + 2) / 3)
    decreases |b|
  {
    if |b| == 0 then ""
    else if |b| == 1 then QuadOfOne(b[0])
    else if |b| == 2 then QuadOfTwo(b[0], b[1])
    else Quad(b[0], b[1], b[2]) + Encode(b[3..])
  }

  /** The bytes of one group of four characters, or `None` when it is not valid base 64. */
  function DecodeQuad(q: string): Option<seq<byte>>
    requires |q| == 4
  {
    var i0, i1, i2, i3 := Index(q[0]), Index(q[1]), Index(q[2]), Index(q[3]);
    if i0 < 0 || i1 < 0 then None
    else if q[2] == '=' && q[3] == '=' then
      Some([i0 * 4 + i1 / 16])
    else if i2 < 0 then None
    else if q[3] == '=' then
      var n := i0 * 1024 + i1 * 16 + i2 / 4;
      Some([n / 256, n % 256])
    else if i3 < 0 then None
    else
      var n := i0 * 262144 + i1 * 4096 + i2 * 64 + i3;
      Some([n / 65536, n / 256 % 256, n % 256])
  }

  /** The bytes of a base 64 text; padding may only end it. */
  function Decode(s: string): Option<seq<byte>>
    decreases |s|
  {
    if s == [] then Some([])
    else if |s| < 4 then None
    else
      var head := DecodeQuad(s[..4]);
      if head.None? then None
      else if |head.value| < 3 then (if |s| == 4 then head else None)
      else
        var rest := Decode(s[4..]);
        if rest.None? then None else Some(head.value + rest.value)
  }

  /** The six-bit values of a full group's characters. */
  lemma QuadIndices(b0: byte, b1: byte, b2: byte)
    ensures var n: int := b0 * 65536 + b1 * 256 + b2;
      var q := Quad(b0, b1, b2);
      && Index(q[0]) == n / 262144 && Index(q[1]) == n / 4096 % 64
      && Index(q[2]) == n / 64 % 64 && Index(q[3]) == n % 64
  {
    var n: int := b0 * 65536 + b1 * 256 + b2;
    IndexOfAlphabet(n / 262144);
    IndexOfAlphabet(n / 4096 % 64);
    IndexOfAlphabet(n / 64 % 64);
    IndexOfAlphabet(n % 64);
  }

  /** A full group decodes to its three bytes. */
  lemma QuadRoundTrip(b0: byte, b1: byte, b2: byte)
    ensures DecodeQuad(Quad(b0, b1, b2)) == Some([b0, b1, b2])
  {
    var n: int := b0 * 65536 + b1 * 256 + b2;
    QuadIndices(b0, b1, b2);
    Digits4(n);
    BytesOf3(b0, b1, b2);
  }

  /** The three bytes read back out of their 24-bit number. */
  lemma BytesOf3(b0: byte, b1: byte, b2: byte)
    ensures var n: int := b0 * 65536 + b1 * 256 + b2;
      n / 65536 == b0 && n / 256 % 256 == b1 && n % 256 == b2
  {
    var n: int := b0 * 65536 + b1 * 256 + b2;
    assert n / 65536 == b0;
    assert n / 256 == b0 * 256 + b1;
  }

  /** The six-bit values of a final pair's characters. */
  lemma PairIndices(b0: byte, b1: byte)
    ensures var n: int := b0 * 256 + b1;
      var q := QuadOfTwo(b0, b1);
      Index(q[0]) == n / 1024 && Index(q[1]) == n / 16 % 64 && Index(q[2]) == n % 16 * 4
  {
    var n: int := b0 * 256 + b1;
    IndexOfAlphabet(n / 1024);
    IndexOfAlphabet(n / 16 % 64);
    IndexOfAlphabet(n % 16 * 4);
  }

  /** A final pair decodes to its two bytes. */
  lemma PairRoundTrip(b0: byte, b1: byte)
    ensures DecodeQuad(QuadOfTwo(b0, b1)) == Some([b0, b1])
  {
    var n: int := b0 * 256 + b1;
    PairIndices(b0, b1);
    assert (n % 16 * 4) / 4 == n % 16;
    var q := n / 16;
    assert n == q * 16 + n % 16;
    assert q == (q / 64) * 64 + q % 64;
    assert n / 1024 == q / 64;
    assert n == (n / 1024) * 1024 + (n / 16 % 64) * 16 + n % 16;
    assert n / 256 == b0;
  }

  /** A final single byte decodes to itself. */
  lemma SingleRoundTrip(b0: byte)
    ensures DecodeQuad(QuadOfOne(b0)) == Some([b0])
  {
    var n: int := b0;
    IndexOfAlphabet(n / 4);
    IndexOfAlphabet(n % 4 * 16);
    assert (n % 4 * 16) / 16 == n % 4;
  }

  /** A padded group ends the text, and it alone is decoded. */
  lemma DecodeFinal(q: string)
    requires |q| == 4 && DecodeQuad(q).Some? && |DecodeQuad(q).value| < 3
    ensures Decode(q) == DecodeQuad(q)
  {
    assert q[..4] == q;
  }

  /** A full group is followed by the decoding of the rest. */
  lemma DecodeCons(q: string, t: string)
    requires |q| == 4 && DecodeQuad(q).Some? && |DecodeQuad(q).value| == 3
    ensures Decode(q + t) == if Decode(t).None? then None else Some(DecodeQuad(q).value + Decode(t).value)
  {
    assert (q + t)[..4] == q;
    assert (q + t)[4..] == t;
  }

  /** Decoding an encoding gives back exactly the bytes. */
  lemma {:induction false} RoundTrip(b: seq<byte>)
    ensures Decode(Encode(b)) == Some(b)
    decreases |b|
  {
    if |b| == 1 {
      SingleRoundTrip(b[0]);
      DecodeFinal(QuadOfOne(b[0]));
      assert [b[0]] == b;
    } else if |b| == 2 {
      PairRoundTrip(b[0], b[1]);
      DecodeFinal(QuadOfTwo(b[0], b[1]));
      assert [b[0], b[1]] == b;
    } else if |b| >= 3 {
      QuadRoundTrip(b[0], b[1], b[2]);
      RoundTrip(b[3..]);
      DecodeCons(Quad(b[0], b[1], b[2]), Encode(b[3..]));
      assert [b[0], b[1], b[2]] + b[3..] == b;
    }
  }

  /** Only alphabet characters, and `=` only among the last two. */
  predicate Padded(s: string)
  {
    forall i :: 0 <= i < |s| ==> (s[i] == '=' && i >= |s| - 2) || Index(s[i]) >= 0
  }

  lemma PaddedAfterGroup(q: string, t: string)
    requires |q| == 4 && Index(q[0]) >= 0 && Index(q[1]) >= 0 && Index(q[2]) >= 0 && Index(q[3]) >= 0
    requires Padded(t)
    ensures Padded(q + t)
  {
    forall i | 0 <= i < |q + t|
      ensures ((q + t)[i] == '=' && i >= |q + t| - 2) || Index((q + t)[i]) >= 0
    {
      if i >= 4 {
        assert (q + t)[i] == t[i - 4];
      }
    }
  }

  /** An encoding uses only the alphabet and `=`, and `=` only in its last two characters. */
  lemma {:induction false} EncodingAlphabet(b: seq<byte>)
    ensures Padded(Encode(b))
    decreases |b|
  {
    if |b| >= 3 {
      EncodingAlphabet(b[3..]);
      QuadIndices(b[0], b[1], b[2]);
      PaddedAfterGroup(Quad(b[0], b[1], b[2]), Encode(b[3..]));
    } else if |b| == 2 {
      PairIndices(b[0], b[1]);
    } else if |b| == 1 {
      var n: int := b[0];
      IndexOfAlphabet(n / 4);
      IndexOfAlphabet(n % 4 * 16);
    }
  }
}
