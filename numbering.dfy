/**
 * Facts about file names built as `prefix + digits + rest`: the digits are read back
 * unambiguously when `rest` starts with a non-digit, so different numbers give different names.
 */
module Numbering {
  import opened PyText
  import opened Json

  predicate AllDigits(s: string)
  {
    forall i :: 0 <= i < |s| ==> IsDigit(s[i])
  }

  /** The length of the leading run of digits. */
  function DigitRun(s: string): (n: nat)
    ensures n <= |s|
  {
    if s == [] || !IsDigit(s[0]) then 0 else 1 + DigitRun(s[1..])
  }

  lemma {:induction false} DigitRunLength(d: string, t: string)
    requires AllDigits(d) && t != [] && !IsDigit(t[0])
    ensures DigitRun(d + t) == |d|
  {
    if d != [] {
      assert (d + t)[1..] == d[1..] + t;
      DigitRunLength(d[1..], t);
    } else {
      assert d + t == t;
    }
  }

  /** A digit run followed by a non-digit splits in only one way. */
  lemma DigitRunSplit(d1: string, t1: string, d2: string, t2: string)
    requires AllDigits(d1) && AllDigits(d2)
    requires t1 != [] && !IsDigit(t1[0]) && t2 != [] && !IsDigit(t2[0])
    requires d1 + t1 == d2 + t2
    ensures d1 == d2 && t1 == t2
  {
    DigitRunLength(d1, t1);
    DigitRunLength(d2, t2);
    assert d1 == (d1 + t1)[..|d1|];
    assert d2 == (d2 + t2)[..|d2|];
    assert t1 == (d1 + t1)[|d1|..];
    assert t2 == (d2 + t2)[|d2|..];
  }

  /** `str(m) == str(n)` only when `m == n`. */
  lemma DecimalInjective(m: nat, n: nat)
    requires NatDecimal(m) == NatDecimal(n)
    ensures m == n
  {
    DigitsValueOfDecimal(m);
    DigitsValueOfDecimal(n);
  }

  /** `f"{m:02d}" == f"{n:02d}"` only when `m == n`. */
  lemma Pad2Injective(m: nat, n: nat)
    requires Pad2(m) == Pad2(n)
    ensures m == n
  {
    Pad2Value(m);
    Pad2Value(n);
  }

  /** The zero-padded text still reads back as the number. */
  lemma Pad2Value(n: nat)
    ensures AllDigits(Pad2(n)) && DigitsValue(Pad2(n)) == n
  {
    DigitsValueOfDecimal(n);
    if n < 10 {
      var p := Pad2(n);
      assert p == ['0', DigitChar(n)];
      assert p[..1] == "0";
      assert DigitsValue(p[..1]) == 0 by {
        assert p[..1][..0] == [];
      }
    }
  }

  /** Two names `prefix + str(m) + rest1` and `prefix + str(n) + rest2` with non-digit rests are equal only for `m == n` and `rest1 == rest2`. */
  lemma NumberedNamesDiffer(prefix: string, m: nat, rest1: string, n: nat, rest2: string)
    requires rest1 != [] && !IsDigit(rest1[0]) && rest2 != [] && !IsDigit(rest2[0])
    requires prefix + NatDecimal(m) + rest1 == prefix + NatDecimal(n) + rest2
    ensures m == n && rest1 == rest2
  {
    assert prefix + NatDecimal(m) + rest1 == prefix + (NatDecimal(m) + rest1);
    assert prefix + NatDecimal(n) + rest2 == prefix + (NatDecimal(n) + rest2);
    assert (prefix + (NatDecimal(m) + rest1))[|prefix|..] == NatDecimal(m) + rest1;
    assert (prefix + (NatDecimal(n) + rest2))[|prefix|..] == NatDecimal(n) + rest2;
    DigitRunSplit(NatDecimal(m), rest1, NatDecimal(n), rest2);
    DecimalInjective(m, n);
  }

  /** The same for zero-padded numbers. */
  lemma PaddedNamesDiffer(prefix: string, m: nat, rest1: string, n: nat, rest2: string)
    requires rest1 != [] && !IsDigit(rest1[0]) && rest2 != [] && !IsDigit(rest2[0])
    requires prefix + Pad2(m) + rest1 == prefix + Pad2(n) + rest2
    ensures m == n && rest1 == rest2
  {
    Pad2Value(m);
    Pad2Value(n);
    assert prefix + Pad2(m) + rest1 == prefix + (Pad2(m) + rest1);
    assert prefix + Pad2(n) + rest2 == prefix + (Pad2(n) + rest2);
    assert (prefix + (Pad2(m) + rest1))[|prefix|..] == Pad2(m) + rest1;
    assert (prefix + (Pad2(n) + rest2))[|prefix|..] == Pad2(n) + rest2;
    DigitRunSplit(Pad2(m), rest1, Pad2(n), rest2);
    Pad2Injective(m, n);
  }

  /** A number written in base 64, most significant digit first: three digits ... */
  lemma Digits3(n: int)
    requires 0 <= n
    ensures n == (n / 4096) * 4096 + (n / 64 % 64) * 64 + n % 64
  {
    var q := n / 64;
    assert n == q * 64 + n % 64;
    assert q == (q / 64) * 64 + q % 64;
    assert n / 4096 == q / 64;
  }

  /** ... and four. */
  lemma Digits4(n: int)
    requires 0 <= n
    ensures n == (n / 262144) * 262144 + (n / 4096 % 64) * 4096 + (n / 64 % 64) * 64 + n % 64
  {
    var p := n / 4096;
    Digits3(n);
    assert p == (p / 64) * 64 + p % 64;
    assert n / 262144 == p / 64;
  }
}
