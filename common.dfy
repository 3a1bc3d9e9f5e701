/** The conventional optional value, used where the source returns a null pointer or rejects an input. */
module Wrappers {

  datatype Option<+T> = None | Some(value: T)
}

/** Decimal spelling of integers, as `llvm::utostr` and `raw_ostream << unsigned` / `<< int` print them. */
module Decimal {

  predicate IsDigit(c: char) {
    '0' <= c <= '9'
  }

  function DigitChar(d: nat): (c: char)
    requires d < 10
    ensures IsDigit(c)
  {
    (('0' as int) + d) as char
  }

  function DigitValue(c: char): (d: nat)
    requires IsDigit(c)
    ensures d < 10
  {
    (c as int) - ('0' as int)
  }

  predicate AllDigits(s: string) {
    forall i :: 0 <= i < |s| ==> IsDigit(s[i])
  }

  /** Unsigned decimal spelling: most significant digit first, no leading zeros. */
  function NatToString(n: nat): (s: string)
    ensures |s| > 0 && AllDigits(s)
    ensures |s| > 1 ==> s[0] != '0'
  {
    if n < 10 then [DigitChar(n)] else NatToString(n / 10) + [DigitChar(n % 10)]
  }

  /** Signed decimal spelling: a minus sign before the magnitude of a negative value. */
  function IntToString(i: int): (s: string)
    ensures |s| > 0
    ensures i < 0 <==> s[0] == '-'
    ensures i < 0 ==> |s| > 1
    ensures forall k :: (if i < 0 then 1 else 0) <= k < |s| ==> IsDigit(s[k])
  {
    if i < 0 then "-" + NatToString(-i) else NatToString(i)
  }

  /** Reads a non-empty run of digits back as a number. */
  function ParseNat(s: string): nat
    requires |s| > 0 && AllDigits(s)
  {
    if |s| == 1 then DigitValue(s[0]) else 10 * ParseNat(s[..|s| - 1]) + DigitValue(s[|s| - 1])
  }

  lemma {:induction false} ParseNatRoundTrip(n: nat)
    ensures ParseNat(NatToString(n)) == n
  {
    if n >= 10 {
      var s := NatToString(n);
      assert s[..|s| - 1] == NatToString(n / 10);
      ParseNatRoundTrip(n / 10);
    }
  }
}

/** Facts about concatenation of strings and other sequences. */
module Text {
  lemma Assoc<T>(a: seq<T>, b: seq<T>, c: seq<T>)
    ensures a + b + c == a + (b + c)
  {
  }

  /** The halves of a concatenation are its prefix and suffix at the split point. */
  lemma SplitAt<T>(s: seq<T>, a: seq<T>, b: seq<T>)
    requires s == a + b
    ensures s[..|a|] == a && s[|a|..] == b
  {
  }

  /** A sequence with one element appended splits back into that element and what was there. */
  lemma LastOff<T>(s: seq<T>, a: seq<T>, x: T, b: seq<T>, y: T)
    requires s == a + [x] && s == b + [y]
    ensures a == b && x == y
  {
    assert a == s[..|s| - 1] == b;
  }
}

/** The C integer conversions the source applies, written out on unbounded integers. */
module Machine {
  /** A value of a 32-bit `unsigned`. */
  type UInt32 = x: int | 0 <= x < 0x1_0000_0000

  /** Conversion to a 32-bit `int`: the low 32 bits, read as two's complement. */
  function ToInt32(x: int): (r: int)
    ensures -0x8000_0000 <= r < 0x8000_0000
    ensures -0x8000_0000 <= x < 0x8000_0000 ==> r == x
    ensures (x - r) % 0x1_0000_0000 == 0
  {
    var low := x % 0x1_0000_0000;
    if low >= 0x8000_0000 then low - 0x1_0000_0000 else low
  }

  /** Conversion to a 32-bit `unsigned`: the low 32 bits. */
  function ToUInt32(x: int): (r: nat)
    ensures r < 0x1_0000_0000
    ensures 0 <= x < 0x1_0000_0000 ==> r == x
  {
    x % 0x1_0000_0000
  }

  /** Conversion to `unsigned char`: the low 8 bits. */
  function ToUInt8(x: int): (r: nat)
    ensures r < 0x100
    ensures 0 <= x < 0x100 ==> r == x
  {
    x % 0x100
  }
}
