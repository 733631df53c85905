/** Byte strings as numbers, big end first. */
module Bytes {
  import opened Aes
  import opened Sha256

  function N(b: byte): (n: nat)
    ensures n < 256
  {
    b as nat
  }

  lemma NOfByte(n: nat)
    ensures N(ByteOf(n)) == n % 256
  {
    ForthAndBack(n % 256);
  }

  lemma ForthAndBack(m: nat)
    requires m < 256
    ensures (m as byte) as nat == m
  {
    if m >= 128 {
      assert (m as byte) & 0x80 == 0x80;
    } else {
      assert (m as byte) & 0x80 == 0;
    }
  }

  lemma ByteOfN(b: byte)
    ensures ByteOf(N(b)) == b
  {
    BackAndForth(b);
    assert N(b) % 256 == b as nat;
  }

  lemma BackAndForth(b: byte)
    ensures (b as nat) as byte == b
  {
  }

  function Pow256(n: nat): (p: nat)
    ensures p > 0
  {
    if n == 0 then 1 else 256 * Pow256(n - 1)
  }

  /** The number that a string writes. */
  function Value(b: seq<byte>): (v: nat)
    ensures v < Pow256(|b|)
  {
    if b == [] then 0 else 256 * Value(b[..|b| - 1]) + N(b[|b| - 1])
  }

  /** The last `len` digits of a number. */
  function Digits(n: nat, len: nat): (b: seq<byte>)
    ensures |b| == len
  {
    if len == 0 then [] else Digits(n / 256, len - 1) + [ByteOf(n)]
  }

  lemma {:induction false} DigitsOfValue(b: seq<byte>)
    ensures Digits(Value(b), |b|) == b
  {
    hide N, ByteOf;
    if b != [] {
      var init, last := b[..|b| - 1], b[|b| - 1];
      DigitsOfValue(init);
      assert Value(b) / 256 == Value(init) && Value(b) % 256 == N(last);
      ByteOfMod(Value(b));
      ByteOfN(last);
    }
  }

  lemma ByteOfMod(n: nat)
    ensures ByteOf(n) == ByteOf(n % 256)
  {
  }

  lemma {:induction false} ValueOfDigits(n: nat, len: nat)
    requires n < Pow256(len)
    ensures Value(Digits(n, len)) == n
  {
    hide N, ByteOf, Value, Digits, Pow256;
    if len == 0 {
      NoDigits(n);
    } else {
      Shorter(n, len);
      ValueOfDigits(n / 256, len - 1);
      NOfByte(n);
      var d := Digits(n, len);
      assert d[..|d| - 1] == Digits(n / 256, len - 1);
      LastDigit(d);
    }
  }

  lemma NoDigits(n: nat)
    requires n < Pow256(0)
    ensures Value(Digits(n, 0)) == n
  {
  }

  lemma Shorter(n: nat, len: nat)
    requires n < Pow256(len) && len > 0
    ensures n / 256 < Pow256(len - 1) && Digits(n, len) == Digits(n / 256, len - 1) + [ByteOf(n)]
  {
    hide ByteOf;
    var p := Pow256(len - 1);
    assert Pow256(len) == 256 * p;
  }

  lemma {:induction false} ValueSplits(a: seq<byte>, b: seq<byte>)
    ensures Value(a + b) == Value(a) * Pow256(|b|) + Value(b)
    decreases |b|, 1
  {
    hide Value;
    if b == [] {
      assert a + b == a;
      NoDigits(0);
      assert Value(b) == 0 && Pow256(0) == 1;
    } else {
      SplitStep(a, b);
    }
  }

  lemma SplitStep(a: seq<byte>, b: seq<byte>)
    requires b != []
    ensures Value(a + b) == Value(a) * Pow256(|b|) + Value(b)
    decreases |b|, 0
  {
    hide N, Value;
    var init := b[..|b| - 1];
    ValueSplits(a, init);
    assert (a + b)[..|a + b| - 1] == a + init;
    LastDigit(b);
    LastDigit(a + b);
    MulMoves(Value(a), Pow256(|init|));
  }

  lemma LastDigit(b: seq<byte>)
    requires b != []
    ensures Value(b) == 256 * Value(b[..|b| - 1]) + N(b[|b| - 1])
  {
  }

  lemma MulMoves(a: nat, p: nat)
    ensures 256 * (a * p) == a * (256 * p)
  {
  }

  lemma {:induction false} DigitsSplit(hi: nat, lo: nat, m: nat, n: nat)
    requires lo < Pow256(n)
    ensures Digits(hi * Pow256(n) + lo, m + n) == Digits(hi, m) + Digits(lo, n)
  {
    hide ByteOf;
    if n == 0 {
      assert Digits(hi, m) + Digits(lo, 0) == Digits(hi, m);
    } else {
      var v := hi * Pow256(n) + lo;
      MulMoves(hi, Pow256(n - 1));
      assert v == 256 * (hi * Pow256(n - 1)) + lo;
      assert v / 256 == hi * Pow256(n - 1) + lo / 256 && v % 256 == lo % 256;
      DigitsSplit(hi, lo / 256, m, n - 1);
      ByteOfMod(v);
      ByteOfMod(lo);
      assert Digits(hi, m) + (Digits(lo / 256, n - 1) + [ByteOf(lo)]) == (Digits(hi, m) + Digits(lo / 256, n - 1)) +
        [ByteOf(lo)];
    }
  }
}
