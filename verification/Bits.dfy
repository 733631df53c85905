/** Numbers as rows of bits. */
module Bits {
  import opened Words

  function Pow2(n: nat): (p: nat)
    ensures p > 0
  {
    if n == 0 then 1 else 2 * Pow2(n - 1)
  }

  datatype Gate = AndGate | OrGate | XorGate

  /** One bit of a bitwise operation. */
  function GateBit(g: Gate, a: nat, b: nat): nat {
    match g
    case AndGate => if a == 1 && b == 1 then 1 else 0
    case OrGate => if a == 1 || b == 1 then 1 else 0
    case XorGate => if a == b then 0 else 1
  }

  /** The lowest `n` bits of a bitwise operation. */
  function Bitwise(g: Gate, a: nat, b: nat, n: nat): (r: nat)
    ensures r < Pow2(n)
  {
    if n == 0 then 0 else GateBit(g, a % 2, b % 2) + 2 * Bitwise(g, a / 2, b / 2, n - 1)
  }

  lemma PowTable()
    ensures Pow2(32) == TWO32
  {
    PowSum(16, 16);
    PowSum(8, 8);
    assert Pow2(8) == 256;
  }

  lemma {:induction false} PowSum(a: nat, b: nat)
    ensures Pow2(a + b) == Pow2(a) * Pow2(b)
  {
    if a > 0 {
      PowSum(a - 1, b);
      assert Pow2(a + b) == 2 * Pow2(a - 1 + b);
    }
  }

  // ---- bit by bit ----

  /** Bit `i` of a number. */
  predicate Bit(n: nat, i: nat) {
    n / Pow2(i) % 2 == 1
  }

  lemma {:induction false} BitAbove(n: nat, i: nat)
    requires i > 0
    ensures Bit(n, i) <==> Bit(n / 2, i - 1)
  {
    hide Pow2;
    var p := Pow2(i - 1);
    assert Pow2(i) == 2 * p by {
      PowNext(i);
    }
    DivideTwice(n, p);
  }

  lemma PowNext(i: nat)
    requires i > 0
    ensures Pow2(i) == 2 * Pow2(i - 1)
  {
  }

  lemma DivideTwice(n: nat, p: nat)
    requires p > 0
    ensures n / (2 * p) == n / 2 / p
  {
    var h, b := n / 2, n % 2;
    var q, r := h / p, h % p;
    assert n == 2 * h + b && h == p * q + r;
    assert n == q * (2 * p) + (2 * r + b) && 2 * r + b < 2 * p;
    RemainderOfSum(q, 2 * p, 2 * r + b);
  }

  predicate GateHolds(g: Gate, a: bool, b: bool) {
    match g
    case AndGate => a && b
    case OrGate => a || b
    case XorGate => a != b
  }

  lemma BitZero(n: nat)
    ensures Bit(n, 0) <==> n % 2 == 1
  {
    assert Pow2(0) == 1;
  }

  lemma BitwiseParts(g: Gate, a: nat, b: nat, n: nat)
    requires n > 0
    ensures var w := Bitwise(g, a, b, n);
      w % 2 == GateBit(g, a % 2, b % 2) && w / 2 == Bitwise(g, a / 2, b / 2, n - 1)
  {
    RemainderOfSum(Bitwise(g, a / 2, b / 2, n - 1), 2, GateBit(g, a % 2, b % 2));
  }

  /** A bitwise operation acts on each bit. */
  lemma {:induction false} BitwiseAt(g: Gate, a: nat, b: nat, n: nat, i: nat)
    requires i < n
    ensures Bit(Bitwise(g, a, b, n), i) <==> GateHolds(g, Bit(a, i), Bit(b, i))
    decreases n
  {
    hide Pow2, Bitwise, Bit;
    var w := Bitwise(g, a, b, n);
    BitwiseParts(g, a, b, n);
    if i == 0 {
      BitZero(w);
      BitZero(a);
      BitZero(b);
    } else {
      BitwiseAt(g, a / 2, b / 2, n - 1, i - 1);
      BitAbove(w, i);
      BitAbove(a, i);
      BitAbove(b, i);
    }
  }

  /** A number below 2^n without any bit is 0. */
  lemma {:induction false} SomeBit(w: nat, n: nat) returns (i: nat)
    requires 0 < w < Pow2(n)
    ensures i < n && Bit(w, i)
  {
    if w % 2 == 1 {
      i := 0;
      assert Pow2(0) == 1;
      assert n > 0;
    } else {
      var j := SomeBit(w / 2, n - 1);
      i := j + 1;
      BitAbove(w, i);
    }
  }

  lemma NoBitOfZero(i: nat)
    ensures !Bit(0, i)
  {
    hide Pow2;
    assert 0 / Pow2(i) == 0;
  }

  /** Shifting moves the bits down. */
  lemma {:induction false} BitsAbove(n: nat, k: nat, m: nat, i: nat)
    requires m == n / Pow2(k)
    ensures Bit(m, i) <==> Bit(n, k + i)
    decreases k
  {
    if k == 0 {
      assert Pow2(0) == 1;
    } else {
      hide Bit;
      DivideTwice(n, Pow2(k - 1));
      BitsAbove(n / 2, k - 1, m, i);
      BitAbove(n, k + i);
    }
  }

  /** A remainder keeps the low bits. */
  lemma {:induction false} BitsBelow(n: nat, k: nat, i: nat)
    requires i < k
    ensures Bit(n % Pow2(k), i) <==> Bit(n, i)
    decreases i
  {
    var p := Pow2(k - 1);
    assert Pow2(k) == 2 * p;
    HalfOfRemainder(n, p);
    if i == 0 {
      assert Pow2(0) == 1;
    } else {
      hide Bit, Pow2;
      BitsBelow(n / 2, k - 1, i - 1);
      BitAbove(n, i);
      BitAbove(n % Pow2(k), i);
    }
  }

  lemma HalfOfRemainder(n: nat, p: nat)
    requires p > 0
    ensures n % (2 * p) / 2 == n / 2 % p && n % (2 * p) % 2 == n % 2
  {
    var h, b := n / 2, n % 2;
    var q, r := h / p, h % p;
    assert n == 2 * h + b && h == p * q + r;
    assert n == q * (2 * p) + (2 * r + b) && 2 * r + b < 2 * p;
    RemainderOfSum(q, 2 * p, 2 * r + b);
  }

  lemma {:induction false} PowGrows(a: nat, b: nat)
    requires a <= b
    ensures Pow2(a) <= Pow2(b)
    decreases b
  {
    if a < b {
      PowGrows(a, b - 1);
    }
  }
}
