/** Machine integers, and the group limits shared by the kernel hooks and the daemon. */
module Words {

  const TWO32: nat := 0x1_0000_0000
  const TWO64: nat := 0x1_0000_0000_0000_0000

  type u8 = n: nat | n < 0x100
  type u16 = n: nat | n < 0x1_0000
  type u32 = n: nat | n < 0x1_0000_0000
  type u64 = n: nat | n < 0x1_0000_0000_0000_0000

  const MAX_GENS: nat := 32
  const MAX_SOCKETS_IN_GEN: nat := 256
  const MAX_APPS: nat := 4
  const MAX_INSTR: nat := 64

  /** The 0xffffffff that stands for "no generation" and "no index". */
  const UNSET: u32 := 0xffff_ffff

  datatype Option<+T> = None | Some(value: T)

  function Max(a: int, b: int): (r: int)
    ensures r >= a && r >= b && (r == a || r == b)
  {
    if a < b then b else a
  }

  function Min(a: int, b: int): (r: int)
    ensures r <= a && r <= b && (r == a || r == b)
  {
    if a < b then a else b
  }

  // ---- quotients and remainders ----

  lemma RemainderOfSum(q: nat, n: nat, i: nat)
    requires i < n
    ensures (q * n + i) % n == i && (q * n + i) / n == q
  {
    var x := q * n + i;
    assert x == n * (x / n) + x % n;
    SameQuotient(n, q, i, x / n, x % n);
  }

  lemma SameQuotient(n: nat, q: nat, i: nat, q': nat, i': nat)
    requires i < n && i' < n && q * n + i == q' * n + i'
    ensures q == q' && i == i'
  {
    if q < q' {
      ProductGrows(q, q', n);
    } else if q' < q {
      ProductGrows(q', q, n);
    }
  }

  lemma ProductGrows(a: nat, b: nat, n: nat)
    requires a < b
    ensures b * n >= a * n + n
  {
    var d := b - a - 1;
    assert b * n == a * n + n + d * n;
  }
}
