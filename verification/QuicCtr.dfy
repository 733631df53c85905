/** Counter-mode decryption, against GCTR of NIST SP 800-38D. */
module QuicCtr {
  import opened Words
  import opened Aes
  import opened Bytes
  import opened QuicScratch

  // ---- section 6.2 and 6.5 of SP 800-38D ----

  /** inc32: the last four bytes count up modulo 2^32, the others stay. */
  function Inc32(b: Block): Block {
    b[..12] + Digits((Value(b[12..]) + 1) % TWO32, 4)
  }

  /** GCTR: block by block, the last one cut to length. */
  function Gctr(key: Block, icb: Block, x: seq<byte>): (y: seq<byte>)
    ensures |y| == |x|
    decreases |x|
  {
    if |x| <= 16 then Xor(x, Cipher(key, icb)[..|x|])
    else Xor(x[..16], Cipher(key, icb)) + Gctr(key, Inc32(icb), x[16..])
  }

  /** What GCTR encrypts, GCTR decrypts. */
  lemma {:induction false} GctrInverts(key: Block, icb: Block, x: seq<byte>)
    ensures Gctr(key, icb, Gctr(key, icb, x)) == x
    decreases |x|
  {
    hide Cipher, Inc32;
    if |x| <= 16 {
      XorTwice(x, Cipher(key, icb)[..|x|]);
    } else {
      var y := Gctr(key, icb, x);
      assert y[..16] == Xor(x[..16], Cipher(key, icb)) && y[16..] == Gctr(key, Inc32(icb), x[16..]);
      XorTwice(x[..16], Cipher(key, icb));
      GctrInverts(key, Inc32(icb), x[16..]);
    }
  }

  lemma XorTwice(a: seq<byte>, b: seq<byte>)
    requires |a| == |b|
    ensures Xor(Xor(a, b), b) == a
  {
    hide Add;
    forall i | 0 <= i < |a| ensures Add(Add(a[i], b[i]), b[i]) == a[i] {
      AddTwice(a[i], b[i]);
    }
  }

  lemma AddTwice(a: byte, b: byte)
    ensures Add(Add(a, b), b) == a
  {
  }

  // ---- the counter ----

  /** Counter block number `n` of a nonce. */
  function CounterAt(nonce: seq<byte>, n: nat): Block
    requires |nonce| == 12
  {
    nonce + Digits(n, 4)
  }

  lemma Pow256Table()
    ensures Pow256(4) == TWO32 && Pow256(8) == TWO64
  {
    assert Pow256(1) == 256;
    assert Pow256(2) == 0x1_0000;
    assert Pow256(3) == 0x100_0000;
    assert Pow256(4) == TWO32;
    assert Pow256(5) == 0x100_0000_0000;
    assert Pow256(6) == 0x1_0000_0000_0000;
    assert Pow256(7) == 0x100_0000_0000_0000;
  }

  lemma Inc32Counts(nonce: seq<byte>, n: nat)
    requires |nonce| == 12 && n + 1 < TWO32
    ensures Inc32(CounterAt(nonce, n)) == CounterAt(nonce, n + 1)
  {
    hide Value, Digits;
    Pow256Table();
    ValueOfDigits(n, 4);
    var b := CounterAt(nonce, n);
    assert b[..12] == nonce && b[12..] == Digits(n, 4);
  }

  /** The program's increment: two 64-bit halves, the carry taken from a low half that came to zero. */
  function Inc128(b: Block): Block {
    var lo := (Value(b[8..]) + 1) % TWO64;
    Digits((Value(b[..8]) + if lo == 0 then 1 else 0) % TWO64, 8) + Digits(lo, 8)
  }

  /** The 128-bit increment agrees with inc32 as long as the last four bytes do not wrap. */
  lemma IncrementsAgree(b: Block)
    requires Value(b[12..]) + 1 < TWO32
    ensures Inc128(b) == Inc32(b)
  {
    hide Value, Digits, Pow256;
    Pow256Table();
    var hi, mid, last := b[..8], b[8..12], b[12..];
    assert b[8..] == mid + last;
    ValueSplits(mid, last);
    var v := Value(last) + 1;
    MidFits(Value(mid), v);
    DigitsSplit(Value(mid), v, 4, 4);
    DigitsOfValue(mid);
    DigitsOfValue(hi);
    assert b[..12] == hi + mid;
  }

  lemma MidFits(mid: nat, v: nat)
    requires mid < TWO32 && 0 < v < TWO32
    ensures 0 < mid * TWO32 + v < TWO64 && v % TWO32 == v
    ensures (mid * TWO32 + v) % TWO64 == mid * TWO32 + v
  {
  }

  /** increment_counter. */
  method IncrementCounter(counter: array<byte>)
    requires counter.Length == 16
    modifies counter
    ensures counter[..] == Inc128(old(counter[..]))
  {
    hide Value, Digits;
    var lo := (Value(counter[8..]) + 1) % TWO64;
    var hi := Value(counter[..8]);
    StoreBe64(counter, 8, lo);
    hi := (hi + if lo == 0 then 1 else 0) % TWO64;
    StoreBe64(counter, 0, hi);
  }

  method StoreBe64(a: array<byte>, at: nat, v: nat)
    requires at + 8 <= a.Length
    modifies a
    ensures a[..] == old(a[..at]) + Digits(v, 8) + old(a[at + 8..])
  {
    hide Digits;
    var d := Digits(v, 8);
    for i := 0 to 8
      invariant forall m :: 0 <= m < a.Length ==> a[m] == if at <= m < at + i then d[m - at] else old(a[m])
    {
      a[at + i] := d[i];
    }
  }

  // ---- decryption in place ----

  /** Byte `m` of the key stream. */
  ghost function KeyStream(key: Block, nonce: seq<byte>, first: nat, m: nat): byte
    requires |nonce| == 12
  {
    Cipher(key, CounterAt(nonce, first + m / 16))[m % 16]
  }

  lemma {:induction false} GctrByte(key: Block, nonce: seq<byte>, first: nat, x: seq<byte>, m: nat)
    requires |nonce| == 12 && m < |x| && first + |x| / 16 + 1 < TWO32
    ensures Gctr(key, CounterAt(nonce, first), x)[m] == Add(x[m], KeyStream(key, nonce, first, m))
    decreases |x|
  {
    hide Cipher, Add, Inc32, CounterAt;
    if |x| > 16 && m >= 16 {
      Inc32Counts(nonce, first);
      GctrByte(key, nonce, first + 1, x[16..], m - 16);
      assert (m - 16) / 16 == m / 16 - 1 && (m - 16) % 16 == m % 16;
    }
  }

  lemma StreamInBlock(key: Block, nonce: seq<byte>, index: nat, m: nat)
    requires |nonce| == 12 && 16 * index <= m < 16 * index + 16
    ensures KeyStream(key, nonce, 2, m) == Cipher(key, CounterAt(nonce, 2 + index))[m - 16 * index]
  {
    hide Cipher, CounterAt;
    assert m / 16 == index && m % 16 == m - 16 * index;
  }

  /** One block of the loop; true would break it. */
  method DecryptBlock(s: Scratch, index: nat, ghost nonce: seq<byte>) returns (stop: bool)
    requires s.Valid() && s.aes.Ready() && |nonce| == 12 && index < 64 && s.quicIv[..] == CounterAt(nonce, 1 + index)
    modifies s.quicIv, s.pkt
    ensures !stop && s.aes.Ready() && s.quicIv[..] == CounterAt(nonce, 2 + index)
    ensures forall m :: 0 <= m < PKT_SIZE ==>
      s.pkt[m] == if 16 * index <= m < 16 * index + 16 then Add(old(s.pkt[m]), KeyStream(s.aes.key, nonce, 2, m))
        else old(s.pkt[m])
  {
    hide Cipher, Inc32, Inc128, CounterAt, Add, Scheduled, KeyStream;
    CounterLow(nonce, 1 + index);
    IncrementsAgree(s.quicIv[..]);
    Inc32Counts(nonce, 1 + index);
    IncrementCounter(s.quicIv);
    var tmp := new byte[16](i requires 0 <= i < 16 reads s.quicIv => if i < s.quicIv.Length then s.quicIv[i] else 0);
    assert tmp[..] == s.quicIv[..];
    s.aes.EcbEncrypt(tmp);
    var at := index * 16;
    if at + 16 > PKT_SIZE {
      return true;
    }
    XorInto(s.pkt, at, tmp);
    forall m | at <= m < at + 16 ensures KeyStream(s.aes.key, nonce, 2, m) == tmp[m - at] {
      StreamInBlock(s.aes.key, nonce, index, m);
    }
    return false;
  }

  method XorInto(pkt: array<byte>, at: nat, tmp: array<byte>)
    requires at + 16 <= pkt.Length && tmp.Length == 16 && tmp != pkt
    modifies pkt
    ensures forall m :: 0 <= m < pkt.Length ==> pkt[m] == if at <= m < at + 16 then Add(old(pkt[m]), tmp[m - at])
      else old(pkt[m])
  {
    hide Add;
    for i := 0 to 16
      invariant forall m :: 0 <= m < pkt.Length ==>
        pkt[m] == if at <= m < at + i then Add(old(pkt[m]), tmp[m - at]) else old(pkt[m])
    {
      pkt[at + i] := Add(pkt[at + i], tmp[i]);
    }
  }

  lemma CounterLow(nonce: seq<byte>, n: nat)
    requires |nonce| == 12 && n < TWO32
    ensures Value(CounterAt(nonce, n)[12..]) == n
  {
    hide Value, Digits;
    Pow256Table();
    ValueOfDigits(n, 4);
    assert CounterAt(nonce, n)[12..] == Digits(n, 4);
  }

  // ---- the tail ----

  /** The 64-bit mask of the low `n` bytes. */
  function LowMask(n: nat): bv64
    requires n < 8
  {
    ((1 as bv64) << (n * 8)) - 1
  }

  /** clear_upper_bytes: the masks of the two halves that keep `len` bytes. */
  function UpperMasks(len: nat): (bv64, bv64)
    requires len < 16
  {
    if len >= 8 then (0xffff_ffff_ffff_ffff, LowMask(len - 8)) else (LowMask(len), 0)
  }

  /** Byte `i` of a mask, low end first. */
  function MaskByte(mask: bv64, i: nat): byte
    requires i < 8
  {
    ((mask >> (8 * i)) & 0xff) as byte
  }

  lemma LowMaskByte(n: nat, i: nat)
    requires n < 8 && i < 8
    ensures MaskByte(LowMask(n), i) == if i < n then 0xff else 0
  {
    hide LowMask, MaskByte;
    LowMasks();
    if n < 4 {
      ShortMaskByte(i);
    } else {
      LongMaskByte(i);
    }
  }

  lemma LowMasks()
    ensures LowMask(0) == 0 && LowMask(1) == 0xff && LowMask(2) == 0xffff && LowMask(3) == 0xff_ffff
    ensures LowMask(4) == 0xffff_ffff
    ensures LowMask(5) == 0xff_ffff_ffff && LowMask(6) == 0xffff_ffff_ffff && LowMask(7) == 0xff_ffff_ffff_ffff
  {
  }

  lemma ShortMaskByte(i: nat)
    requires i < 8
    ensures MaskByte(0, i) == 0 && MaskByte(0xff, i) == if i < 1 then 0xff else 0
    ensures MaskByte(0xffff, i) == if i < 2 then 0xff else 0
    ensures MaskByte(0xff_ffff, i) == if i < 3 then 0xff else 0
  {
    EightCases(i);
  }

  lemma LongMaskByte(i: nat)
    requires i < 8
    ensures MaskByte(0xffff_ffff, i) == if i < 4 then 0xff else 0
    ensures MaskByte(0xff_ffff_ffff, i) == if i < 5 then 0xff else 0
    ensures MaskByte(0xffff_ffff_ffff, i) == if i < 6 then 0xff else 0
    ensures MaskByte(0xff_ffff_ffff_ffff, i) == if i < 7 then 0xff else 0
  {
    EightCases(i);
  }

  lemma EightCases(i: nat)
    requires i < 8
    ensures i == 0 || i == 1 || i == 2 || i == 3 || i == 4 || i == 5 || i == 6 || i == 7
  {
  }

  lemma FullMaskByte(i: nat)
    requires i < 8
    ensures MaskByte(0xffff_ffff_ffff_ffff, i) == 0xff && MaskByte(0, i) == 0
  {
    EightCases(i);
  }

  /** The two masks keep the first `len` of sixteen bytes. */
  lemma MasksKeep(len: nat, i: nat)
    requires len < 16 && i < 16
    ensures var (lo, hi) := UpperMasks(len);
      (if i < 8 then MaskByte(lo, i) else MaskByte(hi, i - 8)) == if i < len then 0xff else 0
  {
    hide LowMask, MaskByte;
    var at := if i < 8 then i else i - 8;
    FullMaskByte(at);
    if len >= 8 {
      LowMaskByte(len - 8, at);
    } else {
      LowMaskByte(len, at);
    }
  }

  lemma MaskedByte(b: byte)
    ensures b & 0xff == b && b & 0 == 0
  {
  }

  /** The two masked stores on the block at `at`. */
  method ClearUpper(pkt: array<byte>, at: nat, len: nat)
    requires at + 16 <= pkt.Length && len < 16
    modifies pkt
    ensures forall m :: 0 <= m < pkt.Length ==> pkt[m] == if at + len <= m < at + 16 then 0 else old(pkt[m])
  {
    hide UpperMasks, MaskByte;
    var (lo, hi) := UpperMasks(len);
    for i := 0 to 16
      invariant forall m :: 0 <= m < pkt.Length ==> pkt[m] == if at + len <= m < at + i then 0 else old(pkt[m])
    {
      MasksKeep(len, i);
      MaskedByte(pkt[at + i]);
      pkt[at + i] := pkt[at + i] & (if i < 8 then MaskByte(lo, i) else MaskByte(hi, i - 8));
    }
  }

  /** The number of 16-byte blocks that hold `len` bytes. */
  function BlocksOf(len: nat): nat {
    len / 16 + if len % 16 != 0 then 1 else 0
  }

  /** decrypt_quic: the payload is decrypted in place, and the rest of its last block is cleared when that block
      lies in the buffer; nothing else changes. */
  method DecryptQuic(s: Scratch, packetLen: nat, ghost nonce: seq<byte>)
    requires s.Valid() && s.aes.Ready() && packetLen <= PKT_SIZE && |nonce| == 12 && s.quicIv[..] == CounterAt(nonce, 1)
    modifies s.quicIv, s.pkt
    ensures s.pkt[..packetLen] == Gctr(s.aes.key, Inc32(CounterAt(nonce, 1)), old(s.pkt[..packetLen]))
    ensures forall m :: packetLen <= m < PKT_SIZE ==>
      s.pkt[m] == if m < packetLen / 16 * 16 + 16 then 0 else old(s.pkt[m])
  {
    hide Cipher, Inc32, CounterAt, Add, Scheduled, Gctr, KeyStream;
    ghost var before := s.pkt[..];
    ghost var key := s.aes.key;
    var n := BlocksOf(packetLen);
    for i := 0 to n
      invariant s.aes.Ready() && s.aes.key == key && s.quicIv[..] == CounterAt(nonce, 1 + i)
      invariant forall m :: 0 <= m < PKT_SIZE ==>
        s.pkt[m] == if m < 16 * i then Add(before[m], KeyStream(key, nonce, 2, m)) else before[m]
    {
      var _ := DecryptBlock(s, i, nonce);
    }
    var last := packetLen / 16 * 16;
    if last <= PKT_SIZE - 16 {
      ClearUpper(s.pkt, last, packetLen % 16);
    }
    Inc32Counts(nonce, 1);
    forall m | 0 <= m < packetLen ensures s.pkt[m] == Gctr(key, CounterAt(nonce, 2), before[..packetLen])[m] {
      GctrByte(key, nonce, 2, before[..packetLen], m);
    }
  }
}
