/** The 16-bit udpgrm cookie, and the split of the 32 generation rows among applications. */
module GrmCookie {
  import opened Words
  import opened Bits

  // ---- generation rows ----

  /** Rows that one application owns. */
  function SlotSize(maxApps: nat): (n: nat)
    requires maxApps <= MAX_APPS
    ensures 8 <= n <= MAX_GENS
    ensures (if maxApps == 0 then 1 else maxApps) * n <= MAX_GENS
  {
    MAX_GENS / (if maxApps == 0 then 1 else maxApps)
  }

  /** TO_WRK_GEN: the row of generation `gen` of application `app`, in 32-bit arithmetic. */
  function ToWrkGen(maxApps: nat, app: u32, gen: u32): (row: u32)
    requires maxApps <= MAX_APPS
  {
    (app * SlotSize(maxApps) + gen % SlotSize(maxApps)) % TWO32
  }

  /** The application numbers that a group with `maxApps` applications hands out. */
  predicate ValidApp(maxApps: nat, app: nat) {
    app == 0 || app < maxApps
  }

  /** The application that owns a row. */
  function AppOfRow(maxApps: nat, row: nat): nat
    requires maxApps <= MAX_APPS
  {
    row / SlotSize(maxApps)
  }

  /** A row lies in the table and belongs to the application it was computed for, so rows of
      different applications never meet. */
  lemma RowBelongsToApp(maxApps: nat, app: u32, gen: u32)
    requires maxApps <= MAX_APPS && ValidApp(maxApps, app)
    ensures ToWrkGen(maxApps, app, gen) < MAX_GENS
    ensures AppOfRow(maxApps, ToWrkGen(maxApps, app, gen)) == app
  {
    var n := SlotSize(maxApps);
    var g := gen % n;
    assert app * n + g < (app + 1) * n;
    if maxApps != 0 {
      assert (app + 1) * n <= maxApps * n;
    }
    assert (app * n + g) / n == app;
  }

  /** Two requests share a row exactly when they name the same application and their
      generations agree modulo the slot size. */
  lemma RowsCollide(maxApps: nat, app: u32, gen: u32, app': u32, gen': u32)
    requires maxApps <= MAX_APPS && ValidApp(maxApps, app) && ValidApp(maxApps, app')
    ensures ToWrkGen(maxApps, app, gen) == ToWrkGen(maxApps, app', gen')
      <==> app == app' && gen % SlotSize(maxApps) == gen' % SlotSize(maxApps)
  {
    RowBelongsToApp(maxApps, app, gen);
    RowBelongsToApp(maxApps, app', gen');
    var n := SlotSize(maxApps);
    if ToWrkGen(maxApps, app, gen) == ToWrkGen(maxApps, app', gen') {
      assert app * n + gen % n == app' * n + gen' % n;
    }
  }

  /** The rows, number by number: 32, 16, 10 or 8 for each application, one after the other. */
  lemma RowIs(maxApps: nat, app: u32, gen: u32)
    requires maxApps <= MAX_APPS && ValidApp(maxApps, app)
    ensures ToWrkGen(maxApps, app, gen) ==
      if maxApps <= 1 then gen % 32
      else if maxApps == 2 then 16 * app + gen % 16
      else if maxApps == 3 then 10 * app + gen % 10
      else 8 * app + gen % 8
  {
    hide SlotSize;
    SizeIs(maxApps);
    var n := SlotSize(maxApps);
    NoWrap(app, n, gen % n);
  }

  lemma SizeIs(maxApps: nat)
    requires maxApps <= MAX_APPS
    ensures SlotSize(maxApps) ==
      if maxApps <= 1 then 32 else if maxApps == 2 then 16 else if maxApps == 3 then 10 else 8
  {
  }

  lemma NoWrap(app: nat, n: nat, g: nat)
    requires app < 4 && g < n <= 32
    ensures (app * n + g) % TWO32 == app * n + g
  {
    assert app * n <= 4 * 32;
  }

  // ---- the cookie ----

  /** Exclusive or of two nibbles. */
  function Xor4(a: nat, b: nat): (r: nat)
    ensures r < 16
  {
    assert Pow2(4) == 16;
    Bitwise(XorGate, a, b, 4)
  }

  /** Folds a nibble into three bits: bit 3 goes to bit 0. */
  function Fold(nibble: nat): (r: nat)
    requires nibble < 16
    ensures r < 8
  {
    assert Pow2(3) == 8;
    Bitwise(XorGate, nibble % 8, nibble / 8, 3)
  }

  /** GRM_COOKIE_CS. */
  function Checksum(gen: u8, idx: u8): (cs: nat)
    ensures cs < 8
  {
    Fold(Xor4(Xor4(Xor4(Xor4(0xD, idx / 16), idx % 16), gen / 16), gen % 16))
  }

  /** The value of the four bytes that grm_cookie_pack leaves, read as the C code reads them. */
  function Pack(gen: u32, idx: u32): (cookie: u16) {
    gen % 32 + 32 * Checksum(gen % 32, idx % 256) + 256 * (idx % 256)
  }

  function Unpack(cookie: u16): Option<(nat, nat)> {
    var gen, idx := cookie % 32, cookie / 256;
    if cookie % 256 / 32 == Checksum(gen, idx) then Some((gen, idx)) else None
  }

  /** grm_cookie_pack: fills a four-byte buffer. */
  method PackBytes(gen: u32, idx: u32, v: array<u8>)
    requires v.Length == 4
    modifies v
    ensures (v[0] as nat) + 256 * (v[1] as nat) == Pack(gen, idx) && v[2] == 0 && v[3] == 0
  {
    hide Checksum;
    var g, i := gen % 32, idx % 256;
    var cs := Checksum(g, i);
    v[0] := g % 32 + cs * 32;
    v[1] := i;
    v[2] := 0;
    v[3] := 0;
  }

  /** The three fields of a 16-bit value are its mixed-radix digits. */
  lemma Digits(c: nat, gen: nat, cs: nat, idx: nat)
    requires gen < 32 && cs < 8
    ensures c == gen + 32 * cs + 256 * idx <==> gen == c % 32 && cs == c % 256 / 32 && idx == c / 256
  {
    var lo := c % 256;
    assert c == lo + 256 * (c / 256) && lo % 32 == c % 32;
    assert lo == lo % 32 + 32 * (lo / 32);
  }

  /** The layout of a cookie: five bits of generation, three of checksum, eight of index. */
  lemma PackLayout(gen: u32, idx: u32)
    ensures var c := Pack(gen, idx);
      c % 32 == gen % 32 && c % 256 / 32 == Checksum(gen % 32, idx % 256) && c / 256 == idx % 256
  {
    hide Checksum;
    Digits(Pack(gen, idx), gen % 32, Checksum(gen % 32, idx % 256), idx % 256);
  }

  /** What is packed is unpacked, up to the five and eight bits the cookie has room for. */
  lemma UnpackPack(gen: u32, idx: u32)
    ensures Unpack(Pack(gen, idx)) == Some((gen % 32, idx % 256))
  {
    Digits(Pack(gen, idx), gen % 32, Checksum(gen % 32, idx % 256), idx % 256);
  }

  /** The accepted cookies are exactly the packed ones. */
  lemma UnpackIffPacked(cookie: u16, gen: nat, idx: nat)
    requires gen < 32 && idx < 256
    ensures Unpack(cookie) == Some((gen, idx)) <==> cookie == Pack(gen, idx)
  {
    assert Pack(gen, idx) == gen + 32 * Checksum(gen, idx) + 256 * idx by {
      assert gen % 32 == gen && idx % 256 == idx;
    }
    Digits(cookie, gen, Checksum(gen, idx), idx);
  }

  /** Cookies of different slots differ. */
  lemma PackInjective(gen: u32, idx: u32, gen': u32, idx': u32)
    requires Pack(gen, idx) == Pack(gen', idx')
    ensures gen % 32 == gen' % 32 && idx % 256 == idx' % 256
  {
    UnpackPack(gen, idx);
    UnpackPack(gen', idx');
  }

  // ---- the checksum, bit by bit ----

  predicate Parity4(a: bool, b: bool, c: bool, d: bool) {
    (a != b) != (c != d)
  }

  lemma Xor4At(a: nat, b: nat, i: nat)
    requires i < 4
    ensures Bit(Xor4(a, b), i) <==> Bit(a, i) != Bit(b, i)
  {
    BitwiseAt(XorGate, a, b, 4, i);
  }

  /** The nibble that is folded: the constant and all four nibbles, bit by bit. */
  lemma NibbleAt(gen: u8, idx: u8, i: nat)
    requires i < 4
    ensures var n := Xor4(Xor4(Xor4(Xor4(0xD, idx / 16), idx % 16), gen / 16), gen % 16);
      Bit(n, i) <==> Bit(0xD, i) != Parity4(Bit(idx, i), Bit(idx, i + 4), Bit(gen, i), Bit(gen, i + 4))
  {
    hide Bit, Xor4, Pow2;
    Xor4At(0xD, idx / 16, i);
    Xor4At(Xor4(0xD, idx / 16), idx % 16, i);
    Xor4At(Xor4(Xor4(0xD, idx / 16), idx % 16), gen / 16, i);
    Xor4At(Xor4(Xor4(Xor4(0xD, idx / 16), idx % 16), gen / 16), gen % 16, i);
    NibblesOf(idx, i);
    NibblesOf(gen, i);
  }

  lemma NibblesOf(n: nat, i: nat)
    requires i < 4
    ensures Bit(n / 16, i) == Bit(n, i + 4) && Bit(n % 16, i) == Bit(n, i)
  {
    assert Pow2(4) == 16;
    BitsAbove(n, 4, n / 16, i);
    BitsBelow(n, 4, i);
  }

  lemma FoldAt(n: nat, i: nat)
    requires n < 16 && i < 3
    ensures Bit(Fold(n), i) <==> if i == 0 then Bit(n, 0) != Bit(n, 3) else Bit(n, i)
  {
    assert Pow2(3) == 8;
    hide Pow2, Bit;
    BitwiseAt(XorGate, n % 8, n / 8, 3, i);
    BitsBelow(n, 3, i);
    BitsAbove(n, 3, n / 8, i);
    if i > 0 {
      BitOfSmall(n, 3 + i);
    }
  }

  lemma BitOfSmall(n: nat, i: nat)
    requires n < 16 && i >= 4
    ensures !Bit(n, i)
  {
    PowGrows(4, i);
    assert Pow2(4) == 16;
    hide Pow2;
    RemainderOfSum(0, Pow2(i), n);
  }

  /** The checksum is three parities: bit 0 covers bits 0, 3, 4 and 7 of index and generation, bit 1 their bits 1 and 5,
      bit 2 their bits 2 and 6, inverted. */
  lemma ChecksumParities(gen: u8, idx: u8)
    ensures var cs := Checksum(gen, idx);
      && (Bit(cs, 0) <==>
            Parity4(Bit(idx, 0), Bit(idx, 4), Bit(gen, 0), Bit(gen, 4)) !=
            Parity4(Bit(idx, 3), Bit(idx, 7), Bit(gen, 3), Bit(gen, 7)))
      && (Bit(cs, 1) <==> Parity4(Bit(idx, 1), Bit(idx, 5), Bit(gen, 1), Bit(gen, 5)))
      && (Bit(cs, 2) <==> !Parity4(Bit(idx, 2), Bit(idx, 6), Bit(gen, 2), Bit(gen, 6)))
  {
    Thirteen();
    hide Bit, Xor4, Fold;
    var n := Xor4(Xor4(Xor4(Xor4(0xD, idx / 16), idx % 16), gen / 16), gen % 16);
    FoldAt(n, 0);
    FoldAt(n, 1);
    FoldAt(n, 2);
    NibbleAt(gen, idx, 0);
    NibbleAt(gen, idx, 1);
    NibbleAt(gen, idx, 2);
    NibbleAt(gen, idx, 3);
  }

  lemma Thirteen()
    ensures Bit(0xD, 0) && !Bit(0xD, 1) && Bit(0xD, 2) && Bit(0xD, 3)
  {
    assert Pow2(0) == 1 && Pow2(1) == 2 && Pow2(2) == 4 && Pow2(3) == 8;
  }

  /** No packed cookie is 0, which is how a program can tell a cookie from its absence. */
  lemma PackIsNotZero(gen: u32, idx: u32)
    ensures Pack(gen, idx) != 0
  {
    hide Checksum;
    if gen % 32 == 0 && idx % 256 == 0 {
      ChecksumParities(0, 0);
      NoBitOfZero(2);
      NoBitOfZero(6);
    }
  }
}
