/** AES-128 as FIPS 197 defines it, and the in-place program that computes it. */
module Aes {

  type byte = bv8

  // ---- FIPS 197, section 4.2: bytes as polynomials ----

  /** Addition of polynomials. */
  function Add(a: byte, b: byte): byte {
    a ^ b
  }

  /** Multiplication by x. */
  function XTime(b: byte): byte {
    (b << 1) ^ Carry(b)
  }

  /** What x^8 reduces to. */
  function Carry(b: byte): byte {
    if b & 0x80 == 0x80 then 0x1b else 0
  }

  /** The terms of a product: `b` times x^i for the bits i of `a`. */
  function GfTerm(a: byte, bit: byte, b: byte): byte {
    if a & bit == bit then b else 0
  }

  /** Multiplication in GF(2^8). */
  function GfMul(a: byte, b: byte): byte {
    var b1 := XTime(b);
    var b2 := XTime(b1);
    var b3 := XTime(b2);
    var b4 := XTime(b3);
    var b5 := XTime(b4);
    var b6 := XTime(b5);
    var b7 := XTime(b6);
    GfTerm(a, 0x01, b) ^ GfTerm(a, 0x02, b1) ^ GfTerm(a, 0x04, b2) ^ GfTerm(a, 0x08, b3) ^
    GfTerm(a, 0x10, b4) ^ GfTerm(a, 0x20, b5) ^ GfTerm(a, 0x40, b6) ^ GfTerm(a, 0x80, b7)
  }

  // ---- FIPS 197, section 5.1.1: the S-box ----

  /** Entry `i` of a row of the table. */
  function Entry(i: byte, x0: byte, x1: byte, x2: byte, x3: byte, x4: byte, x5: byte, x6: byte, x7: byte,
                 x8: byte, x9: byte, xa: byte, xb: byte, xc: byte, xd: byte, xe: byte, xf: byte): byte {
    match i
    case 0x0 => x0 case 0x1 => x1 case 0x2 => x2 case 0x3 => x3
    case 0x4 => x4 case 0x5 => x5 case 0x6 => x6 case 0x7 => x7
    case 0x8 => x8 case 0x9 => x9 case 0xa => xa case 0xb => xb
    case 0xc => xc case 0xd => xd case 0xe => xe case _ => xf
  }

  function SBox(b: byte): byte {
    var i := b & 0xf;
    match b >> 4
    case 0x0 => Entry(i, 0x63, 0x7c, 0x77, 0x7b, 0xf2, 0x6b, 0x6f, 0xc5, 0x30, 0x01, 0x67, 0x2b, 0xfe, 0xd7, 0xab, 0x76)
    case 0x1 => Entry(i, 0xca, 0x82, 0xc9, 0x7d, 0xfa, 0x59, 0x47, 0xf0, 0xad, 0xd4, 0xa2, 0xaf, 0x9c, 0xa4, 0x72, 0xc0)
    case 0x2 => Entry(i, 0xb7, 0xfd, 0x93, 0x26, 0x36, 0x3f, 0xf7, 0xcc, 0x34, 0xa5, 0xe5, 0xf1, 0x71, 0xd8, 0x31, 0x15)
    case 0x3 => Entry(i, 0x04, 0xc7, 0x23, 0xc3, 0x18, 0x96, 0x05, 0x9a, 0x07, 0x12, 0x80, 0xe2, 0xeb, 0x27, 0xb2, 0x75)
    case 0x4 => Entry(i, 0x09, 0x83, 0x2c, 0x1a, 0x1b, 0x6e, 0x5a, 0xa0, 0x52, 0x3b, 0xd6, 0xb3, 0x29, 0xe3, 0x2f, 0x84)
    case 0x5 => Entry(i, 0x53, 0xd1, 0x00, 0xed, 0x20, 0xfc, 0xb1, 0x5b, 0x6a, 0xcb, 0xbe, 0x39, 0x4a, 0x4c, 0x58, 0xcf)
    case 0x6 => Entry(i, 0xd0, 0xef, 0xaa, 0xfb, 0x43, 0x4d, 0x33, 0x85, 0x45, 0xf9, 0x02, 0x7f, 0x50, 0x3c, 0x9f, 0xa8)
    case 0x7 => Entry(i, 0x51, 0xa3, 0x40, 0x8f, 0x92, 0x9d, 0x38, 0xf5, 0xbc, 0xb6, 0xda, 0x21, 0x10, 0xff, 0xf3, 0xd2)
    case 0x8 => Entry(i, 0xcd, 0x0c, 0x13, 0xec, 0x5f, 0x97, 0x44, 0x17, 0xc4, 0xa7, 0x7e, 0x3d, 0x64, 0x5d, 0x19, 0x73)
    case 0x9 => Entry(i, 0x60, 0x81, 0x4f, 0xdc, 0x22, 0x2a, 0x90, 0x88, 0x46, 0xee, 0xb8, 0x14, 0xde, 0x5e, 0x0b, 0xdb)
    case 0xa => Entry(i, 0xe0, 0x32, 0x3a, 0x0a, 0x49, 0x06, 0x24, 0x5c, 0xc2, 0xd3, 0xac, 0x62, 0x91, 0x95, 0xe4, 0x79)
    case 0xb => Entry(i, 0xe7, 0xc8, 0x37, 0x6d, 0x8d, 0xd5, 0x4e, 0xa9, 0x6c, 0x56, 0xf4, 0xea, 0x65, 0x7a, 0xae, 0x08)
    case 0xc => Entry(i, 0xba, 0x78, 0x25, 0x2e, 0x1c, 0xa6, 0xb4, 0xc6, 0xe8, 0xdd, 0x74, 0x1f, 0x4b, 0xbd, 0x8b, 0x8a)
    case 0xd => Entry(i, 0x70, 0x3e, 0xb5, 0x66, 0x48, 0x03, 0xf6, 0x0e, 0x61, 0x35, 0x57, 0xb9, 0x86, 0xc1, 0x1d, 0x9e)
    case 0xe => Entry(i, 0xe1, 0xf8, 0x98, 0x11, 0x69, 0xd9, 0x8e, 0x94, 0x9b, 0x1e, 0x87, 0xe9, 0xce, 0x55, 0x28, 0xdf)
    case _ => Entry(i, 0x8c, 0xa1, 0x89, 0x0d, 0xbf, 0xe6, 0x42, 0x68, 0x41, 0x99, 0x2d, 0x0f, 0xb0, 0x54, 0xbb, 0x16)
  }

  /** The affine map. */
  function Affine(b: byte): byte {
    b ^ ((b << 1) | (b >> 7)) ^ ((b << 2) | (b >> 6)) ^ ((b << 3) | (b >> 5)) ^ ((b << 4) | (b >> 4)) ^ 0x63
  }

  function Unaffine(b: byte): byte {
    ((b << 1) | (b >> 7)) ^ ((b << 3) | (b >> 5)) ^ ((b << 6) | (b >> 2)) ^ 0x05
  }

  lemma AffineOfUnaffine(b: byte)
    ensures Affine(Unaffine(b)) == b
  {
  }

  /** `y` is the affine image of the inverse of `b`. */
  predicate InvertedInto(b: byte, y: byte) {
    GfMul(Unaffine(y), b) == 1
  }

  lemma Row0Low(b: byte)
    requires b >> 3 == 0 && b != 0
    ensures InvertedInto(b, SBox(b))
  {
  }

  lemma Row0High(b: byte)
    requires b >> 3 == 1
    ensures InvertedInto(b, SBox(b))
  {
  }

  lemma Row1(b: byte)
    requires b >> 4 == 1
    ensures InvertedInto(b, SBox(b))
  {
  }

  lemma Row2(b: byte)
    requires b >> 4 == 2
    ensures InvertedInto(b, SBox(b))
  {
  }

  lemma Row3(b: byte)
    requires b >> 4 == 3
    ensures InvertedInto(b, SBox(b))
  {
  }

  lemma Row4(b: byte)
    requires b >> 4 == 4
    ensures InvertedInto(b, SBox(b))
  {
  }

  lemma Row5(b: byte)
    requires b >> 4 == 5
    ensures InvertedInto(b, SBox(b))
  {
  }

  lemma Row6(b: byte)
    requires b >> 4 == 6
    ensures InvertedInto(b, SBox(b))
  {
  }

  lemma Row7(b: byte)
    requires b >> 4 == 7
    ensures InvertedInto(b, SBox(b))
  {
  }

  lemma Row8Low(b: byte)
    requires b >> 3 == 16
    ensures InvertedInto(b, SBox(b))
  {
  }

  lemma Row8High(b: byte)
    requires b >> 3 == 17
    ensures InvertedInto(b, SBox(b))
  {
  }

  lemma Row9(b: byte)
    requires b >> 4 == 9
    ensures InvertedInto(b, SBox(b))
  {
  }

  lemma RowA(b: byte)
    requires b >> 4 == 10
    ensures InvertedInto(b, SBox(b))
  {
  }

  lemma RowB(b: byte)
    requires b >> 4 == 11
    ensures InvertedInto(b, SBox(b))
  {
  }

  lemma RowC(b: byte)
    requires b >> 4 == 12
    ensures InvertedInto(b, SBox(b))
  {
  }

  lemma RowD(b: byte)
    requires b >> 4 == 13
    ensures InvertedInto(b, SBox(b))
  {
  }

  lemma RowE(b: byte)
    requires b >> 4 == 14
    ensures InvertedInto(b, SBox(b))
  {
  }

  lemma RowF(b: byte)
    requires b >> 4 == 15
    ensures InvertedInto(b, SBox(b))
  {
  }

  /** Where the table comes from: its entry for 0 is the affine image of 0, and its entry for any other byte is the
      affine image of that byte's inverse in GF(2^8). */
  lemma SBoxInverts(b: byte)
    ensures b == 0 ==> SBox(b) == Affine(0)
    ensures b != 0 ==> exists x :: GfMul(x, b) == 1 && SBox(b) == Affine(x)
  {
    hide Unaffine, GfMul;
    if b != 0 {
      hide SBox, Affine;
      InAnyRow(b);
      AffineOfUnaffine(SBox(b));
    }
  }

  lemma InAnyRow(b: byte)
    requires b != 0
    ensures InvertedInto(b, SBox(b))
  {
    hide SBox, InvertedInto;
    match b >> 4
    case 0x0 => if b >> 3 == 0 { Row0Low(b); } else { Row0High(b); }
    case 0x1 => Row1(b);
    case 0x2 => Row2(b);
    case 0x3 => Row3(b);
    case 0x4 => Row4(b);
    case 0x5 => Row5(b);
    case 0x6 => Row6(b);
    case 0x7 => Row7(b);
    case 0x8 => if b >> 3 == 16 { Row8Low(b); } else { Row8High(b); }
    case 0x9 => Row9(b);
    case 0xa => RowA(b);
    case 0xb => RowB(b);
    case 0xc => RowC(b);
    case 0xd => RowD(b);
    case 0xe => RowE(b);
    case _ => RowF(b);
  }

  // ---- FIPS 197, section 5.1: the cipher ----

  type Block = b: seq<byte> | |b| == 16 witness [0, 0, 0, 0, 0, 0, 0, 0, 0, 0, 0, 0, 0, 0, 0, 0]
  type Quad = w: seq<byte> | |w| == 4 witness [0, 0, 0, 0]

  /** Byte in row r and column c of the state is byte r + 4c of the block. */
  function SubBytes(s: Block): Block {
    seq(16, i requires 0 <= i < 16 => SBox(s[i]))
  }

  function ShiftRows(s: Block): Block {
    seq(16, i requires 0 <= i < 16 => s[i % 4 + 4 * ((i / 4 + i % 4) % 4)])
  }

  /** One byte of a mixed column: the matrix is circulant with first row 02 03 01 01. */
  function MixByte(a: byte, b: byte, c: byte, d: byte): byte {
    Add(Add(Add(GfMul(0x02, a), GfMul(0x03, b)), c), d)
  }

  function MixAt(s: Block, col: nat, r: nat): byte
    requires col < 4 && r < 4
  {
    MixByte(s[4 * col + r], s[4 * col + (r + 1) % 4], s[4 * col + (r + 2) % 4], s[4 * col + (r + 3) % 4])
  }

  function MixColumns(s: Block): Block {
    seq(16, i requires 0 <= i < 16 => MixAt(s, i / 4, i % 4))
  }

  function Xor(a: seq<byte>, b: seq<byte>): (r: seq<byte>)
    requires |a| == |b|
    ensures |r| == |a|
  {
    seq(|a|, i requires 0 <= i < |a| => Add(a[i], b[i]))
  }

  // ---- FIPS 197, section 5.2: key expansion ----

  /** The round constants are the powers of x. */
  function Rcon(j: nat): byte
    requires j >= 1
  {
    if j == 1 then 0x01 else XTime(Rcon(j - 1))
  }

  function SubWord(w: Quad): Quad {
    [SBox(w[0]), SBox(w[1]), SBox(w[2]), SBox(w[3])]
  }

  function RotWord(w: Quad): Quad {
    [w[1], w[2], w[3], w[0]]
  }

  function XorWord(a: Quad, b: Quad): Quad {
    [Add(a[0], b[0]), Add(a[1], b[1]), Add(a[2], b[2]), Add(a[3], b[3])]
  }

  /** The round constant word has zeros in its last three bytes. */
  function AddRcon(w: Quad, j: nat): Quad
    requires j >= 1
  {
    [Add(w[0], Rcon(j)), w[1], w[2], w[3]]
  }

  /** Word i of the key schedule. */
  function ScheduleWord(key: Block, i: nat): Quad {
    if i < 4 then key[4 * i..4 * i + 4]
    else
      var prev := ScheduleWord(key, i - 1);
      XorWord(ScheduleWord(key, i - 4), if i % 4 == 0 then AddRcon(SubWord(RotWord(prev)), i / 4) else prev)
  }

  function RoundKey(key: Block, round: nat): Block {
    seq(16, i requires 0 <= i < 16 => ScheduleWord(key, 4 * round + i / 4)[i % 4])
  }

  function AddRoundKey(s: Block, key: Block, round: nat): Block {
    Xor(s, RoundKey(key, round))
  }

  /** The state after `n` full rounds. */
  function Rounds(key: Block, s: Block, n: nat): Block {
    if n == 0 then AddRoundKey(s, key, 0)
    else AddRoundKey(MixColumns(ShiftRows(SubBytes(Rounds(key, s, n - 1)))), key, n)
  }

  /** The cipher of section 5.1 with ten rounds. */
  function Cipher(key: Block, s: Block): Block {
    AddRoundKey(ShiftRows(SubBytes(Rounds(key, s, 9))), key, 10)
  }

  // ---- the program ----

  /** The doubling of the program. */
  function Double(x: byte): byte {
    (x << 1) ^ (((x >> 7) & 1) * 0x1b)
  }

  lemma DoubleIsXTime(x: byte)
    ensures Double(x) == XTime(x)
  {
  }

  lemma TimesTwo(b: byte)
    ensures GfMul(0x02, b) == XTime(b)
  {
    hide XTime;
  }

  lemma TimesThree(b: byte)
    ensures GfMul(0x03, b) == XTime(b) ^ b
  {
    hide XTime;
  }

  lemma DoubleSpreads(a: byte, b: byte)
    ensures Double(a ^ b) == XTime(a) ^ XTime(b)
  {
    hide Carry, Double, XTime;
    DoubleIsXTime(a ^ b);
    CarrySpreads(a, b);
    XTimeParts(a);
    XTimeParts(b);
    XTimeParts(a ^ b);
    ShiftSpreads(a, b, Carry(a), Carry(b));
  }

  lemma XTimeParts(a: byte)
    ensures XTime(a) == (a << 1) ^ Carry(a)
  {
    hide Carry;
  }

  lemma ShiftSpreads(a: byte, b: byte, c: byte, d: byte)
    ensures ((a ^ b) << 1) ^ (c ^ d) == ((a << 1) ^ c) ^ ((b << 1) ^ d)
  {
  }

  lemma CarrySpreads(a: byte, b: byte)
    ensures Carry(a ^ b) == Carry(a) ^ Carry(b)
  {
    assert (a ^ b) & 0x80 == (a & 0x80) ^ (b & 0x80);
    assert a & 0x80 == 0x80 || a & 0x80 == 0;
    assert b & 0x80 == 0x80 || b & 0x80 == 0;
  }

  lemma XorShuffle(a: byte, b: byte, c: byte, d: byte, a2: byte, b2: byte)
    ensures a ^ ((a2 ^ b2) ^ (a ^ b ^ c ^ d)) == a2 ^ (b2 ^ b) ^ c ^ d
  {
  }

  /** The xor-and-double form of a mixed byte is the product with the matrix row. */
  lemma MixTrick(a: byte, b: byte, c: byte, d: byte, sum: byte)
    requires sum == Add(Add(Add(a, b), c), d)
    ensures Add(a, Add(Double(Add(a, b)), sum)) == MixByte(a, b, c, d)
  {
    hide GfMul, XTime, Double;
    TimesTwo(a);
    TimesThree(b);
    DoubleSpreads(a, b);
    XorShuffle(a, b, c, d, XTime(a), XTime(b));
  }

  /** The program's table of round constants, from 1 on. */
  function RoundConstant(j: nat): byte
    requires 1 <= j <= 10
  {
    [0x8d, 0x01, 0x02, 0x04, 0x08, 0x10, 0x20, 0x40, 0x80, 0x1b, 0x36][j]
  }

  lemma RoundConstants(j: nat)
    requires 1 <= j <= 10
    ensures RoundConstant(j) == Rcon(j)
  {
    assert Rcon(1) == 0x01;
    assert Rcon(2) == 0x02;
    assert Rcon(3) == 0x04;
    assert Rcon(4) == 0x08;
    assert Rcon(5) == 0x10;
    assert Rcon(6) == 0x20;
    assert Rcon(7) == 0x40;
    assert Rcon(8) == 0x80;
    assert Rcon(9) == 0x1b;
    assert Rcon(10) == 0x36;
  }

  /** The first `n` words of the schedule are in place. */
  ghost predicate Scheduled(roundKey: seq<byte>, key: Block, n: nat)
    requires 4 * n <= |roundKey|
  {
    forall i :: 0 <= i < n ==> WordThere(roundKey, 4 * i, ScheduleWord(key, i))
  }

  ghost predicate WordThere(roundKey: seq<byte>, at: nat, w: Quad) {
    at + 4 <= |roundKey| && roundKey[at] == w[0] && roundKey[at + 1] == w[1] && roundKey[at + 2] == w[2] &&
      roundKey[at + 3] == w[3]
  }

  class AesCtx {
    const roundKey: array<byte>
    /** The key whose schedule the round keys are. */
    ghost var key: Block

    ghost predicate Valid()
      reads this
    {
      roundKey.Length == 176
    }

    ghost predicate Ready()
      reads this, roundKey
    {
      Valid() && Scheduled(roundKey[..], key, 44)
    }

    constructor ()
      ensures Valid() && fresh(roundKey)
    {
      roundKey := new byte[176](_ => 0);
      key := [0, 0, 0, 0, 0, 0, 0, 0, 0, 0, 0, 0, 0, 0, 0, 0];
    }

    /** AES_key_expand. */
    method KeyExpand(k: array<byte>)
      requires Valid() && k.Length == 16 && k != roundKey
      modifies this, roundKey
      ensures Ready() && key == k[..]
    {
      hide SBox, ScheduleWord, Scheduled;
      key := k[..];
      NoneYet(roundKey[..], key);
      for i := 0 to 4
        invariant k[..] == key && Scheduled(roundKey[..], key, i)
      {
        ghost var before := roundKey[..];
        roundKey[4 * i], roundKey[4 * i + 1], roundKey[4 * i + 2], roundKey[4 * i + 3] := k[4 * i], k[4 * i + 1],
          k[4 * i + 2], k[4 * i + 3];
        KeyWord(key, i);
        OneMore(before, roundKey[..], key, i);
      }
      for i := 4 to 44
        invariant k[..] == key && Scheduled(roundKey[..], key, i)
      {
        NextWord(i);
      }
    }

    /** One word of the schedule. */
    method NextWord(i: nat)
      requires Valid() && 4 <= i < 44 && Scheduled(roundKey[..], key, i)
      modifies roundKey
      ensures Scheduled(roundKey[..], key, i + 1)
    {
      hide ScheduleWord, Scheduled;
      var tmp := Temporary(i);
      WordIs(key, i, tmp);
      WordAt(roundKey[..], key, i, i - 4);
      Store(i, tmp);
    }

    /** The temporary word of the schedule. */
    method Temporary(i: nat) returns (tmp: Quad)
      requires Valid() && 4 <= i < 44 && Scheduled(roundKey[..], key, i)
      ensures tmp == TempOf(key, i)
    {
      hide SBox, Add, Rcon, RoundConstant, ScheduleWord, Scheduled;
      var k := (i - 1) * 4;
      WordAt(roundKey[..], key, i, i - 1);
      var t0, t1, t2, t3 := roundKey[k], roundKey[k + 1], roundKey[k + 2], roundKey[k + 3];
      if i % 4 == 0 {
        t0, t1, t2, t3 := t1, t2, t3, t0;
        t0, t1, t2, t3 := SBox(t0), SBox(t1), SBox(t2), SBox(t3);
        RoundConstants(i / 4);
        t0 := Add(t0, RoundConstant(i / 4));
      }
      tmp := [t0, t1, t2, t3];
    }

    method Store(i: nat, tmp: Quad)
      requires Valid() && 4 <= i < 44 && Scheduled(roundKey[..], key, i)
      requires ScheduleWord(key, i) == XorWord(ScheduleWord(key, i - 4), tmp)
      modifies roundKey
      ensures Scheduled(roundKey[..], key, i + 1)
    {
      hide ScheduleWord, Scheduled, XorWord, Add;
      ghost var before := roundKey[..];
      WordAt(before, key, i, i - 4);
      XorWordAt(ScheduleWord(key, i - 4), tmp);
      var j, k := 4 * i, (i - 4) * 4;
      var v0, v1, v2, v3 := Add(roundKey[k], tmp[0]), Add(roundKey[k + 1], tmp[1]), Add(roundKey[k + 2], tmp[2]),
        Add(roundKey[k + 3], tmp[3]);
      roundKey[j], roundKey[j + 1], roundKey[j + 2], roundKey[j + 3] := v0, v1, v2, v3;
      OneMore(before, roundKey[..], key, i);
    }

    /** add_round_key: the index into the round keys never leaves their 176 bytes. */
    method AddRoundKeyTo(round: nat, state: array<byte>)
      requires Ready() && round <= 10 && state.Length == 16 && state != roundKey
      modifies state
      ensures state[..] == AddRoundKey(old(state[..]), key, round)
    {
      hide Scheduled, ScheduleWord, AddRoundKey, Add;
      ghost var before := state[..];
      for i := 0 to 4
        invariant forall m :: 0 <= m < 16 ==> state[m] == if m < 4 * i then AddRoundKey(before, key, round)[m]
          else before[m]
      {
        WordAt(roundKey[..], key, 44, 4 * round + i);
        for j := 0 to 4
          invariant forall m :: 0 <= m < 16 ==>
            state[m] == if m < 4 * i + j then AddRoundKey(before, key, round)[m] else before[m]
        {
          var p := round * 16 + i * 4 + j;
          assert p <= 175;
          var x := roundKey[p % 176];
          RoundKeyByte(before, key, round, i, j);
          state[i * 4 + j] := Add(state[i * 4 + j], x);
        }
      }
    }

    /** AES_ECB_encrypt. */
    method EcbEncrypt(state: array<byte>)
      requires Ready() && state.Length == 16 && state != roundKey
      modifies state
      ensures state[..] == Cipher(key, old(state[..]))
    {
      hide Scheduled, AddRoundKey, SubBytes, ShiftRows, MixColumns;
      AddRoundKeyTo(0, state);
      var round := 1;
      while true
        invariant 1 <= round <= 10 && state[..] == Rounds(key, old(state[..]), round - 1)
        decreases 10 - round
      {
        SubBytesIn(state);
        ShiftRowsIn(state);
        if round == 10 {
          break;
        }
        MixColumnsIn(state);
        AddRoundKeyTo(round, state);
        round := round + 1;
      }
      AddRoundKeyTo(10, state);
    }
  }

  lemma RoundKeyByte(s: Block, key: Block, round: nat, i: nat, j: nat)
    requires i < 4 && j < 4
    ensures AddRoundKey(s, key, round)[4 * i + j] == Add(s[4 * i + j], ScheduleWord(key, 4 * round + i)[j])
  {
    hide ScheduleWord, Add;
    assert (4 * i + j) / 4 == i && (4 * i + j) % 4 == j;
  }

  method SubBytesIn(state: array<byte>)
    requires state.Length == 16
    modifies state
    ensures state[..] == SubBytes(old(state[..]))
  {
    hide SBox;
    for i := 0 to 4
      invariant forall m :: 0 <= m < 16 ==> state[m] == if m % 4 < i then SBox(old(state[m])) else old(state[m])
    {
      ghost var before := state[..];
      for j := 0 to 4
        invariant forall m :: 0 <= m < 16 ==> state[m] == if m % 4 == i && m / 4 < j then SBox(before[m]) else before[m]
      {
        state[4 * j + i] := SBox(state[4 * j + i]);
      }
    }
  }

  /** Row `r` of a block moved left by `n`, the other rows as they were. */
  function RowMoved(s: Block, r: nat, n: nat): Block {
    seq(16, i requires 0 <= i < 16 => if i % 4 == r then s[i % 4 + 4 * ((i / 4 + n) % 4)] else s[i])
  }

  lemma RowsMoved(s: Block)
    ensures RowMoved(RowMoved(RowMoved(s, 1, 1), 2, 2), 3, 3) == ShiftRows(s)
  {
  }

  method ShiftRowsIn(state: array<byte>)
    requires state.Length == 16
    modifies state
    ensures state[..] == ShiftRows(old(state[..]))
  {
    hide ShiftRows, RowMoved;
    RowsMoved(state[..]);
    RotateFirst(state);
    RotateSecond(state);
    RotateThird(state);
  }

  method RotateFirst(state: array<byte>)
    requires state.Length == 16
    modifies state
    ensures state[..] == RowMoved(old(state[..]), 1, 1)
  {
    var tmp := state[1];
    state[1] := state[5];
    state[5] := state[9];
    state[9] := state[13];
    state[13] := tmp;
  }

  method RotateSecond(state: array<byte>)
    requires state.Length == 16
    modifies state
    ensures state[..] == RowMoved(old(state[..]), 2, 2)
  {
    var tmp := state[2];
    state[2] := state[10];
    state[10] := tmp;
    tmp := state[6];
    state[6] := state[14];
    state[14] := tmp;
  }

  method RotateThird(state: array<byte>)
    requires state.Length == 16
    modifies state
    ensures state[..] == RowMoved(old(state[..]), 3, 3)
  {
    var tmp := state[3];
    state[3] := state[15];
    state[15] := state[11];
    state[11] := state[7];
    state[7] := tmp;
  }

  method MixColumnsIn(state: array<byte>)
    requires state.Length == 16
    modifies state
    ensures state[..] == MixColumns(old(state[..]))
  {
    hide MixByte, MixColumns;
    ghost var before := state[..];
    for i := 0 to 4
      invariant forall m :: 0 <= m < 16 ==> state[m] == if m < 4 * i then MixColumns(before)[m] else before[m]
    {
      MixedColumn(before, i);
      MixColumn(state, i);
    }
  }

  lemma MixedColumn(s: Block, i: nat)
    requires i < 4
    ensures var a, b, c, d := s[4 * i], s[4 * i + 1], s[4 * i + 2], s[4 * i + 3];
      && MixColumns(s)[4 * i] == MixByte(a, b, c, d) && MixColumns(s)[4 * i + 1] == MixByte(b, c, d, a)
      && MixColumns(s)[4 * i + 2] == MixByte(c, d, a, b) && MixColumns(s)[4 * i + 3] == MixByte(d, a, b, c)
  {
    hide MixByte, MixColumns;
    MixedByte(s, i, 0);
    MixedByte(s, i, 1);
    MixedByte(s, i, 2);
    MixedByte(s, i, 3);
  }

  lemma MixedByte(s: Block, i: nat, r: nat)
    requires i < 4 && r < 4
    ensures MixColumns(s)[4 * i + r] == MixAt(s, i, r)
  {
    hide MixAt;
    assert (4 * i + r) / 4 == i && (4 * i + r) % 4 == r;
  }

  /** One column of mix_columns. */
  method MixColumn(state: array<byte>, i: nat)
    requires state.Length == 16 && i < 4
    modifies state
    ensures forall m :: 0 <= m < 16 && !(4 * i <= m < 4 * i + 4) ==> state[m] == old(state[m])
    ensures state[4 * i] == MixByte(old(state[4 * i]), old(state[4 * i + 1]), old(state[4 * i + 2]),
      old(state[4 * i + 3]))
    ensures state[4 * i + 1] == MixByte(old(state[4 * i + 1]), old(state[4 * i + 2]), old(state[4 * i + 3]),
      old(state[4 * i]))
    ensures state[4 * i + 2] == MixByte(old(state[4 * i + 2]), old(state[4 * i + 3]), old(state[4 * i]),
      old(state[4 * i + 1]))
    ensures state[4 * i + 3] == MixByte(old(state[4 * i + 3]), old(state[4 * i]), old(state[4 * i + 1]),
      old(state[4 * i + 2]))
  {
    hide MixByte, Double, Add;
    ghost var a, b, c, d := state[4 * i], state[4 * i + 1], state[4 * i + 2], state[4 * i + 3];
    var t := state[4 * i];
    var tmp := Add(Add(Add(state[4 * i], state[4 * i + 1]), state[4 * i + 2]), state[4 * i + 3]);
    SumTurns(a, b, c, d);
    SumTurns(b, c, d, a);
    SumTurns(c, d, a, b);
    MixTrick(a, b, c, d, tmp);
    MixTrick(b, c, d, a, tmp);
    MixTrick(c, d, a, b, tmp);
    MixTrick(d, a, b, c, tmp);
    var tm := Double(Add(state[4 * i], state[4 * i + 1]));
    state[4 * i] := Add(state[4 * i], Add(tm, tmp));
    tm := Double(Add(state[4 * i + 1], state[4 * i + 2]));
    state[4 * i + 1] := Add(state[4 * i + 1], Add(tm, tmp));
    tm := Double(Add(state[4 * i + 2], state[4 * i + 3]));
    state[4 * i + 2] := Add(state[4 * i + 2], Add(tm, tmp));
    tm := Double(Add(state[4 * i + 3], t));
    state[4 * i + 3] := Add(state[4 * i + 3], Add(tm, tmp));
  }

  lemma SumTurns(a: byte, b: byte, c: byte, d: byte)
    ensures Add(Add(Add(a, b), c), d) == Add(Add(Add(b, c), d), a)
  {
  }

  lemma XorWordAt(a: Quad, b: Quad)
    ensures var w := XorWord(a, b);
      w[0] == Add(a[0], b[0]) && w[1] == Add(a[1], b[1]) && w[2] == Add(a[2], b[2]) && w[3] == Add(a[3], b[3])
  {
  }

  /** The temporary word: the previous one, rotated, substituted and offset where the schedule says so. */
  ghost function TempOf(key: Block, i: nat): Quad
    requires i >= 4
  {
    hide SBox, Rcon, ScheduleWord;
    var p := ScheduleWord(key, i - 1);
    if i % 4 == 0 then [Add(SBox(p[1]), Rcon(i / 4)), SBox(p[2]), SBox(p[3]), SBox(p[0])] else [p[0], p[1], p[2], p[3]]
  }

  lemma NoneYet(roundKey: seq<byte>, key: Block)
    ensures Scheduled(roundKey, key, 0)
  {
  }

  lemma KeyWord(key: Block, i: nat)
    requires i < 4
    ensures ScheduleWord(key, i)[0] == key[4 * i] && ScheduleWord(key, i)[1] == key[4 * i + 1]
    ensures ScheduleWord(key, i)[2] == key[4 * i + 2] && ScheduleWord(key, i)[3] == key[4 * i + 3]
  {
  }

  lemma OneMore(before: seq<byte>, after: seq<byte>, key: Block, i: nat)
    requires |before| == |after| >= 4 * i + 4 && (forall m :: 0 <= m < 4 * i ==> after[m] == before[m])
    requires Scheduled(before, key, i)
    requires WordThere(after, 4 * i, ScheduleWord(key, i))
    ensures Scheduled(after, key, i + 1)
  {
    hide ScheduleWord;
    forall m | 0 <= m < i ensures WordThere(after, 4 * m, ScheduleWord(key, m)) {
      assert WordThere(before, 4 * m, ScheduleWord(key, m));
    }
  }

  lemma WordAt(roundKey: seq<byte>, key: Block, n: nat, i: nat)
    requires 4 * n <= |roundKey| && i < n && Scheduled(roundKey, key, n)
    ensures WordThere(roundKey, 4 * i, ScheduleWord(key, i))
  {
  }

  lemma WordIs(key: Block, i: nat, t: Quad)
    requires 4 <= i < 44 && t == TempOf(key, i)
    ensures ScheduleWord(key, i) == XorWord(ScheduleWord(key, i - 4), t)
  {
    hide SBox, Rcon, XorWord, Add;
    var p := ScheduleWord(key, i - 1);
    assert p == [p[0], p[1], p[2], p[3]];
  }
}
