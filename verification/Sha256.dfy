/** SHA-256 and HMAC as FIPS 180-4 and RFC 2104 define them, and the in-place program that computes them. */
module Sha256 {
  import opened Aes

  type word = bv32

  // ---- FIPS 180-4, section 4.1.2: the functions, with their rotations written out ----

  function Ch(x: word, y: word, z: word): word { (x & y) ^ (!x & z) }
  function Maj(x: word, y: word, z: word): word { (x & y) ^ (x & z) ^ (y & z) }

  function BigSigma0(x: word): word {
    ((x >> 2) | (x << 30)) ^ ((x >> 13) | (x << 19)) ^ ((x >> 22) | (x << 10))
  }

  function BigSigma1(x: word): word {
    ((x >> 6) | (x << 26)) ^ ((x >> 11) | (x << 21)) ^ ((x >> 25) | (x << 7))
  }

  function Sigma0(x: word): word {
    ((x >> 7) | (x << 25)) ^ ((x >> 18) | (x << 14)) ^ (x >> 3)
  }

  function Sigma1(x: word): word {
    ((x >> 17) | (x << 15)) ^ ((x >> 19) | (x << 13)) ^ (x >> 10)
  }

  /** Addition modulo 2^32. */
  function Plus(a: word, b: word): word { a + b }
  function SumOf(a: word, b: word, c: word, d: word): word { a + b + c + d }

  // ---- sections 4.2.2 and 5.3.3: the constants ----

  function Pick(i: nat, c0: word, c1: word, c2: word, c3: word, c4: word, c5: word, c6: word, c7: word): word {
    match i
    case 0 => c0 case 1 => c1 case 2 => c2 case 3 => c3 case 4 => c4 case 5 => c5 case 6 => c6 case _ => c7
  }

  /** Round constant `t`. */
  function K(t: nat): word {
    var i := t % 8;
    match t / 8
    case 0 => Pick(i, 0x428a2f98, 0x71374491, 0xb5c0fbcf, 0xe9b5dba5, 0x3956c25b, 0x59f111f1, 0x923f82a4, 0xab1c5ed5)
    case 1 => Pick(i, 0xd807aa98, 0x12835b01, 0x243185be, 0x550c7dc3, 0x72be5d74, 0x80deb1fe, 0x9bdc06a7, 0xc19bf174)
    case 2 => Pick(i, 0xe49b69c1, 0xefbe4786, 0x0fc19dc6, 0x240ca1cc, 0x2de92c6f, 0x4a7484aa, 0x5cb0a9dc, 0x76f988da)
    case 3 => Pick(i, 0x983e5152, 0xa831c66d, 0xb00327c8, 0xbf597fc7, 0xc6e00bf3, 0xd5a79147, 0x06ca6351, 0x14292967)
    case 4 => Pick(i, 0x27b70a85, 0x2e1b2138, 0x4d2c6dfc, 0x53380d13, 0x650a7354, 0x766a0abb, 0x81c2c92e, 0x92722c85)
    case 5 => Pick(i, 0xa2bfe8a1, 0xa81a664b, 0xc24b8b70, 0xc76c51a3, 0xd192e819, 0xd6990624, 0xf40e3585, 0x106aa070)
    case 6 => Pick(i, 0x19a4c116, 0x1e376c08, 0x2748774c, 0x34b0bcb5, 0x391c0cb3, 0x4ed8aa4a, 0x5b9cca4f, 0x682e6ff3)
    case _ => Pick(i, 0x748f82ee, 0x78a5636f, 0x84c87814, 0x8cc70208, 0x90befffa, 0xa4506ceb, 0xbef9a3f7, 0xc67178f2)
  }

  datatype Hash = Hash(a: word, b: word, c: word, d: word, e: word, f: word, g: word, h: word)

  const InitialHash := Hash(0x6a09e667, 0xbb67ae85, 0x3c6ef372, 0xa54ff53a, 0x510e527f, 0x9b05688c, 0x1f83d9ab,
    0x5be0cd19)

  // ---- section 6.2.2: one block ----

  type Chunk = b: seq<byte> | |b| == 64 witness seq(64, _ => 0)

  /** A big-endian word. */
  function WordOf(b0: byte, b1: byte, b2: byte, b3: byte): word {
    (b0 as word << 24) | (b1 as word << 16) | (b2 as word << 8) | (b3 as word)
  }

  /** Word t of the message schedule. */
  function Schedule(m: Chunk, t: nat): word {
    if t < 16 then WordOf(m[4 * t], m[4 * t + 1], m[4 * t + 2], m[4 * t + 3])
    else SumOf(Sigma1(Schedule(m, t - 2)), Schedule(m, t - 7), Sigma0(Schedule(m, t - 15)), Schedule(m, t - 16))
  }

  function Round(s: Hash, k: word, w: word): Hash {
    var t1 := Plus(Plus(Plus(Plus(s.h, BigSigma1(s.e)), Ch(s.e, s.f, s.g)), k), w);
    var t2 := Plus(BigSigma0(s.a), Maj(s.a, s.b, s.c));
    Hash(Plus(t1, t2), s.a, s.b, s.c, Plus(s.d, t1), s.e, s.f, s.g)
  }

  /** The working variables after `n` rounds. */
  function Working(h: Hash, m: Chunk, n: nat): Hash
    requires n <= 64
  {
    if n == 0 then h else Round(Working(h, m, n - 1), K(n - 1), Schedule(m, n - 1))
  }

  function Compress(h: Hash, m: Chunk): Hash {
    var v := Working(h, m, 64);
    Hash(Plus(v.a, h.a), Plus(v.b, h.b), Plus(v.c, h.c), Plus(v.d, h.d), Plus(v.e, h.e), Plus(v.f, h.f),
      Plus(v.g, h.g), Plus(v.h, h.h))
  }

  // ---- sections 5.1.1 and 6.2: messages ----

  function ByteOf(n: nat): byte {
    (n % 256) as byte
  }

  /** A 64-bit number, big end first. */
  function Be64(n: nat): (b: seq<byte>)
    ensures |b| == 8
  {
    [ByteOf(n / 0x100_0000_0000_0000), ByteOf(n / 0x1_0000_0000_0000), ByteOf(n / 0x100_0000_0000),
      ByteOf(n / 0x1_0000_0000),
     ByteOf(n / 0x100_0000), ByteOf(n / 0x1_0000), ByteOf(n / 0x100), ByteOf(n)]
  }

  function Zeros(n: nat): (b: seq<byte>)
    ensures |b| == n
  {
    seq(n, _ => 0)
  }

  /** A one bit, zeros up to 56 modulo 64, and the length in bits. */
  function Pad(msg: seq<byte>): seq<byte> {
    msg + [0x80] + Zeros((119 - |msg| % 64) % 64) + Be64(8 * |msg|)
  }

  /** Padded messages are whole blocks. */
  lemma PadIsWhole(msg: seq<byte>)
    ensures |Pad(msg)| % 64 == 0
  {
    hide Be64, Zeros;
    PadLength(|msg|);
  }

  lemma PadLength(n: nat)
    ensures (n + 1 + (119 - n % 64) % 64 + 8) % 64 == 0
  {
    var q, r := n / 64, n % 64;
    var z := if r <= 55 then 55 - r else 119 - r;
    assert (119 - r) % 64 == z;
    assert n + 1 + z + 8 == 64 * (q + if r <= 55 then 1 else 2);
  }

  function HashChunks(h: Hash, b: seq<byte>): Hash
    requires |b| % 64 == 0
    decreases |b|
  {
    hide Compress;
    if b == [] then h else
    OneBlockLess(|b|);
    HashChunks(Compress(h, b[..64]), b[64..])
  }

  lemma OneBlockLess(n: nat)
    requires n % 64 == 0 && n > 0
    ensures n >= 64 && (n - 64) % 64 == 0
  {
  }

  function WordBytes(w: word): (b: seq<byte>)
    ensures |b| == 4
  {
    [(w >> 24) as byte, ((w >> 16) & 0xff) as byte, ((w >> 8) & 0xff) as byte, (w & 0xff) as byte]
  }

  function Digest(h: Hash): (b: seq<byte>)
    ensures |b| == 32
  {
    seq(32, i requires 0 <= i < 32 => WordBytes(HashWord(h, i / 4))[i % 4])
  }

  function HashWord(h: Hash, i: nat): word {
    match i
    case 0 => h.a case 1 => h.b case 2 => h.c case 3 => h.d
    case 4 => h.e case 5 => h.f case 6 => h.g case _ => h.h
  }

  function Sha(msg: seq<byte>): (b: seq<byte>)
    ensures |b| == 32
  {
    PadIsWhole(msg);
    Digest(HashChunks(InitialHash, Pad(msg)))
  }

  // ---- RFC 2104, section 2 ----

  function XorWith(k: seq<byte>, b: byte): (r: seq<byte>)
    ensures |r| == |k|
  {
    seq(|k|, i requires 0 <= i < |k| => Add(k[i], b))
  }

  /** HMAC with a key that was already padded to a block. */
  function Hmac(key: Chunk, text: seq<byte>): (b: seq<byte>)
    ensures |b| == 32
  {
    Sha(XorWith(key, 0x5c) + Sha(XorWith(key, 0x36) + text))
  }

  /** A message of one full block and a short rest takes two compressions. */
  lemma ShaOfTwo(first: Chunk, rest: seq<byte>)
    requires |rest| <= 55
    ensures |rest + [0x80] + Zeros(55 - |rest|) + Be64(8 * (64 + |rest|))| == 64
    ensures Sha(first + rest) ==
      Digest(Compress(Compress(InitialHash, first), rest + [0x80] + Zeros(55 - |rest|) + Be64(8 * (64 + |rest|))))
  {
    hide Compress, Digest, Be64;
    var second := rest + [0x80] + Zeros(55 - |rest|) + Be64(8 * (64 + |rest|));
    assert (64 + |rest|) % 64 == |rest| && (119 - |rest|) % 64 == 55 - |rest|;
    assert Pad(first + rest) == first + second;
    assert (first + second)[..64] == first && (first + second)[64..] == second;
    assert second[..64] == second && second[64..] == [];
    OneChunk(Compress(InitialHash, first), second);
  }

  lemma OneChunk(h: Hash, b: Chunk)
    ensures HashChunks(h, b) == Compress(h, b)
  {
    hide Compress;
    assert b[..64] == b && b[64..] == [];
  }

  // ---- the program ----

  /** The working variables as the array `tv` holds them. */
  ghost function HashIn(a: seq<word>): Hash
    requires |a| == 8
  {
    Hash(a[0], a[1], a[2], a[3], a[4], a[5], a[6], a[7])
  }

  class Sha256Buff {
    const h: array<word>
    const w: array<word>
    const tv: array<word>

    ghost predicate Valid() {
      h.Length == 8 && w.Length == 64 && tv.Length == 8 && h != w && h != tv && w != tv
    }

    ghost function State(): Hash
      requires Valid()
      reads h
    {
      HashIn(h[..])
    }

    constructor ()
      ensures Valid() && fresh(h) && fresh(w) && fresh(tv)
    {
      h := new word[8](_ => 0);
      w := new word[64](_ => 0);
      tv := new word[8](_ => 0);
    }

    /** sha256_init. */
    method Init()
      requires Valid()
      modifies h
      ensures State() == InitialHash
    {
      h[0] := 0x6a09e667;
      h[1] := 0xbb67ae85;
      h[2] := 0x3c6ef372;
      h[3] := 0xa54ff53a;
      h[4] := 0x510e527f;
      h[5] := 0x9b05688c;
      h[6] := 0x1f83d9ab;
      h[7] := 0x5be0cd19;
    }

    /** The message schedule, in place. */
    method Expand(b: array<byte>)
      requires Valid() && b.Length == 64
      modifies w
      ensures forall t :: 0 <= t < 64 ==> w[t] == Schedule(b[..], t)
    {
      hide SumOf, Sigma0, Sigma1, WordOf;
      for i := 0 to 16
        invariant forall t :: 0 <= t < i ==> w[t] == Schedule(b[..], t)
      {
        w[i] := WordOf(b[4 * i], b[4 * i + 1], b[4 * i + 2], b[4 * i + 3]);
      }
      for i := 16 to 64
        invariant forall t :: 0 <= t < i ==> w[t] == Schedule(b[..], t)
      {
        var s0 := Sigma0(w[i - 15]);
        var s1 := Sigma1(w[i - 2]);
        SumTurnsAround(w[i - 16], s0, w[i - 7], s1);
        w[i] := SumOf(w[i - 16], s0, w[i - 7], s1);
      }
    }

    /** One of the 64 rounds, in place. */
    method RoundIn(i: nat)
      requires Valid() && i < 64
      modifies tv
      ensures HashIn(tv[..]) == Round(old(HashIn(tv[..])), K(i), w[i])
    {
      hide Plus, BigSigma0, BigSigma1, Ch, Maj, K;
      var s1 := BigSigma1(tv[4]);
      var ch := Ch(tv[4], tv[5], tv[6]);
      var temp1 := Plus(Plus(Plus(Plus(tv[7], s1), ch), K(i)), w[i]);
      var s0 := BigSigma0(tv[0]);
      var maj := Maj(tv[0], tv[1], tv[2]);
      var temp2 := Plus(s0, maj);
      tv[7] := tv[6];
      tv[6] := tv[5];
      tv[5] := tv[4];
      tv[4] := Plus(tv[3], temp1);
      tv[3] := tv[2];
      tv[2] := tv[1];
      tv[1] := tv[0];
      tv[0] := Plus(temp1, temp2);
    }

    method CopyIn()
      requires Valid()
      modifies tv
      ensures tv[..] == h[..]
    {
      for i := 0 to 8
        invariant forall m :: 0 <= m < i ==> tv[m] == h[m]
      {
        tv[i] := h[i];
      }
    }

    method AddBack()
      requires Valid()
      modifies h
      ensures forall m :: 0 <= m < 8 ==> h[m] == Plus(tv[m], old(h[m]))
    {
      hide Plus;
      for i := 0 to 8
        invariant forall m :: 0 <= m < 8 ==> h[m] == if m < i then Plus(tv[m], old(h[m])) else old(h[m])
      {
        PlusTurns(h[i], tv[i]);
        h[i] := Plus(h[i], tv[i]);
      }
    }

    method AllRounds(ghost m: Chunk)
      requires Valid() && forall t :: 0 <= t < 64 ==> w[t] == Schedule(m, t)
      modifies tv
      ensures HashIn(tv[..]) == Working(old(HashIn(tv[..])), m, 64)
    {
      hide Round, Schedule, K, HashIn;
      for i := 0 to 64
        invariant HashIn(tv[..]) == Working(old(HashIn(tv[..])), m, i)
      {
        RoundIn(i);
      }
    }

    /** sha256_calc_chunk. */
    method CalcChunk(b: array<byte>)
      requires Valid() && b.Length == 64
      modifies h, w, tv
      ensures State() == Compress(old(State()), b[..])
    {
      hide Plus, Working, Schedule;
      Expand(b);
      CopyIn();
      AllRounds(b[..]);
      AddBack();
    }

    /** sha256_final: overwrites `data`, and does nothing at all past 55 bytes. */
    method Final(data: array<byte>, dataLen: nat, totalLen: nat) returns (ok: bool)
      requires Valid() && data.Length == 64
      modifies h, w, tv, data
      ensures ok <==> dataLen <= 55
      ensures ok ==> State() == Compress(old(State()), FinalChunk(old(data[..]), dataLen, totalLen))
      ensures !ok ==> State() == old(State()) && data[..] == old(data[..])
    {
      hide Compress, Be64;
      if dataLen > 55 {
        return false;
      }
      data[dataLen] := 0x80;
      var size := Be64(8 * totalLen);
      for i := 0 to 8
        invariant State() == old(State())
        invariant forall m :: 0 <= m < 64 ==>
          data[m] == if 56 <= m < 56 + i then size[m - 56] else if m == dataLen then 0x80 else old(data[m])
      {
        data[56 + i] := size[i];
      }
      assert data[..] == FinalChunk(old(data[..]), dataLen, totalLen);
      CalcChunk(data);
      return true;
    }

    /** sha256_read. */
    method Read(hash: array<byte>)
      requires Valid() && hash.Length == 64
      modifies hash
      ensures hash[..] == Digest(State()) + old(hash[32..])
    {
      hide WordBytes, Digest;
      for i := 0 to 8
        invariant forall m :: 0 <= m < 64 ==> hash[m] == if m < 4 * i then Digest(State())[m] else old(hash[m])
      {
        DigestAt(h[..], i);
        var b := WordBytes(h[i]);
        hash[4 * i], hash[4 * i + 1], hash[4 * i + 2], hash[4 * i + 3] := b[0], b[1], b[2], b[3];
      }
    }

    /** sha256_hmac: the key is masked in place and comes back as it was; the result is zero-padded. */
    method HmacIn(key: array<byte>, data: array<byte>, dataLen: nat)
      requires Valid() && key.Length == 64 && data.Length == 64 && key != data
      requires dataLen <= 55 && forall m :: dataLen <= m < 64 ==> data[m] == 0
      modifies h, w, tv, key, data
      ensures key[..] == old(key[..])
      ensures data[..] == Hmac(old(key[..]), old(data[..dataLen])) + Zeros(32)
    {
      hide Compress, Digest, XorWith, FinalChunk, Be64, Sha;
      ghost var k, text := key[..], data[..dataLen];
      Init();
      XorBlock(key, 0x36);
      CalcChunk(key);
      XorBlock(key, 0x36 ^ 0x5c);
      MaskSwaps(k);
      FinalIs(data[..], dataLen, 64 + dataLen);
      ShaOfTwo(XorWith(k, 0x36), text);
      var _ := Final(data, dataLen, dataLen + 64);
      Clear(data);
      Read(data);
      ghost var inner := Sha(XorWith(k, 0x36) + text);
      Init();
      CalcChunk(key);
      XorBlock(key, 0x5c);
      MaskBack(k);
      assert data[..32] == inner && forall m :: 32 <= m < 64 ==> data[m] == 0;
      FinalIs(data[..], 32, 96);
      ShaOfTwo(XorWith(k, 0x5c), inner);
      var _ := Final(data, 32, 32 + 64);
      Clear(data);
      Read(data);
    }
  }

  /** The last block as the program builds it. */
  function FinalChunk(data: Chunk, dataLen: nat, totalLen: nat): Chunk
    requires dataLen <= 55
  {
    data[dataLen := 0x80][..56] + Be64(8 * totalLen)
  }

  lemma FinalIs(data: Chunk, n: nat, total: nat)
    requires n <= 55 && forall m :: n <= m < 64 ==> data[m] == 0
    ensures FinalChunk(data, n, total) == data[..n] + [0x80] + Zeros(55 - n) + Be64(8 * total)
  {
    hide Be64;
  }

  method XorBlock(key: array<byte>, v: byte)
    requires key.Length == 64
    modifies key
    ensures key[..] == XorWith(old(key[..]), v)
  {
    hide Add;
    for i := 0 to 64
      invariant forall m :: 0 <= m < 64 ==> key[m] == if m < i then Add(old(key[m]), v) else old(key[m])
    {
      key[i] := Add(key[i], v);
    }
  }

  method Clear(data: array<byte>)
    requires data.Length == 64
    modifies data
    ensures data[..] == Zeros(64)
  {
    for i := 0 to 64
      invariant forall m :: 0 <= m < i ==> data[m] == 0
    {
      data[i] := 0;
    }
  }

  lemma MaskSwaps(k: seq<byte>)
    ensures XorWith(XorWith(k, 0x36), 0x36 ^ 0x5c) == XorWith(k, 0x5c)
  {
    assert forall b: byte :: Add(Add(b, 0x36), 0x36 ^ 0x5c) == Add(b, 0x5c);
  }

  lemma MaskBack(k: seq<byte>)
    ensures XorWith(XorWith(k, 0x5c), 0x5c) == k
  {
    assert forall b: byte :: Add(Add(b, 0x5c), 0x5c) == b;
  }

  lemma DigestAt(h: seq<word>, i: nat)
    requires |h| == 8 && i < 8
    ensures var d, b := Digest(HashIn(h)), WordBytes(h[i]);
      d[4 * i] == b[0] && d[4 * i + 1] == b[1] && d[4 * i + 2] == b[2] && d[4 * i + 3] == b[3]
  {
    hide WordBytes, HashWord, Digest;
    WordInHash(h, i);
    DigestByte(HashIn(h), i, 0);
    DigestByte(HashIn(h), i, 1);
    DigestByte(HashIn(h), i, 2);
    DigestByte(HashIn(h), i, 3);
  }

  lemma DigestByte(h: Hash, i: nat, r: nat)
    requires i < 8 && r < 4
    ensures Digest(h)[4 * i + r] == WordBytes(HashWord(h, i))[r]
  {
    hide WordBytes, HashWord;
    assert (4 * i + r) / 4 == i && (4 * i + r) % 4 == r;
  }

  lemma WordInHash(h: seq<word>, i: nat)
    requires |h| == 8 && i < 8
    ensures HashWord(HashIn(h), i) == h[i]
  {
  }

  lemma PlusTurns(a: word, b: word)
    ensures Plus(a, b) == Plus(b, a)
  {
  }

  lemma SumTurnsAround(a: word, b: word, c: word, d: word)
    ensures SumOf(a, b, c, d) == SumOf(d, c, b, a)
  {
  }
}
