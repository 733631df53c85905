/** The long header of a QUIC version 1 Initial packet: what RFC 9000 and RFC 9001 put there, and how the program
    takes it apart and removes its protection. */
module QuicHeader {
  import opened Words
  import opened Steering
  import Interpreter
  import opened Aes
  import opened Sha256
  import opened Bytes
  import opened QuicCtr
  import opened QuicScratch

  // ---- section 16 of RFC 9000: variable-length integers ----

  predicate VarintLength(len: nat) {
    len == 1 || len == 2 || len == 4 || len == 8
  }

  /** One more than the largest value of an encoding of `len` bytes. */
  function VarintLimit(len: nat): nat {
    if len == 1 then 0x40 else if len == 2 then 0x4000 else if len == 4 then 0x4000_0000 else 0x4000_0000_0000_0000
  }

  /** The two bits that announce the length. */
  function VarintPrefix(len: nat): nat {
    if len == 1 then 0 else if len == 2 then 1 else if len == 4 then 2 else 3
  }

  function VarintEncode(v: nat, len: nat): (b: seq<byte>)
    requires VarintLength(len) && v < VarintLimit(len)
    ensures |b| == len
  {
    Digits(VarintPrefix(len) * VarintLimit(len) + v, len)
  }

  /** varint_decode of the eight bytes at hand: the value and the bytes it takes. */
  function VarintDecode(b: seq<byte>): (r: (nat, nat))
    requires |b| == 8
    ensures VarintLength(r.1) && r.0 < VarintLimit(r.1)
  {
    match N(b[0]) / 64
    case 0 => (N(b[0]) % 0x40, 1)
    case 1 => (Value(b[..2]) % 0x4000, 2)
    case 2 => (Value(b[..4]) % 0x4000_0000, 4)
    case _ => (Value(b[..8]) % 0x4000_0000_0000_0000, 8)
  }

  lemma LimitIsQuarter(len: nat)
    requires VarintLength(len)
    ensures Pow256(len) == 4 * VarintLimit(len)
  {
    Pow256Table();
  }

  /** The top digit of a number. */
  lemma {:induction false} TopDigit(n: nat, len: nat)
    requires len >= 1 && n < Pow256(len)
    ensures N(Digits(n, len)[0]) == n / Pow256(len - 1)
  {
    hide N, ByteOf;
    if len == 1 {
      NOfByte(n);
      assert Digits(n, 1) == Digits(n / 256, 0) + [ByteOf(n)];
    } else {
      TopDigit(n / 256, len - 1);
      assert Digits(n, len)[0] == Digits(n / 256, len - 1)[0];
      DivTwice(n, Pow256(len - 2));
    }
  }

  /** Quotient and remainder are unique. */
  lemma DivUnique(n: nat, d: nat, q: nat, r: nat)
    requires d > 0 && n == d * q + r && r < d
    ensures n / d == q && n % d == r
  {
    var q', r' := n / d, n % d;
    if q < q' {
      MulStep(d, q, q');
    } else if q' < q {
      MulStep(d, q', q);
    }
  }

  lemma {:induction false} MulStep(d: nat, a: nat, b: nat)
    requires a < b
    ensures d * a + d <= d * b
  {
    if b > a + 1 {
      MulStep(d, a, b - 1);
    }
    assert d * (b - 1) + d == d * b;
  }

  lemma DivTwice(n: nat, p: nat)
    requires p > 0
    ensures n / 256 / p == n / (256 * p)
  {
    var a, r1 := n / 256, n % 256;
    var b, r2 := a / p, a % p;
    assert n == 256 * (p * b + r2) + r1;
    assert 256 * (p * b) == (256 * p) * b;
    DivUnique(n, 256 * p, b, 256 * r2 + r1);
  }

  lemma PrefixSeen(prefix: nat, limit: nat, v: nat, p: nat)
    requires prefix < 4 && v < limit && limit == 64 * p && p > 0
    ensures (prefix * limit + v) / p / 64 == prefix
    ensures prefix * limit + v < 4 * limit && (prefix * limit + v) % limit == v
  {
    var n := prefix * limit + v;
    assert limit * prefix == prefix * limit;
    DivUnique(n, limit, prefix, v);
    var q, r := v / p, v % p;
    assert v == p * q + r;
    QuotientSmall(v, p, q, r);
    assert p * (64 * prefix + q) == 64 * p * prefix + p * q;
    DivUnique(n, p, 64 * prefix + q, r);
    assert (64 * prefix + q) / 64 == prefix;
    assert prefix * limit <= 3 * limit;
  }

  lemma QuotientSmall(v: nat, p: nat, q: nat, r: nat)
    requires p > 0 && v == p * q + r && v < 64 * p
    ensures q < 64
  {
    MulGrows(p, 64, q);
  }

  lemma MulGrows(d: nat, a: nat, b: nat)
    ensures a <= b ==> d * a <= d * b
  {
    if a < b {
      MulStep(d, a, b);
    }
  }

  /** Decoding undoes encoding, whichever of the four lengths was chosen and whatever follows. */
  lemma VarintRoundTrip(v: nat, len: nat, b: seq<byte>)
    requires VarintLength(len) && v < VarintLimit(len) && |b| == 8 && b[..len] == VarintEncode(v, len)
    ensures VarintDecode(b) == (v, len)
  {
    hide N, Digits, Value, Pow256;
    var n := VarintPrefix(len) * VarintLimit(len) + v;
    LimitIsQuarter(len);
    FirstPower(len);
    PrefixSeen(VarintPrefix(len), VarintLimit(len), v, Pow256(len - 1));
    TopDigit(n, len);
    assert b[0] == b[..len][0];
    ValueOfDigits(n, len);
    OneByte(b[..1]);
  }

  lemma FirstPower(len: nat)
    requires VarintLength(len)
    ensures VarintLimit(len) == 64 * Pow256(len - 1)
  {
    LimitIsQuarter(len);
  }

  lemma OneByte(b: seq<byte>)
    requires |b| == 1
    ensures Value(b) == N(b[0])
  {
    hide N;
    assert b[..0] == [];
  }

  // ---- finding the packet number ----

  /** Where the header's fields lead: an error code, a packet that is no Initial packet, or the first byte, the
      offset of the packet number and the Length field. */
  datatype Located = Bad(code: int) | NotInitial | At(first: byte, pn: nat, length: nat)

  function LocateLength(buf: seq<byte>, first: byte, p: nat): Located {
    if p + 8 > |buf| then Bad(IERR_LOAD) else
    var (length, len) := VarintDecode(buf[p..p + 8]);
    var pn := p + len;
    if pn + 20 >= |buf| then Bad(IERR_LOAD) else At(first, pn, length)
  }

  function LocateToken(buf: seq<byte>, first: byte, p: nat): Located {
    if p + 8 > |buf| then Bad(IERR_LOAD) else
    var (token, len) := VarintDecode(buf[p..p + 8]);
    if token > 255 then Bad(Interpreter.IERR_SANITY) else LocateLength(buf, first, p + len + token)
  }

  function LocateIds(buf: seq<byte>, first: byte, p: nat): Located {
    if p + 1 > |buf| then Bad(IERR_LOAD) else
    var dcidLen := N(buf[p]);
    if dcidLen < 8 || dcidLen > 20 then Bad(Interpreter.IERR_SANITY) else
    var q := p + 1 + dcidLen;
    if q + 1 > |buf| then Bad(IERR_LOAD) else LocateToken(buf, first, q + 1 + N(buf[q]))
  }

  /** The header fields from the UDP header to the packet number. */
  function Locate(buf: seq<byte>): Located {
    if 9 > |buf| then Bad(IERR_LOAD) else
    var first := buf[8];
    if first >> 4 != 0xC then NotInitial
    else if 13 > |buf| then Bad(IERR_LOAD)
    else if Value(buf[9..13]) != 1 then Bad(Interpreter.IERR_BADINSTR)
    else LocateIds(buf, first, 13)
  }

  // ---- section 17.2.2 of RFC 9000 ----

  /** The fields of an Initial packet before the packet number. The two length fields may use any encoding. */
  datatype Initial = Initial(
    udp: seq<byte>, first: byte, dcid: seq<byte>, scid: seq<byte>, tokenLen: nat, token: seq<byte>, lengthLen: nat,
      length: nat)
  {
    ghost predicate Valid() {
      && |udp| == 8 && first >> 4 == 0xC && 8 <= |dcid| <= 20 && |scid| <= 255
      && VarintLength(tokenLen) && |token| <= 255 && |token| < VarintLimit(tokenLen)
      && VarintLength(lengthLen) && length < VarintLimit(lengthLen)
    }
  }

  function LengthPart(h: Initial): seq<byte>
    requires h.Valid()
  {
    VarintEncode(h.length, h.lengthLen)
  }

  function TokenPart(h: Initial): seq<byte>
    requires h.Valid()
  {
    VarintEncode(|h.token|, h.tokenLen) + h.token + LengthPart(h)
  }

  function IdPart(h: Initial): seq<byte>
    requires h.Valid()
  {
    [ByteOf(|h.dcid|)] + h.dcid + [ByteOf(|h.scid|)] + h.scid + TokenPart(h)
  }

  /** The datagram up to the packet number. */
  function HeaderBytes(h: Initial): seq<byte>
    requires h.Valid()
  {
    h.udp + [h.first] + [0, 0, 0, 1] + IdPart(h)
  }

  /** `x` lies in `buf` at `p`. */
  ghost predicate Lies(buf: seq<byte>, p: nat, x: seq<byte>) {
    p + |x| <= |buf| && buf[p..p + |x|] == x
  }

  lemma LiesSplit(buf: seq<byte>, p: nat, x: seq<byte>, y: seq<byte>)
    requires Lies(buf, p, x + y)
    ensures Lies(buf, p, x) && Lies(buf, p + |x|, y)
  {
    assert buf[p..p + |x|] == buf[p..p + |x + y|][..|x|];
    assert buf[p + |x|..p + |x| + |y|] == buf[p..p + |x + y|][|x|..];
  }

  lemma VarintLies(buf: seq<byte>, p: nat, v: nat, len: nat)
    requires VarintLength(len) && v < VarintLimit(len) && p + 8 <= |buf| && Lies(buf, p, VarintEncode(v, len))
    ensures VarintDecode(buf[p..p + 8]) == (v, len)
  {
    hide VarintEncode, VarintDecode;
    assert buf[p..p + 8][..len] == buf[p..p + len];
    VarintRoundTrip(v, len, buf[p..p + 8]);
  }

  lemma LengthLocated(buf: seq<byte>, h: Initial, p: nat)
    requires h.Valid() && Lies(buf, p, LengthPart(h)) && p + |LengthPart(h)| + 20 < |buf|
    ensures LocateLength(buf, h.first, p) == At(h.first, p + |LengthPart(h)|, h.length)
  {
    hide VarintEncode, VarintDecode, N;
    VarintLies(buf, p, h.length, h.lengthLen);
  }

  lemma TokenLocated(buf: seq<byte>, h: Initial, p: nat)
    requires h.Valid() && Lies(buf, p, TokenPart(h)) && p + |TokenPart(h)| + 20 < |buf|
    ensures LocateToken(buf, h.first, p) == At(h.first, p + |TokenPart(h)|, h.length)
  {
    hide VarintEncode, VarintDecode, N, LengthPart, LocateLength;
    var v := VarintEncode(|h.token|, h.tokenLen);
    LiesSplit(buf, p, v + h.token, LengthPart(h));
    LiesSplit(buf, p, v, h.token);
    VarintLies(buf, p, |h.token|, h.tokenLen);
    LengthLocated(buf, h, p + |v| + |h.token|);
  }

  lemma LiesByte(buf: seq<byte>, p: nat, n: nat)
    requires Lies(buf, p, [ByteOf(n)]) && n < 256
    ensures N(buf[p]) == n
  {
    hide N, ByteOf;
    assert buf[p] == buf[p..p + 1][0];
    NOfByte(n);
  }

  lemma IdsLocated(buf: seq<byte>, h: Initial, p: nat)
    requires h.Valid() && Lies(buf, p, IdPart(h)) && p + |IdPart(h)| + 20 < |buf|
    ensures LocateIds(buf, h.first, p) == At(h.first, p + |IdPart(h)|, h.length)
  {
    hide N, ByteOf, TokenPart, LocateToken;
    var a, b := [ByteOf(|h.dcid|)], [ByteOf(|h.scid|)];
    LiesSplit(buf, p, a + h.dcid + b + h.scid, TokenPart(h));
    LiesSplit(buf, p, a + h.dcid + b, h.scid);
    LiesSplit(buf, p, a + h.dcid, b);
    LiesSplit(buf, p, a, h.dcid);
    LiesByte(buf, p, |h.dcid|);
    LiesByte(buf, p + 1 + |h.dcid|, |h.scid|);
    TokenLocated(buf, h, p + 1 + |h.dcid| + 1 + |h.scid|);
  }

  lemma SmallBytes()
    ensures N(0) == 0 && N(1) == 1
  {
  }

  lemma {:induction false} ValueOfZeros(n: nat)
    ensures Value(Zeros(n)) == 0
  {
    hide N, Value;
    if n == 0 {
      NoDigits(0);
      assert Zeros(0) == Digits(0, 0);
    } else {
      SmallBytes();
      LastDigit(Zeros(n));
      assert Zeros(n)[..n - 1] == Zeros(n - 1);
      ValueOfZeros(n - 1);
    }
  }

  lemma VersionOne()
    ensures Value([0, 0, 0, 1]) == 1
  {
    hide N, Value;
    var b: seq<byte> := [0, 0, 0, 1];
    assert b[..3] == Zeros(3);
    LastDigit(b);
    ValueOfZeros(3);
    SmallBytes();
  }

  /** The parser finds the packet number and the Length field of every Initial packet whose header, and twenty-one
      bytes after it, are in its buffer. */
  lemma HeaderLocated(buf: seq<byte>, h: Initial)
    requires h.Valid() && Lies(buf, 0, HeaderBytes(h)) && |HeaderBytes(h)| + 20 < |buf|
    ensures Locate(buf) == At(h.first, |HeaderBytes(h)|, h.length)
  {
    hide N, IdPart, LocateIds, Value;
    var one := [0, 0, 0, 1];
    LiesSplit(buf, 0, h.udp + [h.first] + one, IdPart(h));
    LiesSplit(buf, 0, h.udp + [h.first], one);
    LiesSplit(buf, 0, h.udp, [h.first]);
    assert buf[8] == buf[8..9][0] == h.first;
    VersionOne();
    IdsLocated(buf, h, 13);
  }

  // ---- section 5.4.1 of RFC 9001: header protection ----

  /** The mask that a sample of the ciphertext gives under the header protection key. */
  function HpMask(hp: Block, sample: Block): (mask: seq<byte>)
    ensures |mask| == 5
  {
    Cipher(hp, sample)[..5]
  }

  /** A long header has its low four bits masked. */
  function MaskFirst(first: byte, mask: byte): byte {
    first ^ (mask & 0x0f)
  }

  /** The length of the packet number, from the two low bits of the first byte. */
  function PnLength(first: byte): (n: nat)
    ensures 1 <= n <= 4
  {
    if first & 3 == 0 then 1 else if first & 3 == 1 then 2 else if first & 3 == 2 then 3 else 4
  }

  lemma MaskFirstTwice(first: byte, mask: byte)
    ensures MaskFirst(MaskFirst(first, mask), mask) == first
    ensures MaskFirst(first, mask) >> 4 == first >> 4
  {
  }

  /** Section 5.3 of RFC 9001: the IV xored with the left-padded packet number. */
  function Nonce(iv: seq<byte>, pn: seq<byte>): (n: seq<byte>)
    requires |iv| == 12 && |pn| <= 12
    ensures |n| == 12
  {
    Xor(iv, Zeros(12 - |pn|) + pn)
  }

  /** What the header gives in the end: the offset of the ciphertext, its length without the tag in 64-bit arithmetic,
      and the counter block. */
  datatype Opened = Opened(encOffset: nat, packetLen: nat, counter: Block)

  /** The unprotected packet number. */
  function PnOf(buf: seq<byte>, first: byte, pn: nat, mask: seq<byte>): seq<byte>
    requires |mask| == 5 && pn + 4 <= |buf|
  {
    var n := PnLength(MaskFirst(first, mask[0]));
    Xor(buf[pn..pn + n], mask[1..1 + n])
  }

  function Unprotect(buf: seq<byte>, l: Located, hp: Block, iv: Block): Opened
    requires l.At? && l.pn + 20 < |buf|
  {
    hide HpMask, MaskFirst, PnLength, Nonce, CounterAt;
    var mask := HpMask(hp, buf[l.pn + 4..l.pn + 20]);
    var n := PnLength(MaskFirst(l.first, mask[0]));
    Opened(l.pn + n, (l.length - n - 16) % TWO64, CounterAt(Nonce(iv[..12], PnOf(buf, l.first, l.pn, mask)), 1))
  }

  lemma LocatedFits(buf: seq<byte>)
    ensures Locate(buf).At? ==> Locate(buf).pn + 20 < |buf|
  {
    hide VarintDecode, N, Value;
  }

  /** The protected form of a packet: header `h` in the clear, packet number `pn`, ciphertext `body`. */
  ghost predicate IsProtected(buf: seq<byte>, h: Initial, pn: seq<byte>, body: seq<byte>, hp: Block) {
    && h.Valid() && 1 <= |pn| <= 4 && PnLength(h.first) == |pn| && |pn| + |body| >= 20
    && var mask := HpMask(hp, (pn + body)[4..20]);
       && Lies(buf, 0, HeaderBytes(h.(first := MaskFirst(h.first, mask[0]))))
       && Lies(buf, |HeaderBytes(h)|, Xor(pn, mask[1..1 + |pn|]))
       && Lies(buf, |HeaderBytes(h)| + 4, (pn + body)[4..20])
  }

  lemma SameShape(h: Initial, first: byte)
    requires h.Valid() && first >> 4 == 0xC
    ensures h.(first := first).Valid() && |HeaderBytes(h.(first := first))| == |HeaderBytes(h)|
  {
    hide N, VarintEncode, ByteOf;
  }

  /** Header protection applied: the datagram that a client sends. */
  function Protect(h: Initial, pn: seq<byte>, body: seq<byte>, hp: Block): seq<byte>
    requires h.Valid() && 1 <= |pn| <= 4 && |pn| + |body| >= 20
  {
    hide HeaderBytes, HpMask, MaskFirst;
    var mask := HpMask(hp, (pn + body)[4..20]);
    MaskFirstTwice(h.first, mask[0]);
    SameShape(h, MaskFirst(h.first, mask[0]));
    HeaderBytes(h.(first := MaskFirst(h.first, mask[0]))) + Xor(pn, mask[1..1 + |pn|]) + body
  }

  /** The protected datagram, whatever follows it, is a protected packet with its body in place. */
  lemma ProtectProtects(h: Initial, pn: seq<byte>, body: seq<byte>, hp: Block, trailing: seq<byte>)
    requires h.Valid() && 1 <= |pn| <= 4 && |pn| + |body| >= 20 && PnLength(h.first) == |pn|
    ensures IsProtected(Protect(h, pn, body, hp) + trailing, h, pn, body, hp)
    ensures Lies(Protect(h, pn, body, hp) + trailing, |HeaderBytes(h)| + |pn|, body)
  {
    hide HeaderBytes, HpMask, MaskFirst, PnLength, Add;
    var mask := HpMask(hp, (pn + body)[4..20]);
    var first := MaskFirst(h.first, mask[0]);
    MaskFirstTwice(h.first, mask[0]);
    SameShape(h, first);
    var hdr, x := HeaderBytes(h.(first := first)), Xor(pn, mask[1..1 + |pn|]);
    var data := Protect(h, pn, body, hp) + trailing;
    assert Lies(data, 0, hdr + x + body) by {
      assert data[0..|hdr + x + body|] == hdr + x + body;
    }
    LiesSplit(data, 0, hdr + x, body);
    LiesSplit(data, 0, hdr, x);
    var at := |hdr|;
    assert data[at + 4..at + 20] == body[4 - |pn|..20 - |pn|] == (pn + body)[4..20] by {
      SampleInBody(data, at, pn, body);
    }
  }

  lemma SampleInBody(data: seq<byte>, at: nat, pn: seq<byte>, body: seq<byte>)
    requires 1 <= |pn| <= 4 && |pn| + |body| >= 20 && Lies(data, at + |pn|, body)
    ensures data[at + 4..at + 20] == body[4 - |pn|..20 - |pn|] == (pn + body)[4..20]
  {
    var start := at + |pn|;
    SubSub(data, start, |body|, 4 - |pn|, 20 - |pn|);
    SubTail(pn, body, 4, 20);
  }

  /** A part of a part. */
  lemma SubSub(data: seq<byte>, p: nat, n: nat, a: nat, b: nat)
    requires p + n <= |data| && a <= b <= n
    ensures data[p..p + n][a..b] == data[p + a..p + b]
  {
    var x, y := data[p..p + n][a..b], data[p + a..p + b];
    assert |x| == |y|;
    assert forall i :: 0 <= i < |x| ==> x[i] == y[i];
  }

  lemma SubTail(x: seq<byte>, y: seq<byte>, a: nat, b: nat)
    requires |x| <= a <= b <= |x| + |y|
    ensures (x + y)[a..b] == y[a - |x|..b - |x|]
  {
  }

  /** Header round trip: for every Initial packet under header protection, the parser finds the first byte of the
      ciphertext, its length, and the counter block that starts from the nonce of that packet number. */
  lemma HeaderRoundTrip(buf: seq<byte>, h: Initial, pn: seq<byte>, body: seq<byte>, hp: Block, iv: Block)
    requires IsProtected(buf, h, pn, body, hp) && |HeaderBytes(h)| + 20 < |buf|
    ensures Locate(buf).At? && Locate(buf).pn + 20 < |buf|
    ensures Unprotect(buf, Locate(buf), hp, iv) ==
      Opened(|HeaderBytes(h)| + |pn|, (h.length - |pn| - 16) % TWO64, CounterAt(Nonce(iv[..12], pn), 1))
  {
    hide N, HeaderBytes, Locate, HpMask, MaskFirst, PnLength, CounterAt, Nonce, Add;
    var at := |HeaderBytes(h)|;
    var mask := HpMask(hp, (pn + body)[4..20]);
    var first := MaskFirst(h.first, mask[0]);
    MaskFirstTwice(h.first, mask[0]);
    SameShape(h, first);
    HeaderLocated(buf, h.(first := first));
    assert buf[at + 4..at + 20] == (pn + body)[4..20];
    assert buf[at..at + |pn|] == Xor(pn, mask[1..1 + |pn|]);
    XorTwice(pn, mask[1..1 + |pn|]);
  }

  // ---- the program ----

  const MIN_QUIC_HDR_LINEAR: nat := 192

  datatype HdrResult = HdrFail(code: int) | HdrSkip | HdrOk(hdr: Opened)

  /** The bytes that the header is parsed from: the linear part of the packet, or a copy of the first 192 bytes when the
      linear part is shorter than that. */
  function Window(data: seq<byte>, linear: nat): seq<byte>
    requires linear <= |data|
  {
    if linear < Min(|data|, MIN_QUIC_HDR_LINEAR) then data[..Min(|data|, MIN_QUIC_HDR_LINEAR)] else data[..linear]
  }

  /** What the copy leaves in the packet buffer. */
  function Copied(data: seq<byte>, linear: nat, pkt: seq<byte>): seq<byte>
    requires linear <= |data| && |pkt| == PKT_SIZE
  {
    if linear < Min(|data|, MIN_QUIC_HDR_LINEAR)
    then data[..Min(|data|, MIN_QUIC_HDR_LINEAR)] + pkt[Min(|data|, MIN_QUIC_HDR_LINEAR)..] else pkt
  }

  function ParseHdr(data: seq<byte>, linear: nat, hp: Block, iv: Block): HdrResult
    requires linear <= |data|
  {
    var buf := Window(data, linear);
    LocatedFits(buf);
    match Locate(buf)
    case Bad(code) => HdrFail(code)
    case NotInitial => HdrSkip
    case At(first, pn, length) => HdrOk(Unprotect(buf, Locate(buf), hp, iv))
  }

  /** The fields of the header, read one after the other. */
  method Locating(buf: seq<byte>) returns (l: Located)
    ensures l == Locate(buf)
  {
    hide VarintDecode, N, Value;
    var pos := 8;
    if pos + 1 > |buf| {
      return Bad(IERR_LOAD);
    }
    var hdr := buf[pos];
    pos := pos + 1;
    if hdr >> 4 != 0xC {
      return NotInitial;
    }
    if pos + 4 > |buf| {
      return Bad(IERR_LOAD);
    }
    var version := Value(buf[pos..pos + 4]);
    pos := pos + 4;
    if version != 1 {
      return Bad(Interpreter.IERR_BADINSTR);
    }
    if pos + 1 > |buf| {
      return Bad(IERR_LOAD);
    }
    var dcidLen := N(buf[pos]);
    pos := pos + 1;
    if dcidLen < 8 || dcidLen > 20 {
      return Bad(Interpreter.IERR_SANITY);
    }
    pos := pos + dcidLen;
    if pos + 1 > |buf| {
      return Bad(IERR_LOAD);
    }
    var scidLen := N(buf[pos]);
    pos := pos + 1;
    pos := pos + scidLen;
    if pos + 8 > |buf| {
      return Bad(IERR_LOAD);
    }
    var (tokenLen, tokenLenLen) := VarintDecode(buf[pos..pos + 8]);
    if tokenLenLen > 8 || tokenLen > 255 {
      return Bad(Interpreter.IERR_SANITY);
    }
    pos := pos + tokenLenLen;
    pos := pos + tokenLen;
    if pos + 8 > |buf| {
      return Bad(IERR_LOAD);
    }
    var (packetLen, packetLenLen) := VarintDecode(buf[pos..pos + 8]);
    if packetLenLen > 255 {
      return Bad(IERR_LOAD);
    }
    pos := pos + packetLenLen;
    if pos + 20 >= |buf| {
      return Bad(IERR_LOAD);
    }
    return At(hdr, pos, packetLen);
  }

  /** compute_hp_mask: the round keys are those of the header protection key afterwards. */
  method ComputeHpMask(s: Scratch, sample: seq<byte>) returns (mask: seq<byte>)
    requires s.Valid() && |sample| == 16
    modifies s.Shared()
    ensures |mask| == 5 && mask == HpMask(s.quicHp[..], sample)
  {
    hide Cipher, Scheduled;
    var block := new byte[16](i requires 0 <= i < 16 => if i < |sample| then sample[i] else 0);
    assert block[..] == sample;
    s.aes.KeyExpand(s.quicHp);
    s.aes.EcbEncrypt(block);
    mask := block[..5];
  }

  /** A little-endian load of four bytes. */
  function Le32(b0: byte, b1: byte, b2: byte, b3: byte): bv32 {
    (b0 as bv32) | (b1 as bv32 << 8) | (b2 as bv32 << 16) | (b3 as bv32 << 24)
  }

  function LeByte(w: bv32, i: nat): byte {
    if i == 0 then (w & 0xff) as byte
    else if i == 1 then ((w >> 8) & 0xff) as byte
    else if i == 2 then ((w >> 16) & 0xff) as byte
    else (w >> 24) as byte
  }

  /** The packet number as the program shifts it into place. */
  function ShiftPn(pno: bv32, n: nat): bv32 {
    if n == 1 then (pno & 0xff) << 24
    else if n == 2 then (pno & 0xffff) << 16
    else if n == 3 then (pno & 0xff_ffff) << 8
    else pno
  }

  lemma ShiftOne(b0: byte, b1: byte, b2: byte, b3: byte)
    ensures var w := ShiftPn(Le32(b0, b1, b2, b3), 1);
      LeByte(w, 0) == 0 && LeByte(w, 1) == 0 && LeByte(w, 2) == 0 && LeByte(w, 3) == b0
  {
  }

  lemma ShiftTwo(b0: byte, b1: byte, b2: byte, b3: byte)
    ensures var w := ShiftPn(Le32(b0, b1, b2, b3), 2);
      LeByte(w, 0) == 0 && LeByte(w, 1) == 0 && LeByte(w, 2) == b0 && LeByte(w, 3) == b1
  {
  }

  lemma ShiftThree(b0: byte, b1: byte, b2: byte, b3: byte)
    ensures var w := ShiftPn(Le32(b0, b1, b2, b3), 3);
      LeByte(w, 0) == 0 && LeByte(w, 1) == b0 && LeByte(w, 2) == b1 && LeByte(w, 3) == b2
  {
  }

  lemma ShiftFour(b0: byte, b1: byte, b2: byte, b3: byte)
    ensures var w := ShiftPn(Le32(b0, b1, b2, b3), 4);
      LeByte(w, 0) == b0 && LeByte(w, 1) == b1 && LeByte(w, 2) == b2 && LeByte(w, 3) == b3
  {
  }

  lemma Le32Xor(a0: byte, a1: byte, a2: byte, a3: byte, b0: byte, b1: byte, b2: byte, b3: byte)
    ensures Le32(a0, a1, a2, a3) ^ Le32(b0, b1, b2, b3) == Le32(Add(a0, b0), Add(a1, b1), Add(a2, b2), Add(a3, b3))
  {
  }

  /** Byte `i` of a packet number right-aligned in four bytes. */
  function AlignedByte(pn: seq<byte>, i: nat): byte
    requires |pn| <= 4 && i < 4
  {
    if i < 4 - |pn| then 0 else pn[i - (4 - |pn|)]
  }

  lemma AlignedIs(b0: byte, b1: byte, b2: byte, b3: byte, n: nat, i: nat)
    requires 1 <= n <= 4 && i < 4
    ensures AlignedByte([b0, b1, b2, b3][..n], i) ==
      if i + n < 4 then 0 else if i + n == 4 then b0 else if i + n == 5 then b1 else if i + n == 6 then b2 else b3
  {
  }

  lemma ShiftAligns(b0: byte, b1: byte, b2: byte, b3: byte, n: nat, i: nat)
    requires 1 <= n <= 4 && i < 4
    ensures LeByte(ShiftPn(Le32(b0, b1, b2, b3), n), i) == AlignedByte([b0, b1, b2, b3][..n], i)
  {
    hide Le32, LeByte, ShiftPn, AlignedByte;
    AlignedIs(b0, b1, b2, b3, n, i);
    if n == 1 {
      ShiftOne(b0, b1, b2, b3);
    } else if n == 2 {
      ShiftTwo(b0, b1, b2, b3);
    } else if n == 3 {
      ShiftThree(b0, b1, b2, b3);
    } else {
      ShiftFour(b0, b1, b2, b3);
    }
  }

  lemma NonceByte(iv: seq<byte>, pn: seq<byte>, i: nat)
    requires |iv| == 12 && |pn| <= 4 && i < 12
    ensures Nonce(iv, pn)[i] == if i < 8 then iv[i] else Add(iv[i], AlignedByte(pn, i - 8))
  {
    hide Add;
    AddZero(iv[i]);
  }

  lemma AddZero(a: byte)
    ensures Add(a, 0) == a
  {
  }

  lemma CounterOne(nonce: seq<byte>)
    requires |nonce| == 12
    ensures CounterAt(nonce, 1) == nonce + [0, 0, 0, 1]
  {
    assert Digits(1, 1) == Digits(0, 0) + [ByteOf(1)];
    assert Digits(0, 1) == Digits(0, 0) + [ByteOf(0)];
    assert Digits(0, 2) == Digits(0, 1) + [ByteOf(0)];
    assert Digits(0, 3) == Digits(0, 2) + [ByteOf(0)];
    assert Digits(1, 4) == Digits(0, 3) + [ByteOf(1)];
    assert ByteOf(0) == 0 && ByteOf(1) == 1;
  }

  /** The nonce and the counter, written over the IV. */
  method MakeCounter(s: Scratch, pno: bv32, ghost pn: seq<byte>)
    requires s.Valid() && |pn| <= 4 && forall i: nat :: i < 4 ==> LeByte(pno, i) == AlignedByte(pn, i)
    modifies s.quicIv
    ensures s.quicIv[..] == CounterAt(Nonce(old(s.quicIv[..12]), pn), 1)
  {
    hide LeByte, Add, CounterAt, Nonce, AlignedByte;
    ghost var iv := s.quicIv[..12];
    for i := 0 to 4
      invariant forall m :: 0 <= m < 12 ==>
        s.quicIv[m] == if 8 <= m < 8 + i then Add(iv[m], AlignedByte(pn, m - 8)) else iv[m]
    {
      s.quicIv[8 + i] := Add(s.quicIv[8 + i], LeByte(pno, i));
    }
    s.quicIv[12], s.quicIv[13], s.quicIv[14], s.quicIv[15] := 0, 0, 0, 1;
    CounterOne(Nonce(iv, pn));
    forall m | 0 <= m < 12 ensures s.quicIv[m] == Nonce(iv, pn)[m] {
      NonceByte(iv, pn, m);
    }
  }

  lemma PnBytes(buf: seq<byte>, first: byte, pn: nat, mask: seq<byte>)
    requires |mask| == 5 && pn + 4 <= |buf|
    ensures PnOf(buf, first, pn, mask) ==
      [Add(buf[pn], mask[1]), Add(buf[pn + 1], mask[2]), Add(buf[pn + 2], mask[3]),
        Add(buf[pn + 3], mask[4])][..PnLength(MaskFirst(first, mask[0]))]
  {
    hide Add, MaskFirst, PnLength;
  }

  /** The protection is removed and the counter block made. */
  method RemoveProtection(s: Scratch, buf: seq<byte>, l: Located) returns (o: Opened)
    requires s.Valid() && l.At? && l.pn + 20 < |buf|
    modifies s.Shared(), s.quicIv
    ensures o == Unprotect(buf, l, s.quicHp[..], old(s.quicIv[..])) && s.quicIv[..] == o.counter
  {
    hide HpMask, MaskFirst, PnLength, CounterAt, Nonce, Le32, LeByte, ShiftPn, Add;
    var pn := l.pn;
    var mask := ComputeHpMask(s, buf[pn + 4..pn + 20]);
    var hdr := MaskFirst(l.first, mask[0]);
    var pno := Le32(buf[pn], buf[pn + 1], buf[pn + 2], buf[pn + 3]) ^ Le32(mask[1], mask[2], mask[3], mask[4]);
    Le32Xor(buf[pn], buf[pn + 1], buf[pn + 2], buf[pn + 3], mask[1], mask[2], mask[3], mask[4]);
    var pnLen := PnLength(hdr);
    ghost var b0, b1, b2, b3 := Add(buf[pn], mask[1]), Add(buf[pn + 1], mask[2]), Add(buf[pn + 2], mask[3]),
      Add(buf[pn + 3], mask[4]);
    pno := ShiftPn(pno, pnLen);
    forall i: nat | i < 4 ensures LeByte(pno, i) == AlignedByte([b0, b1, b2, b3][..pnLen], i) {
      ShiftAligns(b0, b1, b2, b3, pnLen, i);
    }
    PnBytes(buf, l.first, pn, mask);
    MakeCounter(s, pno, PnOf(buf, l.first, pn, mask));
    return Opened(pn + pnLen, (l.length - pnLen - 16) % TWO64, s.quicIv[..]);
  }

  /** quic_parse_hdr. */
  method QuicParseHdr(s: Scratch, data: seq<byte>, linear: nat) returns (r: HdrResult)
    requires s.Valid() && linear <= |data|
    modifies s.Shared(), s.quicIv, s.pkt
    ensures r == ParseHdr(data, linear, s.quicHp[..], old(s.quicIv[..]))
    ensures s.pkt[..] == Copied(data, linear, old(s.pkt[..]))
    ensures r.HdrOk? ==> s.quicIv[..] == r.hdr.counter
  {
    hide Locate, Unprotect;
    var buf := data[..linear];
    if linear < Min(|data|, MIN_QUIC_HDR_LINEAR) {
      var sz := |data|;
      if sz < 1 {
        return HdrFail(Interpreter.IERR_SANITY);
      }
      if sz > MIN_QUIC_HDR_LINEAR {
        sz := MIN_QUIC_HDR_LINEAR;
      }
      LoadBytes(s.pkt, data, 0, sz);
      buf := s.pkt[..sz];
      assert buf == data[..sz];
    }
    LocatedFits(buf);
    var l := Locating(buf);
    match l
    case Bad(code) => return HdrFail(code);
    case NotInitial => return HdrSkip;
    case At(_, _, _) =>
      var o := RemoveProtection(s, buf, l);
      return HdrOk(o);
  }

  /** bpf_skb_load_bytes into the packet buffer. */
  method LoadBytes(pkt: array<byte>, data: seq<byte>, at: nat, n: nat)
    requires n <= pkt.Length && at + n <= |data|
    modifies pkt
    ensures pkt[..] == data[at..at + n] + old(pkt[n..])
  {
    for i := 0 to n
      invariant forall m :: 0 <= m < pkt.Length ==> pkt[m] == if m < i then data[at + m] else old(pkt[m])
    {
      pkt[i] := data[at + i];
    }
  }
}
