/** The ClientHello message inside a CRYPTO frame: how section 4.1.2 of RFC 8446 writes it, and how the program walks
    over it to the server name. */
module ClientHello {
  import opened Words
  import opened Steering
  import Interpreter
  import opened Aes
  import opened Sha256
  import opened Bytes
  import opened QuicScratch
  import opened QuicHeader

  const MAX_EXTENSIONS: nat := 32

  // ---- what the parser computes ----

  /** An error or "nothing found" with its code, or the place and length of the server name extension's body. */
  datatype Found = Nothing(code: int) | Name(at: nat, len: nat)

  function U16(buf: seq<byte>, p: nat): nat
    requires p + 2 <= |buf|
  {
    Value(buf[p..p + 2])
  }

  /** The extensions from `p` on, `left` of them at most. */
  function Extensions(buf: seq<byte>, p: nat, end: nat, left: nat): Found
    decreases left
  {
    if left == 0 || p >= end then Nothing(IERR_OK)
    else if p + 2 > |buf| then Nothing(IERR_LOAD)
    else if p + 4 > |buf| then Nothing(IERR_LOAD)
    else if U16(buf, p) == 0 then
      if p + 4 + SNI_SIZE > |buf| then Nothing(IERR_LOAD) else Name(p + 4, U16(buf, p + 2))
    else Extensions(buf, p + 4 + U16(buf, p + 2), end, left - 1)
  }

  /** From the session id on. */
  function AfterRandom(buf: seq<byte>, p: nat): Found {
    if p + 1 > |buf| then Nothing(IERR_LOAD) else
    var q := p + 1 + N(buf[p]);
    if q + 2 > |buf| then Nothing(IERR_LOAD) else
    var c := q + 2 + U16(buf, q);
    if c + 1 > |buf| then Nothing(IERR_LOAD) else
    var x := c + 1 + N(buf[c]);
    if x + 2 > |buf| then Nothing(IERR_LOAD) else
    Extensions(buf, x + 2, x + 2 + U16(buf, x), MAX_EXTENSIONS)
  }

  /** The handshake message. */
  function Handshake(buf: seq<byte>, p: nat): Found {
    if p + 1 > |buf| then Nothing(IERR_LOAD)
    else if buf[p] != 0x1 then Nothing(Interpreter.IERR_SANITY)
    else if p + 4 > |buf| then Nothing(IERR_LOAD)
    else if p + 6 > |buf| then Nothing(IERR_LOAD)
    else AfterRandom(buf, p + 38)
  }

  /** The CRYPTO frame. */
  function ParseHello(buf: seq<byte>): Found {
    if 1 > |buf| then Nothing(IERR_LOAD)
    else if buf[0] != 0x6 then Nothing(IERR_OK)
    else if 9 > |buf| then Nothing(IERR_LOAD)
    else
      var p := 1 + VarintDecode(buf[1..9]).1;
      if p + 8 > |buf| then Nothing(IERR_LOAD) else Handshake(buf, p + VarintDecode(buf[p..p + 8]).1)
  }

  // ---- what a client writes ----

  datatype Extension = Extension(typ: nat, body: seq<byte>)

  ghost predicate ExtensionsValid(exts: seq<Extension>) {
    forall i :: 0 <= i < |exts| ==> exts[i].typ < 0x1_0000 && |exts[i].body| < 0x1_0000
  }

  function ExtensionBytes(e: Extension): (b: seq<byte>)
    ensures |b| == 4 + |e.body|
  {
    Digits(e.typ, 2) + Digits(|e.body|, 2) + e.body
  }

  function ExtensionList(exts: seq<Extension>): seq<byte> {
    if exts == [] then [] else ExtensionBytes(exts[0]) + ExtensionList(exts[1..])
  }

  datatype Hello = Hello(
    version: seq<byte>, random: seq<byte>, session: seq<byte>, ciphers: seq<byte>, compression: seq<byte>,
      extensions: seq<Extension>)
  {
    ghost predicate Valid() {
      && |version| == 2 && |random| == 32 && |session| < 256 && |ciphers| < 0x1_0000 && |compression| < 256
      && ExtensionsValid(extensions) && |ExtensionList(extensions)| < 0x1_0000
    }
  }

  function SuitesPart(h: Hello): seq<byte> {
    Digits(|h.ciphers|, 2) + h.ciphers + CompressionPart(h)
  }

  function Body(h: Hello): seq<byte> {
    h.version + h.random + ([ByteOf(|h.session|)] + h.session + SuitesPart(h))
  }

  /** The handshake message: type, 24-bit length, body. */
  function HelloBytes(h: Hello): seq<byte> {
    [0x01] + Digits(|Body(h)|, 3) + Body(h)
  }

  /** Section 19.6 of RFC 9000: a CRYPTO frame at offset 0. */
  function CryptoFrame(h: Hello, offsetLen: nat, lengthLen: nat): seq<byte>
    requires VarintLength(offsetLen) && VarintLength(lengthLen) && |HelloBytes(h)| < VarintLimit(lengthLen)
  {
    [0x06] + VarintEncode(0, offsetLen) + VarintEncode(|HelloBytes(h)|, lengthLen) + HelloBytes(h)
  }

  // ---- the walk over the extensions ----

  /** The first server name extension among the first `n`. */
  ghost predicate FirstName(exts: seq<Extension>, j: nat, n: nat) {
    j < |exts| && j < n && exts[j].typ == 0 && forall i :: 0 <= i < j ==> exts[i].typ != 0
  }

  /** Where the body of extension `j` starts. */
  function BodyAt(exts: seq<Extension>, j: nat): nat
    requires j < |exts|
  {
    if j == 0 then 4 else 4 + |exts[0].body| + BodyAt(exts[1..], j - 1)
  }

  /** What the walk answers when it comes to a server name's body: the copy needs 150 bytes of buffer. */
  function Verdict(at: nat, len: nat, size: nat): Found {
    if at + SNI_SIZE <= size then Name(at, len) else Nothing(IERR_LOAD)
  }

  lemma LiesU16(buf: seq<byte>, p: nat, n: nat)
    requires Lies(buf, p, Digits(n, 2)) && n < 0x1_0000
    ensures U16(buf, p) == n
  {
    hide Digits, Value;
    assert Pow256(1) == 256 && Pow256(2) == 0x1_0000;
    ValueOfDigits(n, 2);
  }

  lemma HeadExtension(buf: seq<byte>, p: nat, exts: seq<Extension>, seen: nat)
    requires exts != [] && ExtensionsValid(exts) && p + seen <= |buf| && seen >= 4 && seen <= |ExtensionList(exts)|
    requires buf[p..p + seen] == ExtensionList(exts)[..seen]
    ensures U16(buf, p) == exts[0].typ && U16(buf, p + 2) == |exts[0].body|
  {
    hide Digits, U16;
    var e := exts[0];
    var bytes := ExtensionList(exts);
    assert bytes[..2] == Digits(e.typ, 2) && bytes[2..4] == Digits(|e.body|, 2);
    assert bytes[..seen][..2] == bytes[..2] && bytes[..seen][2..4] == bytes[2..4];
    SubSub(buf, p, seen, 0, 2);
    SubSub(buf, p, seen, 2, 4);
    LiesU16(buf, p, e.typ);
    LiesU16(buf, p + 2, |e.body|);
  }

  /** The walk stops at the first server name, if that is among the extensions it looks at, and takes it exactly when
      its body starts at least 150 bytes before the end of the buffer. Only the bytes up to that body matter. */
  lemma {:induction false} WalkFindsName(buf: seq<byte>, p: nat, exts: seq<Extension>, j: nat, end: nat, left: nat)
    requires ExtensionsValid(exts) && FirstName(exts, j, left) && end == p + |ExtensionList(exts)|
    requires BodyAt(exts, j) <= |ExtensionList(exts)| && p + BodyAt(exts, j) <= |buf|
    requires buf[p..p + BodyAt(exts, j)] == ExtensionList(exts)[..BodyAt(exts, j)]
    ensures Extensions(buf, p, end, left) == Verdict(p + BodyAt(exts, j), |exts[j].body|, |buf|)
    decreases j
  {
    hide Digits, U16;
    var at := BodyAt(exts, j);
    HeadExtension(buf, p, exts, at);
    if j > 0 {
      var rest, q := exts[1..], p + 4 + |exts[0].body|;
      RestLies(buf, p, exts, j);
      WalkFindsName(buf, q, rest, j - 1, end, left - 1);
    }
  }

  lemma RestLies(buf: seq<byte>, p: nat, exts: seq<Extension>, j: nat)
    requires 0 < j < |exts| && ExtensionsValid(exts) && BodyAt(exts, j) <= |ExtensionList(exts)|
    requires p + BodyAt(exts, j) <= |buf|
    requires buf[p..p + BodyAt(exts, j)] == ExtensionList(exts)[..BodyAt(exts, j)]
    ensures var rest, q := exts[1..], p + 4 + |exts[0].body|;
      && BodyAt(rest, j - 1) <= |ExtensionList(rest)|
      && buf[q..q + BodyAt(rest, j - 1)] == ExtensionList(rest)[..BodyAt(rest, j - 1)]
  {
    hide Digits;
    var rest, n := exts[1..], 4 + |exts[0].body|;
    var a := BodyAt(rest, j - 1);
    assert ExtensionList(exts) == ExtensionBytes(exts[0]) + ExtensionList(rest);
    assert buf[p + n..p + n + a] == buf[p..p + n + a][n..];
    assert ExtensionList(exts)[..n + a][n..] == ExtensionList(rest)[..a];
  }

  /** Without a server name among them, the walk ends quietly. */
  lemma {:induction false} WalkFindsNothing(buf: seq<byte>, p: nat, exts: seq<Extension>, end: nat, left: nat)
    requires ExtensionsValid(exts) && end == p + |ExtensionList(exts)| && end <= |buf|
    requires buf[p..end] == ExtensionList(exts) && forall i :: 0 <= i < |exts| && i < left ==> exts[i].typ != 0
    ensures Extensions(buf, p, end, left) == Nothing(IERR_OK)
    decreases left
  {
    hide Digits, U16;
    if left > 0 && exts != [] {
      HeadExtension(buf, p, exts, |ExtensionList(exts)|);
      var q := p + 4 + |exts[0].body|;
      assert buf[q..end] == buf[p..end][4 + |exts[0].body|..];
      WalkFindsNothing(buf, q, exts[1..], end, left - 1);
    }
  }

  // ---- the whole message ----

  /** `buf` starts like `f`, at least up to byte `n`. */
  ghost predicate Agrees(buf: seq<byte>, f: seq<byte>, n: nat) {
    n <= |buf| && n <= |f| && buf[..n] == f[..n]
  }

  lemma LiesToo(buf: seq<byte>, f: seq<byte>, n: nat, p: nat, x: seq<byte>)
    requires Agrees(buf, f, n) && Lies(f, p, x) && p + |x| <= n
    ensures Lies(buf, p, x)
  {
    assert f[p..p + |x|] == f[..n][p..p + |x|];
    assert buf[p..p + |x|] == buf[..n][p..p + |x|];
  }

  /** Where the server name extension's body starts, counted from the suites. */
  function NameInSuites(h: Hello, j: nat): nat
    requires j < |h.extensions|
  {
    2 + |h.ciphers| + 1 + |h.compression| + 2 + BodyAt(h.extensions, j)
  }

  lemma BodyWithin(exts: seq<Extension>, j: nat)
    requires j < |exts|
    ensures BodyAt(exts, j) + |exts[j].body| <= |ExtensionList(exts)|
  {
  }

  function ListPart(h: Hello): seq<byte> {
    Digits(|ExtensionList(h.extensions)|, 2) + ExtensionList(h.extensions)
  }

  function CompressionPart(h: Hello): seq<byte> {
    [ByteOf(|h.compression|)] + h.compression + ListPart(h)
  }

  /** The extensions at `x`. */
  lemma ListFound(buf: seq<byte>, f: seq<byte>, n: nat, x: nat, h: Hello, j: nat)
    requires h.Valid() && FirstName(h.extensions, j, MAX_EXTENSIONS) && Lies(f, x, ListPart(h)) && Agrees(buf, f, n)
    requires n == x + 2 + BodyAt(h.extensions, j)
    ensures U16(buf, x) == |ExtensionList(h.extensions)|
    ensures Extensions(buf, x + 2, x + 2 + |ExtensionList(h.extensions)|, MAX_EXTENSIONS) ==
      Verdict(n, |h.extensions[j].body|, |buf|)
  {
    hide Digits, U16, Extensions, ExtensionList, BodyAt;
    var list, at := ExtensionList(h.extensions), BodyAt(h.extensions, j);
    LiesSplit(f, x, Digits(|list|, 2), list);
    LiesToo(buf, f, n, x, Digits(|list|, 2));
    LiesU16(buf, x, |list|);
    BodyWithin(h.extensions, j);
    LiesPart(f, x + 2, list, at);
    LiesToo(buf, f, n, x + 2, list[..at]);
    WalkFindsName(buf, x + 2, h.extensions, j, x + 2 + |list|, MAX_EXTENSIONS);
  }

  /** The suites, the compression methods and the extensions at `q`. */
  lemma SuitesFound(buf: seq<byte>, f: seq<byte>, n: nat, q: nat, h: Hello, j: nat)
    requires h.Valid() && FirstName(h.extensions, j, MAX_EXTENSIONS) && Lies(f, q, SuitesPart(h)) && Agrees(buf, f, n)
    requires n == q + NameInSuites(h, j)
    ensures U16(buf, q) == |h.ciphers|
    ensures var c := q + 2 + |h.ciphers|; N(buf[c]) == |h.compression| && Lies(f, c + 1 + |h.compression|, ListPart(h))
  {
    hide Digits, U16, N, ByteOf, ExtensionList, BodyAt, ListPart;
    var c := q + 2 + |h.ciphers|;
    LiesSplit(f, q, Digits(|h.ciphers|, 2) + h.ciphers, CompressionPart(h));
    LiesSplit(f, q, Digits(|h.ciphers|, 2), h.ciphers);
    LiesSplit(f, c, [ByteOf(|h.compression|)] + h.compression, ListPart(h));
    LiesSplit(f, c, [ByteOf(|h.compression|)], h.compression);
    LiesToo(buf, f, n, q, Digits(|h.ciphers|, 2));
    LiesToo(buf, f, n, c, [ByteOf(|h.compression|)]);
    LiesU16(buf, q, |h.ciphers|);
    LiesByte(buf, c, |h.compression|);
  }

  lemma LiesPart(f: seq<byte>, p: nat, x: seq<byte>, k: nat)
    requires Lies(f, p, x) && k <= |x|
    ensures Lies(f, p, x[..k])
  {
    assert f[p..p + k] == f[p..p + |x|][..k];
  }

  /** From the session id on. */
  lemma AfterRandomFound(buf: seq<byte>, f: seq<byte>, n: nat, p: nat, h: Hello, j: nat)
    requires h.Valid() && FirstName(h.extensions, j, MAX_EXTENSIONS) && Agrees(buf, f, n)
    requires Lies(f, p, [ByteOf(|h.session|)] + h.session + SuitesPart(h))
    requires n == p + 1 + |h.session| + NameInSuites(h, j)
    ensures AfterRandom(buf, p) == Verdict(n, |h.extensions[j].body|, |buf|)
  {
    hide Digits, U16, N, ByteOf, Extensions, SuitesPart, ListPart, BodyAt, ExtensionList;
    LiesSplit(f, p, [ByteOf(|h.session|)] + h.session, SuitesPart(h));
    LiesSplit(f, p, [ByteOf(|h.session|)], h.session);
    LiesToo(buf, f, n, p, [ByteOf(|h.session|)]);
    LiesByte(buf, p, |h.session|);
    var q := p + 1 + |h.session|;
    SuitesFound(buf, f, n, q, h, j);
    ListFound(buf, f, n, q + 2 + |h.ciphers| + 1 + |h.compression|, h, j);
  }

  lemma HandshakeFound(buf: seq<byte>, f: seq<byte>, n: nat, p: nat, h: Hello, j: nat)
    requires h.Valid() && FirstName(h.extensions, j, MAX_EXTENSIONS) && Agrees(buf, f, n) && Lies(f, p, HelloBytes(h))
    requires n == p + 38 + 1 + |h.session| + NameInSuites(h, j)
    ensures Handshake(buf, p) == Verdict(n, |h.extensions[j].body|, |buf|)
  {
    hide Digits, U16, N, ByteOf, AfterRandom, SuitesPart;
    var start := [0x01] + Digits(|Body(h)|, 3);
    var rest := [ByteOf(|h.session|)] + h.session + SuitesPart(h);
    LiesSplit(f, p, start, Body(h));
    LiesSplit(f, p, [0x01], Digits(|Body(h)|, 3));
    LiesToo(buf, f, n, p, [0x01]);
    assert buf[p] == buf[p..p + 1][0];
    LiesSplit(f, p + 4, h.version + h.random, rest);
    AfterRandomFound(buf, f, n, p + 38, h, j);
  }

  /** Where the server name extension's body starts in the frame. */
  function NameInFrame(h: Hello, offsetLen: nat, lengthLen: nat, j: nat): nat
    requires j < |h.extensions|
  {
    1 + offsetLen + lengthLen + 38 + 1 + |h.session| + NameInSuites(h, j)
  }

  /** ClientHello round trip: for any session id, cipher list, compression list and extension list whose first server
      name is one of the first 32 extensions, the parser finds the body of that extension exactly when it starts at
      least 150 bytes before the end of the buffer. What follows the extension's header does not matter. */
  lemma HelloRoundTrip(buf: seq<byte>, h: Hello, offsetLen: nat, lengthLen: nat, j: nat)
    requires h.Valid() && FirstName(h.extensions, j, MAX_EXTENSIONS)
    requires VarintLength(offsetLen) && VarintLength(lengthLen) && |HelloBytes(h)| < VarintLimit(lengthLen)
    requires Agrees(buf, CryptoFrame(h, offsetLen, lengthLen), NameInFrame(h, offsetLen, lengthLen, j))
    ensures ParseHello(buf) == Verdict(NameInFrame(h, offsetLen, lengthLen, j), |h.extensions[j].body|, |buf|)
  {
    hide Digits, HelloBytes, Handshake, VarintEncode, VarintDecode, NameInSuites;
    var f := CryptoFrame(h, offsetLen, lengthLen);
    var n := NameInFrame(h, offsetLen, lengthLen, j);
    var a, b := VarintEncode(0, offsetLen), VarintEncode(|HelloBytes(h)|, lengthLen);
    assert Lies(f, 0, f);
    LiesSplit(f, 0, [0x06] + a + b, HelloBytes(h));
    LiesSplit(f, 0, [0x06] + a, b);
    LiesSplit(f, 0, [0x06], a);
    LiesToo(buf, f, n, 0, [0x06]);
    LiesToo(buf, f, n, 1, a);
    LiesToo(buf, f, n, 1 + offsetLen, b);
    assert buf[0] == buf[0..1][0];
    VarintLies(buf, 1, 0, offsetLen);
    VarintLies(buf, 1 + offsetLen, |HelloBytes(h)|, lengthLen);
    HandshakeFound(buf, f, n, 1 + offsetLen + lengthLen, h, j);
  }

  // ---- the program ----

  /** parse_client_hello_extract_sni: reads stay inside the packet buffer, writes inside the name buffer. */
  method ParseClientHello(s: Scratch) returns (r: int)
    requires s.Valid()
    modifies s.sni, s`sniLen
    ensures match ParseHello(s.pkt[..])
      case Nothing(code) => r == code && s.sni[..] == old(s.sni[..]) && s.sniLen == old(s.sniLen)
      case Name(at, len) =>
        && r == IERR_OK && s.sniLen == len && at + SNI_SIZE <= PKT_SIZE
        && s.sni[..] == s.pkt[at..at + Min(len, SNI_SIZE)] + old(s.sni[Min(len, SNI_SIZE)..])
  {
    hide VarintDecode, Handshake;
    ghost var buf := s.pkt[..];
    var off := 0;
    var frameType := s.pkt[off];
    off := off + 1;
    if frameType != 0x6 {
      return IERR_OK;
    }
    var (_, offsetLen) := VarintDecode(s.pkt[off..off + 8]);
    assert s.pkt[1..9] == buf[1..9];
    off := off + offsetLen;
    var (_, cryptoLenLen) := VarintDecode(s.pkt[off..off + 8]);
    assert s.pkt[off..off + 8] == buf[off..off + 8];
    off := off + cryptoLenLen;
    r := FromHandshake(s, off);
  }

  /** The handshake message. */
  method FromHandshake(s: Scratch, start: nat) returns (r: int)
    requires s.Valid() && start + 6 <= PKT_SIZE
    modifies s.sni, s`sniLen
    ensures match Handshake(s.pkt[..], start)
      case Nothing(code) => r == code && s.sni[..] == old(s.sni[..]) && s.sniLen == old(s.sniLen)
      case Name(at, len) =>
        && r == IERR_OK && s.sniLen == len && at + SNI_SIZE <= PKT_SIZE
        && s.sni[..] == s.pkt[at..at + Min(len, SNI_SIZE)] + old(s.sni[Min(len, SNI_SIZE)..])
  {
    hide AfterRandom;
    var off := start;
    var handshakeType := s.pkt[off];
    off := off + 1;
    if handshakeType != 0x1 {
      return Interpreter.IERR_SANITY;
    }
    off := off + 3;
    off := off + 2;
    off := off + 32;
    r := FromSession(s, off);
  }

  /** From the session id on. */
  method FromSession(s: Scratch, start: nat) returns (r: int)
    requires s.Valid()
    modifies s.sni, s`sniLen
    ensures match AfterRandom(s.pkt[..], start)
      case Nothing(code) => r == code && s.sni[..] == old(s.sni[..]) && s.sniLen == old(s.sniLen)
      case Name(at, len) =>
        && r == IERR_OK && s.sniLen == len && at + SNI_SIZE <= PKT_SIZE
        && s.sni[..] == s.pkt[at..at + Min(len, SNI_SIZE)] + old(s.sni[Min(len, SNI_SIZE)..])
  {
    hide N, Value, Extensions;
    var off := start;
    if off + 1 > PKT_SIZE {
      return IERR_LOAD;
    }
    var sessionIdLen := N(s.pkt[off]);
    off := off + 1;
    off := off + sessionIdLen;
    if off + 2 > PKT_SIZE {
      return IERR_LOAD;
    }
    var cipherSuiteLen := U16(s.pkt[..], off);
    off := off + 2;
    off := off + cipherSuiteLen;
    if off + 1 > PKT_SIZE {
      return IERR_LOAD;
    }
    var compressionLen := N(s.pkt[off]);
    off := off + 1;
    off := off + compressionLen;
    if off + 2 > PKT_SIZE {
      return IERR_LOAD;
    }
    var extensionsLen := U16(s.pkt[..], off);
    off := off + 2;
    r := WalkExtensions(s, off, off + extensionsLen);
  }

  /** The loop over up to 32 extensions. */
  method WalkExtensions(s: Scratch, start: nat, end: nat) returns (r: int)
    requires s.Valid()
    modifies s.sni, s`sniLen
    ensures match Extensions(s.pkt[..], start, end, MAX_EXTENSIONS)
      case Nothing(code) => r == code && s.sni[..] == old(s.sni[..]) && s.sniLen == old(s.sniLen)
      case Name(at, len) =>
        && r == IERR_OK && s.sniLen == len && at + SNI_SIZE <= PKT_SIZE
        && s.sni[..] == s.pkt[at..at + Min(len, SNI_SIZE)] + old(s.sni[Min(len, SNI_SIZE)..])
  {
    hide U16, Extensions;
    var off: nat := start;
    for i := 0 to MAX_EXTENSIONS
      invariant s.sni[..] == old(s.sni[..]) && s.sniLen == old(s.sniLen)
      invariant Extensions(s.pkt[..], start, end, MAX_EXTENSIONS) == Extensions(s.pkt[..], off, end, MAX_EXTENSIONS - i)
    {
      OneExtension(s.pkt[..], off, end, MAX_EXTENSIONS - i);
      if off >= end {
        return IERR_OK;
      }
      if off + 2 > PKT_SIZE {
        return IERR_LOAD;
      }
      var extType := U16(s.pkt[..], off);
      off := off + 2;
      if off + 2 > PKT_SIZE {
        return IERR_LOAD;
      }
      var extLen := U16(s.pkt[..], off);
      off := off + 2;
      if extType == 0 {
        if off + SNI_SIZE > PKT_SIZE {
          return IERR_LOAD;
        }
        CopyName(s, off, Min(extLen, SNI_SIZE));
        s.sniLen := extLen;
        return IERR_OK;
      }
      off := off + extLen;
    }
    NoMoreExtensions(s.pkt[..], off, end);
    return IERR_OK;
  }

  /** One turn of the walk. */
  lemma OneExtension(buf: seq<byte>, p: nat, end: nat, left: nat)
    requires left > 0
    ensures Extensions(buf, p, end, left) ==
      if p >= end then Nothing(IERR_OK)
      else if p + 4 > |buf| then Nothing(IERR_LOAD)
      else if U16(buf, p) == 0 then
        (if p + 4 + SNI_SIZE > |buf| then Nothing(IERR_LOAD) else Name(p + 4, U16(buf, p + 2)))
      else Extensions(buf, p + 4 + U16(buf, p + 2), end, left - 1)
  {
    hide U16;
  }

  lemma NoMoreExtensions(buf: seq<byte>, p: nat, end: nat)
    ensures Extensions(buf, p, end, 0) == Nothing(IERR_OK)
  {
  }

  method CopyName(s: Scratch, off: nat, n: nat)
    requires s.Valid() && n <= SNI_SIZE && off + SNI_SIZE <= PKT_SIZE
    modifies s.sni
    ensures s.sni[..] == s.pkt[off..off + n] + old(s.sni[n..])
  {
    for i := 0 to n
      invariant forall m :: 0 <= m < SNI_SIZE ==> s.sni[m] == if m < i then s.pkt[off + m] else old(s.sni[m])
    {
      s.sni[i] := s.pkt[off + i];
    }
  }
}
