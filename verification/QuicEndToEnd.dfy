/** From the packet a client builds to the application it is steered to. */
module QuicEndToEnd {
  import opened Words
  import opened Steering
  import Interpreter
  import opened Aes
  import opened Sha256
  import opened Bytes
  import opened QuicKeys
  import opened QuicCtr
  import opened QuicScratch
  import opened QuicHeader
  import opened ClientHello
  import opened Bespoke

  // ---- names ----

  ghost predicate NulFree(name: seq<byte>) {
    forall i :: 0 <= i < |name| ==> name[i] != 0
  }

  /** Section 3 of RFC 6066: a server name list with one host name. */
  function ServerNameBody(name: seq<byte>): (b: seq<byte>)
    ensures |b| == 5 + |name|
  {
    Digits(3 + |name|, 2) + [0] + Digits(|name|, 2) + name
  }

  /** The bytes before the first NUL. */
  function CString(b: seq<byte>): seq<byte> {
    if b == [] || b[0] == 0 then [] else [b[0]] + CString(b[1..])
  }

  lemma {:induction false} CStringOf(b: seq<byte>)
    ensures |CString(b)| <= |b| && b[..|CString(b)|] == CString(b) && NulFree(CString(b))
    ensures |CString(b)| < |b| ==> b[|CString(b)|] == 0
  {
    if b != [] && b[0] != 0 {
      CStringOf(b[1..]);
    }
  }

  /** A configured name of at most 61 bytes whose first 61 bytes hold nothing but zeros after it. The last of the 62
      bytes does not matter. */
  ghost predicate Clean(host: Host) {
    && |CString(host.name)| <= 61 <= |host.name|
    && host.name[..61] == CString(host.name) + Zeros(61 - |CString(host.name)|)
  }

  /** `b` in a zeroed buffer of `n` bytes: cut off or padded. */
  function Fit(b: seq<byte>, n: nat): (r: seq<byte>)
    ensures |r| == n
  {
    if |b| < n then b + Zeros(n - |b|) else b[..n]
  }

  /** The part of a server name that is looked at. */
  function Seen(name: seq<byte>): seq<byte> {
    name[..Min(|name|, 61)]
  }

  /** The name buffer that a server name leaves. */
  function NameBufferOf(name: seq<byte>): NameBuffer {
    Fit(ServerNameBody(name), SNI_SIZE)
  }

  /** What is compared is the name cut off or padded to 61 bytes. */
  lemma MatchExactly(name: seq<byte>, host: Host)
    requires |host.name| == BESPOKE_SNI_LEN
    ensures Matches(NameBufferOf(name), host) <==> host.name[..61] == Fit(name, 61)
  {
    hide Digits;
    var head := Digits(3 + |name|, 2) + [0] + Digits(|name|, 2);
    assert |head| == 5 && ServerNameBody(name) == head + name;
    assert NameBufferOf(name)[5..66] == Fit(name, 61);
  }

  lemma FitSeen(name: seq<byte>)
    ensures Fit(name, 61) == Seen(name) + Zeros(61 - |Seen(name)|)
  {
  }

  /** A clean host answers to its own name and to longer names that begin with it when it has 61 bytes. */
  lemma MatchIsEquality(name: seq<byte>, host: Host)
    requires NulFree(name) && |host.name| == BESPOKE_SNI_LEN && Clean(host)
    ensures Matches(NameBufferOf(name), host) <==> CString(host.name) == Seen(name)
  {
    hide CString, NameBufferOf, Fit;
    MatchExactly(name, host);
    FitSeen(name);
    CStringOf(host.name);
    var c := CString(host.name);
    if c + Zeros(61 - |c|) == Seen(name) + Zeros(61 - |Seen(name)|) {
      SamePadded(c, Seen(name), 61);
    }
  }

  /** The comparison is equality of names for exactly the clean hosts. */
  lemma EqualityExactly(host: Host)
    requires |host.name| == BESPOKE_SNI_LEN
    ensures Clean(host) <==>
      forall name :: NulFree(name) && |name| <= 61 ==>
        (Matches(NameBufferOf(name), host) <==> CString(host.name) == name)
  {
    hide CString, NameBufferOf, Fit, Matches;
    if Clean(host) {
      forall name | NulFree(name) && |name| <= 61
        ensures Matches(NameBufferOf(name), host) <==> CString(host.name) == name
      {
        MatchIsEquality(name, host);
        assert Seen(name) == name;
      }
    } else {
      var name := UncleanAnswer(host);
    }
  }

  /** An unclean host is wrong about some name: one that fills its 62 bytes answers to its first 61 bytes, any other
      does not answer to its own name. */
  lemma UncleanAnswer(host: Host) returns (name: seq<byte>)
    requires |host.name| == BESPOKE_SNI_LEN && !Clean(host)
    ensures NulFree(name) && |name| <= 61 && !(Matches(NameBufferOf(name), host) <==> CString(host.name) == name)
  {
    hide CString, NameBufferOf, Fit;
    CStringOf(host.name);
    var c := CString(host.name);
    if |c| == BESPOKE_SNI_LEN {
      name := host.name[..61];
      assert host.name[..|c|] == host.name;
      LongNameIsCutOff(host);
    } else {
      name := c;
      FitSeen(c);
      assert Seen(c) == c;
      MatchExactly(c, host);
    }
  }

  lemma SamePadded(a: seq<byte>, b: seq<byte>, n: nat)
    requires |a| <= n && |b| <= n && NulFree(a) && NulFree(b) && a + Zeros(n - |a|) == b + Zeros(n - |b|)
    ensures a == b
  {
    CStringOfPadded(a, n - |a|);
    CStringOfPadded(b, n - |b|);
  }

  lemma {:induction false} CStringOfPadded(a: seq<byte>, k: nat)
    requires NulFree(a)
    ensures CString(a + Zeros(k)) == a
  {
    if a != [] {
      CStringOfPadded(a[1..], k);
      assert (a + Zeros(k))[1..] == a[1..] + Zeros(k);
    }
  }

  /** A configured name that fills its 62 bytes is taken for its own first 61 bytes: the comparison leaves the last
      byte out. */
  lemma LongNameIsCutOff(host: Host)
    requires |host.name| == BESPOKE_SNI_LEN && NulFree(host.name)
    ensures Matches(NameBufferOf(host.name[..61]), host) && CString(host.name) != host.name[..61]
  {
    hide NameBufferOf;
    MatchExactly(host.name[..61], host);
    assert host.name[..61][..61] == host.name[..61];
    CStringOf(host.name);
    hide CString;
  }

  /** The application of the first of the first eight configured hosts whose name is `name`; 0 when there is none. */
  function AppOfName(name: seq<byte>, hosts: seq<Host>, count: nat, i: nat): byte
    requires HostsValid(hosts) && i <= MAX_BESPOKE_SNI
    decreases MAX_BESPOKE_SNI - i
  {
    if i == MAX_BESPOKE_SNI || i >= count then 0
    else if CString(hosts[i].name) == name then hosts[i].app
    else AppOfName(name, hosts, count, i + 1)
  }

  lemma {:induction false} FirstMatchIsFirstEqual(name: seq<byte>, hosts: seq<Host>, count: nat, i: nat)
    requires HostsValid(hosts) && i <= MAX_BESPOKE_SNI && NulFree(name)
    requires forall k :: 0 <= k < MAX_BESPOKE_SNI && k < count ==> Clean(hosts[k])
    ensures AppFor(NameBufferOf(name), hosts, count, i) == AppOfName(Seen(name), hosts, count, i)
    decreases MAX_BESPOKE_SNI - i
  {
    hide NameBufferOf, Matches, CString, Clean, Seen;
    if i < MAX_BESPOKE_SNI && i < count {
      assert |hosts[i].name| == BESPOKE_SNI_LEN;
      MatchIsEquality(name, hosts[i]);
      FirstMatchIsFirstEqual(name, hosts, count, i + 1);
    }
  }

  // ---- the packet ----

  /** A client's Initial packet: header in the clear, packet number, ClientHello in a CRYPTO frame, further frames,
      authentication tag, and whatever else the datagram holds. */
  datatype ClientInitial = ClientInitial(
    h: Initial, pn: seq<byte>, hello: Hello, offsetLen: nat, lengthLen: nat, more: seq<byte>, tag: seq<byte>,
      trailing: seq<byte>)
  {
    ghost predicate Valid() {
      && h.Valid() && 1 <= |pn| <= 4 && PnLength(h.first) == |pn| && hello.Valid() && |tag| == 16
      && VarintLength(offsetLen) && VarintLength(lengthLen) && |HelloBytes(hello)| < VarintLimit(lengthLen)
      && h.length == |pn| + |Plain(this)| + 16 && |Plain(this)| < 0x1_0000
    }
  }

  ghost function Plain(c: ClientInitial): seq<byte> {
    if VarintLength(c.offsetLen) && VarintLength(c.lengthLen) && |HelloBytes(c.hello)| < VarintLimit(c.lengthLen)
    then CryptoFrame(c.hello, c.offsetLen, c.lengthLen) + c.more else []
  }

  /** Section 7.1 of SP 800-38D with the nonce of section 5.3 of RFC 9001. */
  ghost function FirstCounter(c: ClientInitial): Block
    requires |c.pn| <= 4
  {
    CounterAt(Nonce(ClientIv(c.h.dcid), c.pn), 1)
  }

  ghost function Ciphertext(c: ClientInitial): (b: seq<byte>)
    requires |c.pn| <= 4
    ensures |b| == |Plain(c)|
  {
    Gctr(ClientKey(c.h.dcid), Inc32(FirstCounter(c)), Plain(c))
  }

  ghost function Sealed(c: ClientInitial): (b: seq<byte>)
    requires |c.pn| <= 4
    ensures |b| == |Plain(c)| + |c.tag|
  {
    Ciphertext(c) + c.tag
  }

  lemma FrameIsLong(c: ClientInitial)
    requires c.Valid()
    ensures |Plain(c)| >= 40
  {
    hide Digits, SuitesPart, VarintEncode;
  }

  /** The datagram with its header protected. */
  ghost function Datagram(c: ClientInitial): seq<byte>
    requires c.Valid()
  {
    hide Plain, Ciphertext, ClientHp;
    FrameIsLong(c);
    Protect(c.h, c.pn, Sealed(c), ClientHp(c.h.dcid)) + c.trailing
  }

  // ---- the program takes it apart ----

  lemma LiesInPrefix(data: seq<byte>, k: nat, p: nat, x: seq<byte>)
    requires k <= |data| && Lies(data, p, x) && p + |x| <= k
    ensures Lies(data[..k], p, x)
  {
    assert data[..k][p..p + |x|] == data[p..p + |x|];
  }

  /** The bytes the header is parsed from are a prefix of the datagram. */
  lemma ProtectedInPrefix(data: seq<byte>, k: nat, h: Initial, pn: seq<byte>, body: seq<byte>, hp: Block)
    requires IsProtected(data, h, pn, body, hp) && k <= |data| && |HeaderBytes(h)| + 20 < k
    ensures IsProtected(data[..k], h, pn, body, hp)
  {
    hide HeaderBytes, HpMask, MaskFirst, PnLength, Add;
    var mask := HpMask(hp, (pn + body)[4..20]);
    MaskFirstTwice(h.first, mask[0]);
    SameShape(h, MaskFirst(h.first, mask[0]));
    LiesInPrefix(data, k, 0, HeaderBytes(h.(first := MaskFirst(h.first, mask[0]))));
    LiesInPrefix(data, k, |HeaderBytes(h)|, Xor(pn, mask[1..1 + |pn|]));
    LiesInPrefix(data, k, |HeaderBytes(h)| + 4, (pn + body)[4..20]);
  }

  lemma FirstAndDcid(data: seq<byte>, h: Initial)
    requires h.Valid() && Lies(data, 0, HeaderBytes(h))
    ensures |data| >= 14 + |h.dcid| && data[8] == h.first && N(data[13]) == |h.dcid|
    ensures data[14..14 + |h.dcid|] == h.dcid
  {
    hide N, ByteOf, TokenPart;
    var one := [0, 0, 0, 1];
    var a, b := [ByteOf(|h.dcid|)], [ByteOf(|h.scid|)];
    LiesSplit(data, 0, h.udp + [h.first] + one, IdPart(h));
    LiesSplit(data, 0, h.udp + [h.first], one);
    LiesSplit(data, 0, h.udp, [h.first]);
    assert data[8] == data[8..9][0];
    LiesSplit(data, 13, a + h.dcid + b + h.scid, TokenPart(h));
    LiesSplit(data, 13, a + h.dcid + b, h.scid);
    LiesSplit(data, 13, a + h.dcid, b);
    LiesSplit(data, 13, a, h.dcid);
    LiesByte(data, 13, |h.dcid|);
  }

  /** The fast look finds an Initial packet and its DCID. */
  lemma FastSees(data: seq<byte>, linear: nat, h: Initial)
    requires linear <= |data| && |data| >= 40 && h.Valid() && Lies(data, 0, HeaderBytes(h))
    ensures var f := ParseFast(data, linear);
      f.Fast? && f.initial && f.dcidLen == |h.dcid| && f.dcid[..f.dcidLen] == h.dcid
  {
    hide N, HeaderBytes;
    FirstAndDcid(data, h);
    LongIfInitial(h.first);
    assert data[14..34][..|h.dcid|] == data[14..14 + |h.dcid|];
  }

  /** The header gives the place and the length of the ciphertext and the counter. */
  lemma HeaderOpens(data: seq<byte>, linear: nat, h: Initial, pn: seq<byte>, body: seq<byte>, hp: Block, iv: seq<byte>)
    requires IsProtected(data, h, pn, body, hp) && |iv| == 12 && linear <= |data|
    requires |HeaderBytes(h)| + 20 < |Window(data, linear)|
    ensures ParseHdr(data, linear, hp, iv + Zeros(4)) ==
      HdrOk(Opened(|HeaderBytes(h)| + |pn|, (h.length - |pn| - 16) % TWO64, CounterAt(Nonce(iv, pn), 1)))
  {
    hide HeaderBytes, Locate, Unprotect, PnLength, CounterAt, Nonce, IsProtected;
    var k := |Window(data, linear)|;
    assert Window(data, linear) == data[..k];
    ProtectedInPrefix(data, k, h, pn, body, hp);
    HeaderRoundTrip(data[..k], h, pn, body, hp, iv + Zeros(4));
    assert (iv + Zeros(4))[..12] == iv;
  }

  /** Decryption of a prefix of the ciphertext gives that prefix of the plaintext. */
  lemma DecryptsTo(key: Block, nonce: seq<byte>, plain: seq<byte>, n: nat, pkt: seq<byte>)
    requires |nonce| == 12 && n <= |plain| < 0x1_0000 && n <= PKT_SIZE == |pkt|
    requires pkt[..n] == Gctr(key, Inc32(CounterAt(nonce, 1)), plain)[..n]
    ensures Decrypted(key, CounterAt(nonce, 1), pkt, n)[..n] == plain[..n]
  {
    hide Gctr, Inc32, CounterAt, Add, KeyStream;
    Inc32Counts(nonce, 1);
    var c := Gctr(key, CounterAt(nonce, 2), plain);
    var d := Decrypted(key, CounterAt(nonce, 1), pkt, n);
    forall m | 0 <= m < n ensures d[m] == plain[m] {
      GctrByte(key, nonce, 2, plain, m);
      GctrByte(key, nonce, 2, c[..n], m);
      AddTwice(plain[m], KeyStream(key, nonce, 2, m));
      assert c[..n][m] == c[m];
    }
  }

  /** The name that the parser leaves is the client's. */
  lemma NameExtracted(c: ClientInitial, buf: seq<byte>, j: nat, name: seq<byte>, n: nat)
    requires c.Valid() && |buf| == PKT_SIZE && n == Min(|Plain(c)|, PKT_SIZE) && buf[..n] == Plain(c)[..n]
    requires FirstName(c.hello.extensions, j, MAX_EXTENSIONS) && c.hello.extensions[j].body == ServerNameBody(name)
    requires NameInFrame(c.hello, c.offsetLen, c.lengthLen, j) + SNI_SIZE <= PKT_SIZE
    ensures NameIn(buf) == HasName(NameBufferOf(name))
  {
    hide ParseHello, ServerNameBody, NameInFrame, CryptoFrame, Digits;
    var f, at := CryptoFrame(c.hello, c.offsetLen, c.lengthLen), NameInFrame(c.hello, c.offsetLen, c.lengthLen, j);
    var body := ServerNameBody(name);
    NameLies(c.hello, c.offsetLen, c.lengthLen, j);
    AgreesPart(buf, f, c.more, n, at);
    HelloRoundTrip(buf, c.hello, c.offsetLen, c.lengthLen, j);
    var kept := Min(|body|, SNI_SIZE);
    LiesPart(f, at, body, kept);
    LiesBefore(f, c.more, at, body[..kept]);
    LiesToo(buf, f + c.more, n, at, body[..kept]);
    assert body[..kept] + Zeros(SNI_SIZE - kept) == Fit(body, SNI_SIZE);
  }

  lemma AgreesPart(buf: seq<byte>, f: seq<byte>, more: seq<byte>, n: nat, at: nat)
    requires Agrees(buf, f + more, n) && at <= n && at <= |f|
    ensures Agrees(buf, f, at)
  {
    assert buf[..at] == buf[..n][..at] == (f + more)[..n][..at];
  }

  lemma LiesBefore(f: seq<byte>, more: seq<byte>, p: nat, x: seq<byte>)
    requires Lies(f, p, x)
    ensures Lies(f + more, p, x)
  {
    assert (f + more)[p..p + |x|] == f[p..p + |x|];
  }

  /** The body of extension `j` lies in the frame where the parser looks for it. */
  lemma NameLies(h: Hello, offsetLen: nat, lengthLen: nat, j: nat)
    requires h.Valid() && j < |h.extensions|
    requires VarintLength(offsetLen) && VarintLength(lengthLen) && |HelloBytes(h)| < VarintLimit(lengthLen)
    ensures Lies(CryptoFrame(h, offsetLen, lengthLen), NameInFrame(h, offsetLen, lengthLen, j), h.extensions[j].body)
  {
    hide HelloBytes, SuitesPart, BodyAt, VarintEncode, NameInSuites;
    var f := CryptoFrame(h, offsetLen, lengthLen);
    var p := 1 + offsetLen + lengthLen;
    assert Lies(f, 0, f);
    LiesSplit(f, 0, [0x06] + VarintEncode(0, offsetLen) + VarintEncode(|HelloBytes(h)|, lengthLen), HelloBytes(h));
    SuitesLie(f, p, h);
    NameInSuitesLies(f, p + 38 + 1 + |h.session|, h, j);
  }

  lemma SuitesLie(f: seq<byte>, p: nat, h: Hello)
    requires h.Valid() && Lies(f, p, HelloBytes(h))
    ensures Lies(f, p + 38 + 1 + |h.session|, SuitesPart(h))
  {
    hide Digits, SuitesPart, ByteOf;
    LiesSplit(f, p, [0x01] + Digits(|Body(h)|, 3), Body(h));
    LiesSplit(f, p + 4, h.version + h.random, [ByteOf(|h.session|)] + h.session + SuitesPart(h));
    LiesSplit(f, p + 38, [ByteOf(|h.session|)] + h.session, SuitesPart(h));
  }

  lemma NameInSuitesLies(f: seq<byte>, q: nat, h: Hello, j: nat)
    requires h.Valid() && j < |h.extensions| && Lies(f, q, SuitesPart(h))
    ensures Lies(f, q + NameInSuites(h, j), h.extensions[j].body)
  {
    hide Digits, ExtensionList, BodyAt, ByteOf;
    var list := ExtensionList(h.extensions);
    LiesSplit(f, q, Digits(|h.ciphers|, 2) + h.ciphers, CompressionPart(h));
    LiesSplit(f, q + 2 + |h.ciphers|, [ByteOf(|h.compression|)] + h.compression, ListPart(h));
    var x := q + 2 + |h.ciphers| + 1 + |h.compression|;
    LiesSplit(f, x, Digits(|list|, 2), list);
    BodyLies(f, x + 2, h.extensions, j);
  }

  lemma {:induction false} BodyLies(f: seq<byte>, p: nat, exts: seq<Extension>, j: nat)
    requires j < |exts| && Lies(f, p, ExtensionList(exts))
    ensures Lies(f, p + BodyAt(exts, j), exts[j].body)
    decreases j
  {
    hide Digits;
    var e := exts[0];
    LiesSplit(f, p, ExtensionBytes(e), ExtensionList(exts[1..]));
    if j == 0 {
      LiesSplit(f, p, Digits(e.typ, 2) + Digits(|e.body|, 2), e.body);
    } else {
      BodyLies(f, p + |ExtensionBytes(e)|, exts[1..], j - 1);
    }
  }

  /** The slow path finds the client's server name, whatever earlier packets left in the buffer. */
  lemma NameFound(c: ClientInitial, linear: nat, stale: seq<byte>, j: nat, name: seq<byte>)
    requires c.Valid() && linear <= |Datagram(c)| && |stale| == PKT_SIZE
    requires |HeaderBytes(c.h)| + 20 < |Window(Datagram(c), linear)|
    requires FirstName(c.hello.extensions, j, MAX_EXTENSIONS) && c.hello.extensions[j].body == ServerNameBody(name)
    requires NameInFrame(c.hello, c.offsetLen, c.lengthLen, j) + SNI_SIZE <= PKT_SIZE
    ensures ServerName(Datagram(c), linear, stale, c.h.dcid) == HasName(NameBufferOf(name))
  {
    hide HeaderBytes, Plain, Ciphertext, ClientHp, ClientIv, ClientKey, ParseHdr, Protect, PnLength, CounterAt, Nonce,
      Window, IsProtected, NameInFrame, ServerNameBody, NameBufferOf, Lies, FirstName, ExtractSni, Sealed, HelloBytes;
    var data, dcid := Datagram(c), c.h.dcid;
    FrameIsLong(c);
    ProtectProtects(c.h, c.pn, Sealed(c), ClientHp(dcid), c.trailing);
    HeaderOpens(data, linear, c.h, c.pn, Sealed(c), ClientHp(dcid), ClientIv(dcid));
    assert (c.h.length - |c.pn| - 16) % TWO64 == |Plain(c)|;
    SniExtracted(c, data, |HeaderBytes(c.h)| + |c.pn|, Copied(data, linear, stale), j, name);
  }

  /** Decryption and parsing of the sealed payload, wherever it lies in the datagram. */
  lemma SniExtracted(c: ClientInitial, data: seq<byte>, at: nat, buffer: seq<byte>, j: nat, name: seq<byte>)
    requires c.Valid() && |buffer| == PKT_SIZE && Lies(data, at, Sealed(c))
    requires FirstName(c.hello.extensions, j, MAX_EXTENSIONS) && c.hello.extensions[j].body == ServerNameBody(name)
    requires NameInFrame(c.hello, c.offsetLen, c.lengthLen, j) + SNI_SIZE <= PKT_SIZE
    ensures ExtractSni(data, buffer, ClientKey(c.h.dcid), Opened(at, |Plain(c)|, FirstCounter(c))) ==
      HasName(NameBufferOf(name))
  {
    hide Plain, Ciphertext, ClientIv, ClientKey, CounterAt, Nonce, NameIn, Decrypted, NameInFrame, ServerNameBody,
      NameBufferOf, Gctr, Inc32, Lies, FirstName, Sealed, HeaderBytes, PnLength, HelloBytes;
    FrameIsLong(c);
    var key, n := ClientKey(c.h.dcid), Min(|Plain(c)|, PKT_SIZE);
    CipherAt(c, data, at, n);
    var pkt := data[at..at + n] + buffer[n..];
    assert pkt[..n] == data[at..at + n];
    CipherIs(c);
    DecryptsTo(key, Nonce(ClientIv(c.h.dcid), c.pn), Plain(c), n, pkt);
    NameExtracted(c, Decrypted(key, FirstCounter(c), pkt, n), j, name, n);
  }

  lemma CipherIs(c: ClientInitial)
    requires |c.pn| <= 4
    ensures Ciphertext(c) == Gctr(ClientKey(c.h.dcid), Inc32(CounterAt(Nonce(ClientIv(c.h.dcid), c.pn), 1)), Plain(c))
  {
  }

  lemma CipherAt(c: ClientInitial, data: seq<byte>, at: nat, n: nat)
    requires |c.pn| <= 4 && Lies(data, at, Sealed(c)) && n <= |Plain(c)|
    ensures at + n <= |data| && data[at..at + n] == Ciphertext(c)[..n]
  {
    hide Plain, Ciphertext;
    assert data[at..at + n] == data[at..at + |Sealed(c)|][..n];
  }

  /** QUIC end to end: for every version 1 client Initial packet whose header lies, with twenty-one bytes more, in the
      parser's window, and whose payload starts with a CRYPTO frame at offset 0 that holds a ClientHello with a server
      name in reach of the parser, the program answers with the application of the first configured host of that name,
      or with application 0 if there is none. Of a name longer than 61 bytes the first 61 count. */
  lemma SteeredByServerName(c: ClientInitial, linear: nat, stale: seq<byte>, j: nat, name: seq<byte>, hosts: seq<Host>,
      count: nat, old_: int)
    requires c.Valid() && linear <= |Datagram(c)| && |stale| == PKT_SIZE
    requires |HeaderBytes(c.h)| + 20 < |Window(Datagram(c), linear)|
    requires FirstName(c.hello.extensions, j, MAX_EXTENSIONS) && c.hello.extensions[j].body == ServerNameBody(name)
    requires NulFree(name) && NameInFrame(c.hello, c.offsetLen, c.lengthLen, j) + SNI_SIZE <= PKT_SIZE
    requires HostsValid(hosts) && forall k :: 0 <= k < MAX_BESPOKE_SNI && k < count ==> Clean(hosts[k])
    ensures RunDead(Datagram(c), linear, stale, hosts, count, old_) ==
      Ran(IERR_OK, AppValue(AppOfName(Seen(name), hosts, count, 0)))
  {
    hide Plain, Ciphertext, ServerName, ParseFast, NameInFrame, ServerNameBody, NameBufferOf, Window, Protect, ClientHp,
      AppFor, AppOfName, AppValue, HeaderBytes, FirstName, Clean, Seen, IsProtected;
    NameFound(c, linear, stale, j, name);
    FirstMatchIsFirstEqual(name, hosts, count, 0);
    SeenFast(c, linear);
  }

  lemma SeenFast(c: ClientInitial, linear: nat)
    requires c.Valid() && linear <= |Datagram(c)|
    ensures var f := ParseFast(Datagram(c), linear);
      f.Fast? && f.initial && f.dcidLen == |c.h.dcid| && f.dcid[..f.dcidLen] == c.h.dcid
  {
    hide HeaderBytes, Plain, Ciphertext, ClientHp, Protect, PnLength, ParseFast, IsProtected, Sealed;
    FrameIsLong(c);
    ProtectProtects(c.h, c.pn, Sealed(c), ClientHp(c.h.dcid), c.trailing);
    ProtectedIsSeen(Datagram(c), linear, c.h, c.pn, Sealed(c), ClientHp(c.h.dcid));
  }

  lemma ProtectedIsSeen(data: seq<byte>, linear: nat, h: Initial, pn: seq<byte>, body: seq<byte>, hp: Block)
    requires linear <= |data| && IsProtected(data, h, pn, body, hp)
    ensures var f := ParseFast(data, linear);
      f.Fast? && f.initial && f.dcidLen == |h.dcid| && f.dcid[..f.dcidLen] == h.dcid
  {
    hide HeaderBytes, HpMask, MaskFirst, PnLength, ParseFast, Add;
    var first := MaskFirst(h.first, HpMask(hp, (pn + body)[4..20])[0]);
    MaskFirstTwice(h.first, HpMask(hp, (pn + body)[4..20])[0]);
    SameShape(h, first);
    HeaderIsLong(h);
    FastSees(data, linear, h.(first := first));
  }

  lemma HeaderIsLong(h: Initial)
    requires h.Valid()
    ensures |HeaderBytes(h)| >= 20
  {
    hide N, VarintEncode, ByteOf;
  }

  /** What the packet program makes of that answer. */
  lemma AppIsDispatched(maxApps: u32, app: byte)
    requires maxApps <= MAX_APPS
    ensures DissectCbpf(maxApps, Ran(IERR_OK, AppValue(app))) == NewFlow(if N(app) < maxApps then N(app) else 0)
  {
    hide N;
  }

  // ---- such packets exist ----

  function SmallHello(name: seq<byte>): Hello
    requires |name| <= 61
  {
    Hello([3, 3], Zeros(32), [], [], [], [Extension(0, ServerNameBody(name))])
  }

  function SmallInitial(length: nat): Initial {
    Initial(Zeros(8), 0xc0, Zeros(8), [], 1, [], 2, length)
  }

  ghost function SmallPacket(name: seq<byte>): ClientInitial
    requires |name| <= 61
  {
    var h := SmallHello(name);
    ClientInitial(SmallInitial(1 + 4 + |HelloBytes(h)| + 16), [0], h, 1, 2, [], Zeros(16), [])
  }

  lemma SmallHelloSize(name: seq<byte>)
    requires |name| <= 61
    ensures SmallHello(name).Valid() && |HelloBytes(SmallHello(name))| == 53 + |name|
    ensures FirstName(SmallHello(name).extensions, 0, MAX_EXTENSIONS) && NameInFrame(SmallHello(name), 1, 2, 0) == 52
  {
    hide Digits, ByteOf, ServerNameBody;
    var e := SmallHello(name).extensions;
    assert e[1..] == [];
    assert ExtensionList(e) == ExtensionBytes(e[0]);
  }

  /** For every name of at most 61 bytes there is a packet that the end-to-end theorem speaks about. */
  lemma PacketsExist(name: seq<byte>)
    requires |name| <= 61
    ensures var c := SmallPacket(name);
      && c.Valid() && FirstName(c.hello.extensions, 0, MAX_EXTENSIONS) &&
        c.hello.extensions[0].body == ServerNameBody(name)
      && NameInFrame(c.hello, c.offsetLen, c.lengthLen, 0) + SNI_SIZE <= PKT_SIZE
      && |HeaderBytes(c.h)| + 20 < |Window(Datagram(c), |Datagram(c)|)|
  {
    hide HelloBytes, VarintEncode, ServerNameBody, NameInFrame, Digits, Ciphertext, ClientHp, HeaderBytes, FirstName,
      MaskFirst, HpMask, Add;
    SmallHelloSize(name);
    SmallFirst();
    var c := SmallPacket(name);
    FrameIsLong(c);
    var mask := HpMask(ClientHp(c.h.dcid), (c.pn + Sealed(c))[4..20]);
    MaskFirstTwice(c.h.first, mask[0]);
    SameShape(c.h, MaskFirst(c.h.first, mask[0]));
  }

  lemma SmallFirst()
    ensures PnLength(0xc0) == 1 && (0xc0 as byte) >> 4 == 0xC
  {
  }
}
