/** The bespoke program 0xDEAD: a QUIC packet is steered by the server name of its ClientHello, or by its DCID. */
module Bespoke {
  import opened Words
  import opened Steering
  import Interpreter
  import opened Aes
  import opened Sha256
  import opened Bytes
  import opened QuicKeys
  import opened QuicCtr
  import opened QuicScratch
  import opened QuicHeader
  import opened ClientHello

  const MIN_QUIC_LEN: nat := 32
  const MAX_BESPOKE_SNI: nat := 8
  const BESPOKE_SNI_LEN: nat := 62

  // ---- the fast look at a packet ----

  datatype Fast = FastFail(code: int) | Fast(initial: bool, dcid: seq<byte>, dcidLen: nat)

  /** A DCID as the program keeps it: twenty bytes, zeros after its length. */
  function KeptDcid(b: seq<byte>, len: nat): (d: seq<byte>)
    requires |b| == 20 && len <= 20
    ensures |d| == 20
  {
    b[..len] + Zeros(20 - len)
  }

  function ParseFast(data: seq<byte>, linear: nat): (f: Fast)
    requires linear <= |data|
    ensures f.Fast? ==>
      |f.dcid| == 20 && f.dcidLen <= 20 && (forall m :: f.dcidLen <= m < 20 && f.initial ==> f.dcid[m] == 0)
  {
    if |data| < MIN_QUIC_LEN then FastFail(Interpreter.IERR_SANITY)
    else if |data| < 8 + MIN_QUIC_LEN then FastFail(IERR_LOAD)
    else
      var hdr := data[8];
      if hdr >> 7 == 1 then
        var len := N(data[13]);
        if len < 8 || len > 20 then FastFail(Interpreter.IERR_SANITY)
        else Fast(hdr >> 4 == 0xC, KeptDcid(data[14..34], len), len)
      else Fast(false, data[9..29], 0)
  }

  /** parse_quic_fast. */
  method ParseQuicFast(data: seq<byte>, linear: nat, dcid: array<byte>) returns (f: Fast)
    requires linear <= |data| && dcid.Length == 20
    modifies dcid
    ensures f == ParseFast(data, linear)
    ensures f.Fast? ==> dcid[..] == f.dcid
  {
    hide N;
    if |data| < MIN_QUIC_LEN {
      return FastFail(Interpreter.IERR_SANITY);
    }
    var pkt := data[Min(8, linear)..linear];
    if 8 + MIN_QUIC_LEN > linear {
      if 8 + MIN_QUIC_LEN > |data| {
        return FastFail(IERR_LOAD);
      }
      pkt := data[8..8 + MIN_QUIC_LEN];
    }
    ghost var n := |pkt|;
    assert n >= MIN_QUIC_LEN && 8 + n <= |data| && pkt == data[8..8 + n];
    var hdr := pkt[0];
    var initial := hdr >> 4 == 0xC;
    LongIfInitial(hdr);
    if hdr >> 7 == 1 {
      var dcidLen := N(pkt[5]);
      if dcidLen < 8 || dcidLen > 20 {
        return FastFail(Interpreter.IERR_SANITY);
      }
      KeepDcid(dcid, pkt, dcidLen);
      SubSub(data, 8, n, 6, 26);
      return Fast(initial, dcid[..], dcidLen);
    } else {
      LoadBytes(dcid, pkt, 1, 20);
      SubSub(data, 8, n, 1, 21);
      return Fast(initial, dcid[..], 0);
    }
  }

  /** The twenty bytes after the length, with zeros from the length on. */
  method KeepDcid(dcid: array<byte>, pkt: seq<byte>, dcidLen: nat)
    requires dcid.Length == 20 && |pkt| >= MIN_QUIC_LEN && dcidLen <= 20
    modifies dcid
    ensures dcid[..] == KeptDcid(pkt[6..26], dcidLen)
  {
    LoadBytes(dcid, pkt, 6, 20);
    for i := dcidLen to 20
      invariant forall m :: 0 <= m < 20 ==> dcid[m] == if dcidLen <= m < i then 0 else pkt[6 + m]
    {
      dcid[i] := 0;
    }
  }

  lemma LongIfInitial(hdr: byte)
    ensures hdr >> 4 == 0xC ==> hdr >> 7 == 1
  {
  }

  // ---- from an Initial packet to a server name ----

  /** The packet buffer after decryption of its first `n` bytes. */
  function Decrypted(key: Block, counter: Block, pkt: seq<byte>, n: nat): (b: seq<byte>)
    requires |pkt| == PKT_SIZE && n <= PKT_SIZE
    ensures |b| == PKT_SIZE
  {
    seq(PKT_SIZE, m requires 0 <= m < PKT_SIZE =>
      if m < n then Gctr(key, Inc32(counter), pkt[..n])[m] else if m < n / 16 * 16 + 16 then 0 else pkt[m])
  }

  /** The outcome of looking for a server name: an error code that ends the program, no name, or the name buffer. */
  datatype Outcome = Fail(code: int) | NoName | HasName(sni: NameBuffer)

  type NameBuffer = b: seq<byte> | |b| == SNI_SIZE witness Zeros(SNI_SIZE)

  /** What the parser leaves in the zeroed name buffer. */
  function NameIn(buf: seq<byte>): Outcome
    requires |buf| == PKT_SIZE
  {
    match ParseHello(buf)
    case Nothing(_) => NoName
    case Name(at, len) =>
      if len == 0 || at + SNI_SIZE > PKT_SIZE then NoName
      else HasName(buf[at..at + Min(len, SNI_SIZE)] + Zeros(SNI_SIZE - Min(len, SNI_SIZE)))
  }

  /** quic_extract_sni on a packet whose buffer holds `pkt`. */
  function ExtractSni(data: seq<byte>, pkt: seq<byte>, key: Block, o: Opened): Outcome
    requires |pkt| == PKT_SIZE
  {
    if o.packetLen < 2 then NoName else
    var n := Min(o.packetLen, PKT_SIZE);
    if o.encOffset + n > |data| then NoName
    else NameIn(Decrypted(key, o.counter, data[o.encOffset..o.encOffset + n] + pkt[n..], n))
  }

  /** The slow path on an Initial packet; `stale` is what earlier packets left in the packet buffer. */
  function ServerName(data: seq<byte>, linear: nat, stale: seq<byte>, dcid: seq<byte>): Outcome
    requires linear <= |data| && |stale| == PKT_SIZE && |dcid| <= 20
  {
    hide ParseHdr, ExtractSni, ClientHp, ClientIv, ClientKey;
    match ParseHdr(data, linear, ClientHp(dcid), ClientIv(dcid) + Zeros(4))
    case HdrFail(code) => Fail(code)
    case HdrSkip => NoName
    case HdrOk(o) => ExtractSni(data, Copied(data, linear, stale), ClientKey(dcid), o)
  }

  // ---- matching ----

  datatype Host = Host(app: byte, name: seq<byte>)

  ghost predicate HostsValid(hosts: seq<Host>) {
    |hosts| == MAX_BESPOKE_SNI && forall i :: 0 <= i < MAX_BESPOKE_SNI ==> |hosts[i].name| == BESPOKE_SNI_LEN
  }

  /** The comparison of 61 bytes, past the five bytes of the extension's own header. */
  predicate Matches(sni: NameBuffer, host: Host)
    requires |host.name| == BESPOKE_SNI_LEN
  {
    sni[5..66] == host.name[..61]
  }

  /** The application of the first configured host from `i` on that matches; 0 when none does. */
  function AppFor(sni: NameBuffer, hosts: seq<Host>, count: nat, i: nat): byte
    requires HostsValid(hosts) && i <= MAX_BESPOKE_SNI
    decreases MAX_BESPOKE_SNI - i
  {
    if i == MAX_BESPOKE_SNI || i >= count then 0
    else if Matches(sni, hosts[i]) then hosts[i].app
    else AppFor(sni, hosts, count, i + 1)
  }

  /** A return value that names an application. */
  function AppValue(app: byte): int {
    N(app) - 0x8000_0000
  }

  /** Steering by the DCID: a cookie, an application, or application 0. */
  function ByDcid(dcid: seq<byte>): int
    requires |dcid| == 20
  {
    if dcid[0] != 1 then AppValue(0)
    else if Value(dcid[1..3]) == 0 then AppValue(dcid[4])
    else Value(dcid[1..3])
  }

  /** The whole program. */
  function RunDead(data: seq<byte>, linear: nat, stale: seq<byte>, hosts: seq<Host>, count: nat, old_: int): Ran
    requires linear <= |data| && |stale| == PKT_SIZE && HostsValid(hosts)
  {
    match ParseFast(data, linear)
    case FastFail(code) => Ran(code, old_)
    case Fast(initial, dcid, dcidLen) =>
      if !initial then Ran(IERR_OK, ByDcid(dcid)) else
      match ServerName(data, linear, stale, dcid[..dcidLen])
      case Fail(code) => Ran(code, old_)
      case NoName => Ran(IERR_OK, ByDcid(dcid))
      case HasName(sni) => Ran(IERR_OK, AppValue(AppFor(sni, hosts, count, 0)))
  }

  // ---- the program ----

  /** quic_extract_sni: decrypts in place and leaves the name in the zeroed name buffer. */
  method QuicExtractSni(s: Scratch, data: seq<byte>, o: Opened, ghost nonce: seq<byte>) returns (r: int)
    requires s.Valid() && |nonce| == 12 && o.counter == CounterAt(nonce, 1) && s.quicIv[..] == o.counter
    modifies s.Shared(), s`sniLen, s.quicIv, s.pkt
    ensures match ExtractSni(data, old(s.pkt[..]), s.quicKey[..], o)
      case HasName(sni) => r == IERR_OK && s.sniLen != 0 && s.sni[..] == sni
      case _ => r != IERR_OK || s.sniLen == 0
  {
    hide CounterAt, Scheduled, Gctr, Inc32, ParseHello, Decrypted;
    if o.packetLen < 2 {
      return Interpreter.IERR_SANITY;
    }
    var packetLen := o.packetLen;
    if packetLen > PKT_SIZE {
      packetLen := PKT_SIZE;
    }
    if o.encOffset + packetLen > |data| {
      return IERR_LOAD;
    }
    DecryptPayload(s, data, o, packetLen, nonce);
    ClearName(s);
    s.sniLen := 0;
    r := ParseClientHello(s);
  }

  /** The ciphertext is loaded into the packet buffer and decrypted there. */
  method DecryptPayload(s: Scratch, data: seq<byte>, o: Opened, n: nat, ghost nonce: seq<byte>)
    requires s.Valid() && |nonce| == 12 && o.counter == CounterAt(nonce, 1) && s.quicIv[..] == o.counter
    requires n <= PKT_SIZE && o.encOffset + n <= |data|
    modifies s.Shared(), s.quicIv, s.pkt
    ensures s.Valid() && s.quicKey[..] == old(s.quicKey[..])
    ensures s.pkt[..] ==
      Decrypted(s.quicKey[..], o.counter, data[o.encOffset..o.encOffset + n] + old(s.pkt[..])[n..], n)
  {
    hide CounterAt, Scheduled, Gctr, Inc32, Decrypted;
    LoadBytes(s.pkt, data, o.encOffset, n);
    ghost var loaded := s.pkt[..];
    assert loaded == data[o.encOffset..o.encOffset + n] + old(s.pkt[..])[n..];
    s.aes.KeyExpand(s.quicKey);
    ghost var key := s.aes.key;
    DecryptQuic(s, n, nonce);
    DecryptedIs(key, o.counter, loaded, n, s.pkt[..]);
  }

  lemma DecryptedIs(key: Block, counter: Block, pkt: seq<byte>, n: nat, after: seq<byte>)
    requires |pkt| == |after| == PKT_SIZE && n <= PKT_SIZE && after[..n] == Gctr(key, Inc32(counter), pkt[..n])
    requires forall m :: n <= m < PKT_SIZE ==> after[m] == if m < n / 16 * 16 + 16 then 0 else pkt[m]
    ensures after == Decrypted(key, counter, pkt, n)
  {
    hide Gctr, Inc32;
    forall m | 0 <= m < n ensures after[m] == Gctr(key, Inc32(counter), pkt[..n])[m] {
      assert after[m] == after[..n][m];
    }
  }

  method ClearName(s: Scratch)
    requires s.Valid()
    modifies s.sni
    ensures s.sni[..] == Zeros(SNI_SIZE)
  {
    for i := 0 to SNI_SIZE
      invariant forall m :: 0 <= m < i ==> s.sni[m] == 0
    {
      s.sni[i] := 0;
    }
  }

  /** The slow path on an Initial packet. */
  method FindServerName(s: Scratch, data: seq<byte>, linear: nat, dcid: array<byte>, dcidLen: nat)
    returns (out: Outcome)
    requires s.Valid() && linear <= |data| && dcid.Length == 20 && dcidLen <= 20
    requires (forall m :: dcidLen <= m < 20 ==> dcid[m] == 0)
    requires dcid !in s.Shared() && dcid !in {s.quicKey, s.quicIv, s.quicHp, s.pkt}
    modifies s.Shared(), s`sniLen, s.quicKey, s.quicIv, s.quicHp, s.pkt
    ensures out == ServerName(data, linear, old(s.pkt[..]), dcid[..dcidLen])
  {
    hide ParseHdr, ExtractSni, ClientHp, ClientIv, ClientKey, Copied, CounterAt;
    ghost var id := dcid[..dcidLen];
    s.ExpandClientKeys(dcid, dcidLen);
    var hdr := QuicParseHdr(s, data, linear);
    match hdr
    case HdrFail(code) => return Fail(code);
    case HdrSkip => return NoName;
    case HdrOk(o) =>
      ghost var nonce := CounterIs(data, linear, ClientHp(id), ClientIv(id) + Zeros(4));
      var r := QuicExtractSni(s, data, o, nonce);
      ghost var spec := ExtractSni(data, Copied(data, linear, old(s.pkt[..])), ClientKey(id), o);
      NeverFails(data, Copied(data, linear, old(s.pkt[..])), ClientKey(id), o);
      return if r == IERR_OK && s.sniLen != 0 then HasName(s.sni[..]) else NoName;
  }

  lemma NeverFails(data: seq<byte>, pkt: seq<byte>, key: Block, o: Opened)
    requires |pkt| == PKT_SIZE
    ensures !ExtractSni(data, pkt, key, o).Fail?
  {
    hide ParseHello, Decrypted;
  }

  lemma CounterIs(data: seq<byte>, linear: nat, hp: Block, iv: Block) returns (nonce: seq<byte>)
    requires linear <= |data| && ParseHdr(data, linear, hp, iv).HdrOk?
    ensures |nonce| == 12 && ParseHdr(data, linear, hp, iv).hdr.counter == CounterAt(nonce, 1)
  {
    hide CounterAt, Nonce, HpMask, Locate, PnOf, MaskFirst, PnLength;
    var buf := Window(data, linear);
    LocatedFits(buf);
    var l := Locate(buf);
    var mask := HpMask(hp, buf[l.pn + 4..l.pn + 20]);
    PnLengthOf(buf, l.first, l.pn, mask);
    nonce := Nonce(iv[..12], PnOf(buf, l.first, l.pn, mask));
  }

  lemma PnLengthOf(buf: seq<byte>, first: byte, pn: nat, mask: seq<byte>)
    requires |mask| == 5 && pn + 4 <= |buf|
    ensures 1 <= |PnOf(buf, first, pn, mask)| <= 4
  {
  }

  /** memcmp of 61 bytes. */
  method SameName(sni: NameBuffer, host: Host) returns (same: bool)
    requires |host.name| == BESPOKE_SNI_LEN
    ensures same <==> Matches(sni, host)
  {
    for i := 0 to BESPOKE_SNI_LEN - 1
      invariant forall m :: 0 <= m < i ==> host.name[m] == sni[5..66][m]
    {
      if sni[5 + i] != host.name[i] {
        assert sni[5..66][i] != host.name[..61][i];
        return false;
      }
    }
    return true;
  }

  /** run_0xDEAD. */
  method Run0xDEAD(s: Scratch, data: seq<byte>, linear: nat, hosts: seq<Host>, count: nat, old_: int) returns (ran: Ran)
    requires s.Valid() && linear <= |data| && HostsValid(hosts)
    modifies s.Shared(), s`sniLen, s.quicKey, s.quicIv, s.quicHp, s.pkt
    ensures ran == RunDead(data, linear, old(s.pkt[..]), hosts, count, old_)
  {
    hide ServerName, ParseFast, ByDcid, AppValue, N;
    var dcid := new byte[20](_ => 0);
    FastFacts(data, linear);
    var f := ParseQuicFast(data, linear, dcid);
    match f
    case FastFail(code) => return Ran(code, old_);
    case Fast(initial, id, dcidLen) =>
      if initial {
        var out := FindServerName(s, data, linear, dcid, dcidLen);
        match out {
          case Fail(code) => return Ran(code, old_);
          case HasName(sni) =>
            var app := FirstMatch(sni, hosts, count);
            return Ran(IERR_OK, AppValue(app));
          case NoName =>
        }
      }
      var steered := SteerByDcid(dcid);
      return Ran(IERR_OK, steered);
  }

  /** The custom DCID. */
  method SteerByDcid(dcid: array<byte>) returns (retval: int)
    requires dcid.Length == 20
    ensures retval == ByDcid(dcid[..])
  {
    hide N, AppValue, Value;
    if dcid[0] == 1 {
      TwoBytes(dcid[1..3]);
      var cookie := 256 * N(dcid[1]) + N(dcid[2]);
      if cookie == 0 {
        return AppValue(dcid[4]);
      }
      return cookie;
    }
    return AppValue(0);
  }

  lemma TwoBytes(b: seq<byte>)
    requires |b| == 2
    ensures Value(b) == 256 * N(b[0]) + N(b[1])
  {
    hide N, Value;
    LastDigit(b);
    LastDigit(b[..1]);
    NoDigits(0);
    assert b[..1][..0] == Digits(0, 0);
  }

  lemma FastFacts(data: seq<byte>, linear: nat)
    requires linear <= |data|
    ensures var f := ParseFast(data, linear);
      f.Fast? ==> |f.dcid| == 20 && f.dcidLen <= 20 && (forall m :: f.dcidLen <= m < 20 && f.initial ==> f.dcid[m] == 0)
  {
  }

  /** The loop over the configured hosts. */
  method FirstMatch(sni: NameBuffer, hosts: seq<Host>, count: nat) returns (app: byte)
    requires HostsValid(hosts)
    ensures app == AppFor(sni, hosts, count, 0)
  {
    for i := 0 to MAX_BESPOKE_SNI
      invariant AppFor(sni, hosts, count, 0) == AppFor(sni, hosts, count, i)
    {
      if i >= count {
        break;
      }
      var same := SameName(sni, hosts[i]);
      if same {
        return hosts[i].app;
      }
    }
    return 0;
  }
}
