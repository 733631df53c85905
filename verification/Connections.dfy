/** QUIC packets of established connections: what the bespoke program answers from the bytes of a packet, and which
    socket it leads to. */
module Connections {
  import opened Words
  import opened GrmCookie
  import opened Allocator
  import opened Steering
  import opened Routing
  import opened Polling
  import Interpreter
  import opened Aes
  import opened Bytes
  import opened QuicScratch
  import opened Bespoke

  /** The answer to a DCID by its first, second, third and fifth byte: application 0 unless it starts with 1; then the
      application in its fifth byte if the second and third are 0, and the cookie that they write otherwise. */
  function AnswerTo(b0: byte, b1: byte, b2: byte, b4: byte): int {
    if b0 != 1 then -0x8000_0000
    else if b1 == 0 && b2 == 0 then N(b4) - 0x8000_0000
    else 256 * N(b1) + N(b2)
  }

  lemma ByDcidIs(dcid: seq<byte>)
    requires |dcid| == 20
    ensures ByDcid(dcid) == AnswerTo(dcid[0], dcid[1], dcid[2], dcid[4])
  {
    hide Value;
    TwoBytes(dcid[1..3]);
    OnlyZero(dcid[1]);
    OnlyZero(dcid[2]);
    OnlyZero(0);
    hide N;
  }

  lemma OnlyZero(b: byte)
    ensures N(b) == 0 <==> b == 0
  {
  }

  lemma HeaderForm(b: byte)
    ensures b >> 7 == 1 <==> b >= 0x80
    ensures b >> 4 == 0xC <==> 0xC0 <= b < 0xD0
  {
  }

  /** What the program answers, from the bytes of the UDP datagram. Too short a packet and a DCID length outside 8 to 20
      are errors. A packet with a short header is answered by the twenty bytes after its first; one with a long header
      that is not an Initial, or an Initial without a server name, by its DCID. */
  lemma AnswerFromBytes(data: seq<byte>, linear: nat, stale: seq<byte>, hosts: seq<Host>, count: nat, old_: int)
    requires linear <= |data| && |stale| == PKT_SIZE && HostsValid(hosts)
    ensures var ran := RunDead(data, linear, stale, hosts, count, old_);
      && (|data| < 32 ==> ran == Ran(Interpreter.IERR_SANITY, old_))
      && (32 <= |data| < 40 ==> ran == Ran(IERR_LOAD, old_))
      && (|data| >= 40 && data[8] < 0x80 ==> ran == Ran(IERR_OK, AnswerTo(data[9], data[10], data[11], data[13])))
      && (|data| >= 40 && data[8] >= 0x80 && !(8 <= N(data[13]) <= 20) ==> ran == Ran(Interpreter.IERR_SANITY, old_))
      && (|data| >= 40 && data[8] >= 0x80 && 8 <= N(data[13]) <= 20 &&
          (0xC0 <= data[8] < 0xD0 ==> ServerName(data, linear, stale, data[14..14 + N(data[13])]) == NoName) ==>
          ran == Ran(IERR_OK, AnswerTo(data[14], data[15], data[16], data[18])))
  {
    hide N, ServerName, ByDcid, AnswerTo, AppFor, AppValue;
    if |data| >= 40 {
      HeaderForm(data[8]);
      ByDcidIs(data[9..29]);
      if 8 <= N(data[13]) <= 20 {
        var len := N(data[13]);
        ByDcidIs(KeptDcid(data[14..34], len));
        assert KeptDcid(data[14..34], len)[..len] == data[14..14 + len];
      }
    }
  }

  /** An established connection reaches its socket. In a BESPOKE group, a packet with a short header whose DCID is 1
      followed by the cookie that getsockopt reports for a socket, high byte first, is delivered to that socket if and
      only if the slot named by the cookie holds it and it is live. */
  lemma ConnectionReaches(s: System, c: Cookie, p: Packet, now: u64, data: seq<byte>, linear: nat, stale: seq<byte>,
      hosts: seq<Host>, count: nat)
    requires Formed(s) && c in s.socks && s.socks[c].key in s.conf
    requires Kind(s.conf[s.socks[c].key].dis.typ) == DISSECTOR_BESPOKE
    requires linear <= |data| && |stale| == PKT_SIZE && HostsValid(hosts) && Carries(data, ReportedCookie(s, c))
    requires p.ran == RunDead(data, linear, stale, hosts, count, 0)
    ensures PathOf(s, s.socks[c].key, p, now) == Existing(c) <==>
      s.slots[s.socks[c].key].cookies[RowOf(s, c)][s.socks[c].idx % 256] == c && c in LiveSet(s)
  {
    hide Formed, LiveSet, PathOf, RowOf, Kind, RunDead, ReportedCookie;
    CarriedIsAnswered(data, linear, stale, hosts, count, ReportedCookie(s, c));
    ReportedIsNotZero(s, c);
    ReachesExactly(s, c, p, now);
  }

  /** A packet with a short header and a DCID of 1 and `cookie`. */
  predicate Carries(data: seq<byte>, cookie: nat) {
    |data| >= 40 && data[8] < 0x80 && data[9] == 1 && 256 * N(data[10]) + N(data[11]) == cookie
  }

  lemma CarriedIsAnswered(data: seq<byte>, linear: nat, stale: seq<byte>, hosts: seq<Host>, count: nat, cookie: nat)
    requires linear <= |data| && |stale| == PKT_SIZE && HostsValid(hosts) && Carries(data, cookie)
    ensures cookie != 0 ==> RunDead(data, linear, stale, hosts, count, 0) == Ran(IERR_OK, cookie)
  {
    hide RunDead, N;
    AnswerFromBytes(data, linear, stale, hosts, count, 0);
    OnlyZero(0);
  }

  lemma ReportedIsNotZero(s: System, c: Cookie)
    requires Formed(s) && c in s.socks && s.socks[c].key in s.conf
    ensures ReportedCookie(s, c) != 0
  {
    hide QueueFormed, SocksFormed, TablesFormed, JobFormed, Pack, ToWrkGen;
    var g := s.conf[s.socks[c].key];
    PackIsNotZero(ToWrkGen(g.dis.maxApps, s.socks[c].app, s.socks[c].gen), s.socks[c].idx);
  }

  /** ... and over runs: once a socket that asked for one generation sees an index, every packet whose DCID carries the
      cookie it then reads reaches it, for as long as it lives and is left alone. */
  lemma ConnectionStays(tr: seq<System>, es: seq<Step>, m: nat, n: nat, c: Cookie, p: Packet, now: u64, data: seq<byte>,
      linear: nat, stale: seq<byte>, hosts: seq<Host>, count: nat)
    requires IsRun(tr, es) && tr[0] == Boot && m <= n < |tr| && Formed(tr[m]) && Formed(tr[n])
    requires AskedAndSaw(tr[m].socks, c) && ByGroupProgram(tr[m], c)
    requires forall i :: m <= i <= n ==> c in LiveSet(tr[i])
    requires forall i :: m <= i < n ==> Undisturbed(tr[i], es[i], c)
    requires linear <= |data| && |stale| == PKT_SIZE && HostsValid(hosts) && Carries(data, ReportedCookie(tr[m], c))
    requires p.ran == RunDead(data, linear, stale, hosts, count, 0)
    ensures c in tr[n].socks && tr[n].socks[c].key in tr[n].conf
    ensures PathOf(tr[n], tr[n].socks[c].key, p, now) == Existing(c)
  {
    hide Formed, LiveSet, PathOf, RunDead, ReportedCookie, Next, Enabled, Undisturbed, ByProgram;
    CarriedIsAnswered(data, linear, stale, hosts, count, ReportedCookie(tr[m], c));
    ReportedIsNotZero(tr[m], c);
    PolledCookieRoutes(tr, es, m, n, c, p, now);
  }
}
