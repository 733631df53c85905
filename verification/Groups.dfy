/** What holds of every group: its counters balance, and its dissector is written once. */
module Groups {
  import opened Words
  import opened GrmCookie
  import opened Allocator
  import opened Tubular
  import opened Steering
  import opened Invariants
  import opened Routing

  // ---- the laws of one group ----

  /** Every packet is accounted for, stage by stage. */
  predicate RxBalanced(r: Rx) {
    && r.processed == r.internalError + r.progError + r.tooShort + r.dissected
    && r.dissected == r.flowOk + r.rgConflict + r.otherError + r.newUnseen
    && r.newFlow == r.rgConflict + r.otherError + r.newUnseen
    && r.newFlow == r.dispatchOk + r.dispatchError
    && r.hadExpired + r.badCookie <= r.newUnseen
  }

  /** Every send and every assure is accounted for. */
  predicate TxBalanced(t: Tx) {
    && t.total == t.createOk + t.createError + t.updateOk + t.updateConflict
    && t.createFromExpired <= t.createOk
  }

  predicate Lawful(g: Conf) {
    RxBalanced(g.rx) && TxBalanced(g.tx) && Accepts(g.dis)
  }

  ghost predicate AllLawful(conf: map<Key, Conf>) {
    forall k :: k in conf ==> Lawful(conf[k])
  }

  /** A packet's way never claims an expired entry and a bad cookie at once. */
  predicate OneReason(path: Path) {
    path.Fresh? ==> !path.second.FlowOk? && (path.second.Unseen? ==> !(path.second.expired && path.second.badCookie))
  }

  lemma RxStaysBalanced(r: Rx, path: Path)
    requires RxBalanced(r) && OneReason(path)
    ensures RxBalanced(CountRx(r, path))
  {
  }

  lemma TxStaysBalanced(t: Tx, o: TxOutcome)
    requires TxBalanced(t)
    ensures TxBalanced(CountTx(t, o))
  {
  }

  lemma PathHasOneReason(s: System, k: Key, p: Packet, now: u64)
    requires Formed(s) && k in s.conf
    ensures OneReason(PathOf(s, k, p, now))
  {
    hide Formed, ThirdOf, CookieSought, Kind, LiveSet;
  }

  // ---- the laws are kept ----

  lemma LawfulEnter(s: System, c: Cookie, rid: Option<u32>)
    requires Formed(s) && AllLawful(s.conf) && Enter(s, c, rid).Entered?
    ensures AllLawful(Enter(s, c, rid).s.conf)
  {
    hide Shaped, QueueFormed, SocksFormed, TablesFormed, JobFormed, ConfsFormed, Lawful, EmptySlots, NewConf;
    if c in s.socks && rid.Some? {
      NewIsLawful(s.socks[c].netns, rid.value);
    }
  }

  lemma NewIsLawful(netns: nat, rid: u32)
    ensures Lawful(NewConf(netns, rid))
  {
    hide RxBalanced, TxBalanced, Accepts;
    assert RxBalanced(ZeroRx) && TxBalanced(ZeroTx) by {
      ZeroBalanced();
    }
    assert Accepts(EmptyDissector) by {
      DefaultAccepted();
    }
  }

  lemma ZeroBalanced()
    ensures RxBalanced(ZeroRx) && TxBalanced(ZeroTx)
  {
    hide RxBalanced;
    NoneCounted(ZeroRx, 0);
  }

  lemma NoneCounted(r: Rx, z: nat)
    requires r == Rx(z, z, z, z, z, z, z, z, z, z, z, z, z, z) && z == 0
    ensures RxBalanced(r)
  {
  }

  lemma DefaultAccepted()
    ensures Accepts(EmptyDissector)
  {
    hide Kind;
    KindOfZero();
  }

  lemma KindOfZero()
    ensures Kind(0) == DISSECTOR_FLOW
  {
  }

  lemma LawfulSetWorkingGen(s: System, c: Cookie, gen: u32, rid: Option<u32>, full: bool)
    requires Formed(s) && AllLawful(s.conf)
    ensures AllLawful(SetWorkingGen(s, c, gen, rid, full).s.conf)
  {
    hide Shaped, QueueFormed, SocksFormed, TablesFormed, JobFormed, Enter, RxBalanced, TxBalanced, Accepts;
    if Enter(s, c, rid).Entered? {
      LawfulEnter(s, c, rid);
    }
  }

  lemma LawfulSetSocketGen(s: System, c: Cookie, gen: u32, rid: Option<u32>, full: bool)
    requires Formed(s) && AllLawful(s.conf)
    ensures AllLawful(SetSocketGen(s, c, gen, rid, full).s.conf)
  {
    hide Shaped, QueueFormed, SocksFormed, TablesFormed, JobFormed, Enter, Lawful;
    if Enter(s, c, rid).Entered? {
      LawfulEnter(s, c, rid);
    }
  }

  lemma LawfulSetSocketApp(s: System, c: Cookie, app: u32, rid: Option<u32>)
    requires Formed(s) && AllLawful(s.conf)
    ensures AllLawful(SetSocketApp(s, c, app, rid).s.conf)
  {
    hide Shaped, QueueFormed, SocksFormed, TablesFormed, JobFormed, Enter, Lawful;
    if Enter(s, c, rid).Entered? {
      LawfulEnter(s, c, rid);
    }
  }

  lemma KindTwice(typ: u32)
    ensures Kind(Kind(typ)) == Kind(typ)
  {
    HighHalf(typ / 0x1_0000, typ % 0x8000);
    LowHalf(typ / 0x1_0000, typ % 0x8000);
  }

  lemma HighHalf(hi: nat, lo: nat)
    requires lo < 0x8000
    ensures (hi * 0x1_0000 + lo) / 0x1_0000 == hi
  {
  }

  lemma LowHalf(hi: nat, lo: nat)
    requires lo < 0x8000
    ensures (hi * 0x1_0000 + lo) % 0x8000 == lo
  {
    var n := hi * 0x1_0000 + lo;
    assert n == 0x8000 * (hi * 2) + lo;
    assert n / 0x8000 == hi * 2;
  }

  lemma LawfulSetDissector(s: System, c: Cookie, d: Dissector, rid: Option<u32>, full: bool)
    requires Formed(s) && AllLawful(s.conf)
    ensures AllLawful(SetDissector(s, c, d, rid, full).s.conf)
  {
    hide Shaped, QueueFormed, SocksFormed, TablesFormed, JobFormed, Enter, RxBalanced, TxBalanced, Kind, SameDissector,
      Verbose;
    KindTwice(d.typ);
    if Enter(s, c, rid).Entered? {
      LawfulEnter(s, c, rid);
    }
  }

  lemma LawfulFlowAssure(s: System, k: Key, c: Cookie, h: u32, now: u64, later: u64, insertFails: bool)
    requires Formed(s) && k in s.conf && AllLawful(s.conf)
    ensures AllLawful(FlowAssure(s, k, c, h, now, later, insertFails).conf)
  {
    hide Shaped, QueueFormed, SocksFormed, TablesFormed, JobFormed, ConfsFormed, RxBalanced, TxBalanced, Accepts,
      CountTx, TxOutcomeOf, FlowsAfter;
    TxStaysBalanced(s.conf[k].tx, TxOutcomeOf(s.flows, TimeoutNs(s.conf[k].dis), c, h, now, insertFails));
  }

  lemma LawfulAssure(s: System, c: Cookie, h: Option<u32>, rid: Option<u32>, now: u64, later: u64, insertFails: bool)
    requires Formed(s) && AllLawful(s.conf)
    ensures AllLawful(AssureCall(s, c, h, rid, now, later, insertFails).s.conf)
  {
    hide Shaped, QueueFormed, SocksFormed, TablesFormed, JobFormed, Enter, Lawful, FlowAssure, TxOutcomeOf, Kind;
    var e := Enter(s, c, rid);
    if e.Entered? {
      LawfulEnter(s, c, rid);
      if h.Some? {
        LawfulFlowAssure(e.s, e.s.socks[c].key, c, h.value, now, later, insertFails);
      }
    }
  }

  lemma LawfulReceive(s: System, k: Key, p: Packet, now: u64)
    requires Formed(s) && AllLawful(s.conf)
    ensures AllLawful(Receive(s, k, p, now).conf)
  {
    hide Shaped, QueueFormed, SocksFormed, TablesFormed, JobFormed, ConfsFormed, RxBalanced, TxBalanced, Accepts,
      CountRx, PathOf;
    if k in s.conf {
      PathHasOneReason(s, k, p, now);
      RxStaysBalanced(s.conf[k].rx, PathOf(s, k, p, now));
    }
  }

  lemma LawfulHook(s: System, e: Step)
    requires Formed(s) && Enabled(s, e) && IsHook(e) && AllLawful(s.conf)
    ensures AllLawful(Next(s, e).conf)
  {
    hide Formed, AllLawful, SetWorkingGen, SetSocketGen, SetDissector, SetSocketApp, AssureCall, FlowAssure, Receive,
      TakeMessage, Advance, CleanupStale, Kind, FreshId;
    match e
    case DoSetWorkingGen(c, gen, rid, full) => LawfulSetWorkingGen(s, c, gen, rid, full);
    case DoSetSocketGen(c, gen, rid, full) => LawfulSetSocketGen(s, c, gen, rid, full);
    case DoSetDissector(c, d, rid, full) => LawfulSetDissector(s, c, d, rid, full);
    case DoSetSocketApp(c, app, rid) => LawfulSetSocketApp(s, c, app, rid);
    case DoAssure(c, h, rid, now, later, insertFails) => LawfulAssure(s, c, h, rid, now, later, insertFails);
    case DoSend(c, h, now, later, insertFails) =>
      if c in s.socks && s.socks[c].key in s.conf {
        LawfulFlowAssure(s, s.socks[c].key, c, h, now, later, insertFails);
      }
    case DoReceive(key, packet, now) => LawfulReceive(s, key, packet, now);
    case _ =>
  }

  lemma LawfulStep(s: System, e: Step)
    requires Inv(s) && Enabled(s, e) && AllLawful(s.conf)
    ensures AllLawful(Next(s, e).conf)
  {
    hide Core, Kept, Formed, Enabled, AllLawful, Frame, Next;
    FormedOf(s);
    if IsHook(e) {
      LawfulHook(s, e);
    } else {
      StepFrame(s, e);
      FrameConf(s, e, Next(s, e));
    }
  }

  lemma {:induction false} RunLawful(tr: seq<System>, es: seq<Step>, n: nat)
    requires IsRun(tr, es) && tr[0] == Boot && n < |tr|
    ensures Inv(tr[n]) && AllLawful(tr[n].conf)
  {
    hide Inv, Formed, Next, Enabled, AllLawful;
    InvBoot();
    RunInv(tr, es, n);
    if n == 0 {
      BootLawful();
    } else {
      RunLawful(tr, es, n - 1);
      LawfulStep(tr[n - 1], es[n - 1]);
    }
  }

  lemma BootLawful()
    ensures AllLawful(Boot.conf)
  {
  }

  /** Counter conservation over every run. */
  lemma CountersBalance(tr: seq<System>, es: seq<Step>, n: nat, k: Key)
    requires IsRun(tr, es) && tr[0] == Boot && n < |tr| && k in tr[n].conf
    ensures RxBalanced(tr[n].conf[k].rx) && TxBalanced(tr[n].conf[k].tx)
  {
    hide IsRun, Inv, RxBalanced, TxBalanced, Accepts;
    RunLawful(tr, es, n);
  }

  // ---- the dissector ----

  /** In every reachable state a group of any kind keeps the limits of its kind, so its rows are split into at
      least eight per application: the remainder in the row computation is never by zero. */
  lemma LimitsHold(tr: seq<System>, es: seq<Step>, n: nat, k: Key)
    requires IsRun(tr, es) && tr[0] == Boot && n < |tr| && k in tr[n].conf
    ensures var d := tr[n].conf[k].dis;
      && Kind(d.typ) in {DISSECTOR_FLOW, DISSECTOR_CBPF, DISSECTOR_BESPOKE, DISSECTOR_NOOP}
      && (Kind(d.typ) == DISSECTOR_FLOW || Kind(d.typ) == DISSECTOR_NOOP ==>
        d.filterLen == 0 && d.maxApps == 0 && d.digest == 0)
      && (Kind(d.typ) == DISSECTOR_CBPF ==> 1 <= d.filterLen <= MAX_INSTR && d.digest == 0)
      && d.maxApps <= MAX_APPS && SlotSize(d.maxApps) >= 8
  {
    hide IsRun, Kept, Kind, Named, Covering, SlotOwned, RxBalanced, TxBalanced;
    RunLawful(tr, es, n);
    assert Lawful(tr[n].conf[k]) && ConfFormed(tr[n].conf[k]);
  }

  /** The rows per application that the row computation works with, for any 32-bit application limit. */
  function RawSlotSize(maxApps: u32): nat {
    MAX_GENS / (if maxApps == 0 then 1 else maxApps)
  }

  /** Nothing but the assumption on BESPOKE dissectors keeps the row computation from a remainder by zero: the
      creating call accepts every BESPOKE dissector, and the rows per application are zero exactly from 33 on. */
  lemma BespokeLimit(d: Dissector)
    ensures RawSlotSize(d.maxApps) == 0 <==> d.maxApps > MAX_GENS
    ensures Kind(d.typ) == DISSECTOR_BESPOKE ==> Accepts(d)
    ensures Accepts(d) && RawSlotSize(d.maxApps) == 0 ==> Kind(d.typ) == DISSECTOR_BESPOKE
  {
    hide Kind;
    if d.maxApps > MAX_GENS {
      assert MAX_GENS / d.maxApps == 0;
    } else if d.maxApps > 0 {
      assert d.maxApps * 1 <= MAX_GENS;
      assert MAX_GENS / d.maxApps >= 1;
    }
  }

  /** Over every run, the dissector of a group never changes once the group exists. */
  lemma {:induction false} DissectorForever(tr: seq<System>, es: seq<Step>, m: nat, n: nat, k: Key)
    requires IsRun(tr, es) && tr[0] == Boot && m <= n < |tr| && k in tr[m].conf
    ensures k in tr[n].conf && tr[n].conf[k].dis == tr[m].conf[k].dis
    ensures tr[n].conf[k].randomId == tr[m].conf[k].randomId
    decreases n
  {
    hide Inv, Formed, Next, Enabled, Frame;
    if n > m {
      InvBoot();
      DissectorForever(tr, es, m, n - 1, k);
      RunFrame(tr, es, n - 1);
      FormedOf(tr[n - 1]);
      DissectorStays(tr[n - 1], es[n - 1], tr[n], k);
    }
  }

  /** On an existing group the call succeeds exactly when the dissectors agree up to the verbose flag, and at most
      that flag changes. */
  lemma LaterCallExactly(s: System, c: Cookie, d: Dissector, rid: Option<u32>, full: bool)
    requires Formed(s) && Reaches(s, c)
    ensures var k, r := s.socks[c].key, SetDissector(s, c, d, rid, full);
      && (r.err == OK <==> SameDissector(s.conf[k].dis, d))
      && (r.err == OK ==> r.s == s.(conf := s.conf[k := s.conf[k].(verbose := Verbose(d.typ))]))
      && (r.err != OK ==> r.err == EPERM && r.s == s)
  {
    hide Shaped, QueueFormed, SocksFormed, TablesFormed, JobFormed, ConfsFormed, Kind, Verbose, Accepts;
  }

  /** A first call is refused exactly when the dissector is not acceptable, and then leaves no group behind. */
  lemma FirstCallExactly(s: System, c: Cookie, d: Dissector, rid: u32, full: bool)
    requires Formed(s) && c in s.socks && s.socks[c].key !in s.conf
    ensures var k, r := s.socks[c].key, SetDissector(s, c, d, Some(rid), full);
      && (r.err == EPERM <==> !Accepts(d)) && (r.err == EAGAIN <==> Accepts(d) && full) &&
        (r.err == OK <==> Accepts(d) && !full)
      && (r.err == EPERM ==> r.s == s)
      && (r.err == OK ==> k in r.s.conf && SameDissector(r.s.conf[k].dis, d))
      && (r.err == EAGAIN ==> k in r.s.conf && r.s.conf[k].dis == EmptyDissector)
  {
    hide Shaped, QueueFormed, SocksFormed, TablesFormed, JobFormed, ConfsFormed, Kind, Verbose, Accepts;
    KindTwice(d.typ);
  }

  /** A first call that finds the message ring full is rejected and yet leaves a group, with the default dissector:
      the same call made again is then refused, exactly when it asks for anything else. */
  lemma FullRingLocksOut(s: System, c: Cookie, d: Dissector, rid: u32, rid': Option<u32>)
    requires Formed(s) && c in s.socks && s.socks[c].key !in s.conf && Accepts(d)
    ensures var r := SetDissector(s, c, d, Some(rid), true);
      && r.err == EAGAIN && Formed(r.s) && s.socks[c].key in r.s.conf
      && (SetDissector(r.s, c, d, rid', false).err == OK <==> SameDissector(EmptyDissector, d))
  {
    hide QueueFormed, SocksFormed, TablesFormed, JobFormed, ConfsFormed, Shaped, Kind, Verbose, Accepts, SameDissector;
    FirstCallExactly(s, c, d, rid, true);
    var r := SetDissector(s, c, d, Some(rid), true);
    EnteredFull(s, c, d, rid);
    LaterCallExactly(r.s, c, d, rid', false);
  }

  lemma EnteredFull(s: System, c: Cookie, d: Dissector, rid: u32)
    requires Formed(s) && c in s.socks && s.socks[c].key !in s.conf && Accepts(d)
    ensures var r := SetDissector(s, c, d, Some(rid), true); Formed(r.s) && Reaches(r.s, c) && r.s.socks == s.socks
  {
    hide QueueFormed, SocksFormed, TablesFormed, JobFormed, Shaped, Kind, Verbose, Accepts;
  }

  /** Two dissectors compare equal exactly when they are equal, or differ in the verbose bit alone. */
  lemma SameDissectorExactly(a: Dissector, b: Dissector)
    ensures SameDissector(a, b) <==>
      && a.(typ := 0) == b.(typ := 0)
      && (|| a.typ == b.typ
          || (!Verbose(b.typ) && a.typ == b.typ + 0x8000)
          || (!Verbose(a.typ) && b.typ == a.typ + 0x8000))
  {
    hide Verbose, Kind;
    KindBits(a.typ);
    KindBits(b.typ);
    if a.typ == b.typ + 0x8000 && !Verbose(b.typ) {
      KindOfVerbose(b.typ, a.typ);
    } else if b.typ == a.typ + 0x8000 && !Verbose(a.typ) {
      KindOfVerbose(a.typ, b.typ);
    }
  }

  lemma KindOfVerbose(quiet: u32, loud: u32)
    requires !Verbose(quiet) && loud == quiet + 0x8000
    ensures Kind(loud) == Kind(quiet)
  {
    var a, r := quiet / 0x8000, quiet % 0x8000;
    assert quiet == 0x8000 * a + r && loud == 0x8000 * (a + 1) + r;
    assert loud / 0x8000 == a + 1 && loud % 0x8000 == r;
    Halves(quiet);
    Halves(loud);
  }

  lemma Halves(n: nat)
    ensures n / 0x1_0000 == n / 0x8000 / 2
  {
  }

  lemma KindBits(typ: u32)
    ensures typ == Kind(typ) || typ == Kind(typ) + 0x8000
    ensures typ == Kind(typ) <==> !Verbose(typ)
  {
    var hi, lo := typ / 0x1_0000, typ % 0x1_0000;
    assert typ == hi * 0x1_0000 + lo;
    assert typ % 0x8000 == lo % 0x8000 by {
      assert typ == 0x8000 * (hi * 2) + lo;
    }
    assert typ / 0x8000 == hi * 2 + lo / 0x8000;
  }
}
