/** Whole runs: slots, descriptors and cookie routing. */
module Routing {
  import opened Words
  import opened GrmCookie
  import opened Allocator
  import opened Tubular
  import opened Steering
  import opened Invariants

  /** A run: `tr[i + 1]` is the state after step `es[i]`. */
  ghost predicate IsRun(tr: seq<System>, es: seq<Step>) {
    && |tr| == |es| + 1
    && (forall i :: 0 <= i < |es| ==> Formed(tr[i]) && Enabled(tr[i], es[i]) && tr[i + 1] == Next(tr[i], es[i]))
  }

  /** The invariant holds all along a run. */
  lemma {:induction false} RunInv(tr: seq<System>, es: seq<Step>, n: nat)
    requires IsRun(tr, es) && Inv(tr[0]) && n < |tr|
    ensures Inv(tr[n])
  {
    hide Formed, Core, Kept, Next, Enabled;
    if n > 0 {
      RunInv(tr, es, n - 1);
      InvStep(tr[n - 1], es[n - 1]);
    }
  }

  // ---- the allocator ----

  /** In every reachable state every live slot is announced, except between the cookie write and
      the length write of the one registration in progress, and no row is longer than 256. */
  lemma LiveSlotsAnnounced(tr: seq<System>, es: seq<Step>, n: nat, k: Key, g: nat, i: nat)
    requires IsRun(tr, es) && tr[0] == Boot && n < |tr|
    requires k in tr[n].slots && g < MAX_GENS && i < MAX_SOCKETS_IN_GEN
    ensures Formed(tr[n]) && tr[n].slots[k].maxIdx[g] <= MAX_SOCKETS_IN_GEN
    ensures tr[n].slots[k].cookies[g][i] in LiveSet(tr[n]) ==>
      i < tr[n].slots[k].maxIdx[g] || Unannounced(tr[n].job, k, g)
  {
    InvBoot();
    RunInv(tr, es, n);
  }

  /** A registration gets the lowest slot of its row that names no live socket; it gets none
      exactly when all 256 do. */
  lemma RegistrationTakesLowestDead(s: System, fd: int)
    requires Inv(s) && Enabled(s, DoTakeMessage(Some(fd))) && s.queue[0].RegisterMsg?
    ensures var s' := TakeMessage(s, Some(fd));
      var row := s.slots[s.queue[0].key].cookies[s'.job.row];
      && s'.job.Job?
      && (s'.job.free < 0 <==> forall i :: 0 <= i < MAX_SOCKETS_IN_GEN ==> row[i] in LiveSet(s))
      && (s'.job.free >= 0 ==> row[s'.job.free] !in LiveSet(s) && forall i :: 0 <= i < s'.job.free ==>
        row[i] in LiveSet(s))
  {
    var s1 := PopMessage(s);
    SameLive(s, s1);
    assert MsgFormed(s.queue[0], s.conf.Keys, s.socks);
    assert |s.slots[s.queue[0].key].cookies[TakeMessage(s, Some(fd)).job.row]| == MAX_SOCKETS_IN_GEN;
    hide LiveSet, Core, Kept;
  }

  // ---- descriptors ----

  /** The descriptors that a step closes. */
  ghost function ClosedBy(s: System, e: Step): set<int>
    requires Formed(s) && Enabled(s, e)
  {
    match e
    case DoTakeMessage(_) =>
      var m := s.queue[0];
      assert MsgFormed(m, s.conf.Keys, s.socks);
      if m.WorkingMsg? && Labelled(s.conf[m.key].dis) then
        Registered(s.tub, s.conf[m.key].randomId, m.gen % MAX_GENS) else {}
    case DoAdvance(_) =>
      var j := s.job;
      if j.at == Hashed && Labelled(s.conf[j.key].dis) then Replaced(s.tub, s.conf[j.key].randomId, j.row, j.free)
      else if j.at == IndexSet && !j.kept then {j.fd} else {}
    case DoCleanup(now) => CleanedUp(s.tub, now)
    case _ => {}
  }

  /** A step closes only descriptors that are open, so none is closed twice, and overwriting a
      cell never closes one at all. */
  lemma ClosesOnlyOpen(s: System, e: Step)
    requires Inv(s) && Enabled(s, e)
    ensures ClosedBy(s, e) <= s.fds.Keys
    ensures e.DoAdvance? && s.job.at == Hashed ==> ClosedBy(s, e) == {}
  {
    hide Named, Covering, SlotOwned, Shaped, ConfsFormed, TablesFormed, Preserve, Replaced, Conserved, Holds,
      Registered, CleanedUp;
    assert s.fds.Keys - {} == s.fds.Keys;
    match e
    case DoTakeMessage(_) =>
      var m := s.queue[0];
      assert MsgFormed(m, s.conf.Keys, s.socks);
      if m.WorkingMsg? {
        RegisterConserves(s.tub, s.fds.Keys, s.conf[m.key].randomId, m.gen % MAX_GENS);
      }
    case DoAdvance(now) =>
      if s.job.at == Hashed {
        KeepClosesNothing(s, now);
      }
    case DoCleanup(now) =>
      CleanupConserves(s.tub, s.fds.Keys, now);
    case _ =>
  }

  /** The descriptor that a step obtains. */
  ghost function ObtainedBy(s: System, e: Step): set<int>
    requires Formed(s) && Enabled(s, e)
  {
    if e.DoTakeMessage? && s.queue[0].RegisterMsg? && e.fd.Some? then {e.fd.value} else {}
  }

  lemma LedgerTake(s: System, fd: Option<int>)
    requires Formed(s) && Enabled(s, DoTakeMessage(fd))
    ensures TakeMessage(s, fd).fds.Keys ==
      s.fds.Keys + ObtainedBy(s, DoTakeMessage(fd)) - ClosedBy(s, DoTakeMessage(fd))
  {
    assert MsgFormed(s.queue[0], s.conf.Keys, s.socks);
    hide ConfsFormed, TablesFormed, SocksFormed, Shaped, QueueFormed, LiveSet, Register, Registered;
  }

  lemma LedgerAdvance(s: System, now: u64)
    requires Formed(s) && Enabled(s, DoAdvance(now))
    ensures Advance(s, now).fds.Keys == s.fds.Keys - ClosedBy(s, DoAdvance(now))
  {
    hide ConfsFormed, TablesFormed, SocksFormed, Shaped, QueueFormed, LiveSet, Preserve, Replaced, SetSlot, SetLength,
      Labelled;
  }

  /** Every step's account of the daemon's descriptors: what it obtains was not open, what it closes was, and nothing
      else comes or goes. */
  lemma Ledger(s: System, e: Step)
    requires Inv(s) && Enabled(s, e)
    ensures Next(s, e).fds.Keys == s.fds.Keys + ObtainedBy(s, e) - ClosedBy(s, e)
    ensures ObtainedBy(s, e) !! s.fds.Keys && ClosedBy(s, e) <= s.fds.Keys && ObtainedBy(s, e) !! ClosedBy(s, e)
  {
    hide Core, Kept, Formed, ClosedBy, SetWorkingGen, SetSocketGen, SetDissector, SetSocketApp, AssureCall, TakeMessage,
      Advance, Receive, SendMsg, Bind, Cleanup, CleanedUp, HookFrame;
    FormedOf(s);
    ClosesOnlyOpen(s, e);
    match e
    case DoTakeMessage(fd) => LedgerTake(s, fd);
    case DoAdvance(now) => LedgerAdvance(s, now);
    case DoCleanup(now) => LedgerCleanup(s, now);
    case DoClose(_) => LedgerIdle(s, e);
    case _ =>
      HookStep(s, e);
      LedgerHook(s, e);
      LedgerIdle(s, e);
  }

  lemma LedgerHook(s: System, e: Step)
    requires Formed(s) && Enabled(s, e) && IsHook(e) && HookFrame(s, Actor(e), Touched(s, e), Next(s, e))
    ensures Next(s, e).fds == s.fds
  {
    hide Formed, Next, GroupStep, SockStep, QueueStep;
  }

  lemma LedgerIdle(s: System, e: Step)
    requires Formed(s) && Enabled(s, e) && !e.DoTakeMessage? && !e.DoAdvance? && !e.DoCleanup?
    ensures ClosedBy(s, e) == {} && ObtainedBy(s, e) == {} && s.fds.Keys + {} - {} == s.fds.Keys
  {
    hide Formed;
  }

  lemma LedgerCleanup(s: System, now: u64)
    requires Formed(s) && Enabled(s, DoCleanup(now))
    ensures CleanupStale(s, now).fds.Keys == s.fds.Keys + ObtainedBy(s, DoCleanup(now)) - ClosedBy(s, DoCleanup(now))
  {
    hide ConfsFormed, TablesFormed, SocksFormed, QueueFormed, Cleanup, CleanedUp;
  }

  /** Descriptors obtained, and closed, in the first `n` steps of a run. */
  ghost function Obtained(tr: seq<System>, es: seq<Step>, n: nat): nat
    requires IsRun(tr, es) && n < |tr|
  {
    if n == 0 then 0 else Obtained(tr, es, n - 1) + |ObtainedBy(tr[n - 1], es[n - 1])|
  }

  ghost function Closed(tr: seq<System>, es: seq<Step>, n: nat): nat
    requires IsRun(tr, es) && n < |tr|
  {
    if n == 0 then 0 else Closed(tr, es, n - 1) + |ClosedBy(tr[n - 1], es[n - 1])|
  }

  /** Over every run, the descriptors that were obtained are the ones that were closed and the ones still open. */
  lemma {:induction false} NoneLost(tr: seq<System>, es: seq<Step>, n: nat)
    requires IsRun(tr, es) && tr[0] == Boot && n < |tr|
    ensures Obtained(tr, es, n) == Closed(tr, es, n) + |tr[n].fds.Keys|
  {
    hide Inv, Formed, Next, Enabled, ObtainedBy, ClosedBy;
    if n > 0 {
      NoneLost(tr, es, n - 1);
      InvBoot();
      RunInv(tr, es, n - 1);
      Ledger(tr[n - 1], es[n - 1]);
      Balance(tr[n - 1].fds.Keys, ObtainedBy(tr[n - 1], es[n - 1]), ClosedBy(tr[n - 1], es[n - 1]));
    }
  }

  lemma Balance(held: set<int>, more: set<int>, gone: set<int>)
    requires more !! held && gone <= held
    ensures |held + more - gone| == |held| + |more| - |gone|
  {
    assert (held + more - gone) + gone == held + more;
  }

  /** In every reachable state each descriptor of the daemon is in hand, or in exactly one cell,
      and that cell is below its row's announced length. */
  lemma DescriptorsConserved(tr: seq<System>, es: seq<Step>, n: nat, fd: int)
    requires IsRun(tr, es) && tr[0] == Boot && n < |tr|
    ensures var s := tr[n];
      fd in s.fds <==> (s.job.Job? && !s.job.kept && fd == s.job.fd) || exists rid, g, i :: Holds(s.tub, rid, g, i, fd)
    ensures var s := tr[n];
      !((s.job.Job? && !s.job.kept && fd == s.job.fd) && exists rid, g, i :: Holds(s.tub, rid, g, i, fd))
    ensures forall rid, g, i :: Holds(tr[n].tub, rid, g, i, fd) ==> Covered(tr[n].tub, rid, g, i)
    ensures forall rid, g, i, rid', g', i' ::
      Holds(tr[n].tub, rid, g, i, fd) && Holds(tr[n].tub, rid', g', i', fd) ==> rid == rid' && g == g' && i == i'
  {
    InvBoot();
    RunInv(tr, es, n);
    var s := tr[n];
    assert s.job.Job? ==> s.job.fd in s.fds;
    hide IsRun, Formed, Holds, LiveSet, Named, Covering, SlotOwned;
    assert fd in s.fds.Keys - InHand(s.job) <==> exists rid, g, i :: Holds(s.tub, rid, g, i, fd);
  }

  // ---- slots stay with their sockets ----

  /** The slot tables change only by a new group and by the daemon's two table writes. */
  ghost predicate SlotsStep(slots: map<Key, Slots>, j: Job, k: Key, slots': map<Key, Slots>)
    requires TablesFormed(slots)
  {
    || slots' == slots
    || (k !in slots && slots' == slots[k := EmptySlots()])
    || (&& j.Job? && j.key in slots && j.row < MAX_GENS && 0 <= j.free < j.len <= MAX_SOCKETS_IN_GEN
        && ((j.at == Preserved && slots' == slots[j.key := SetSlot(slots[j.key], j.row, j.free, j.cookie)]) ||
            (j.at == CookieSet && slots' == slots[j.key := SetLength(slots[j.key], j.row, j.len)])))
  }

  lemma SlotsFrame(s: System, e: Step, s': System)
    requires Formed(s) && Enabled(s, e) && Frame(s, e, s')
    ensures SlotsStep(s.slots, s.job, Touched(s, e), s'.slots)
  {
    hide LiveSet, Shaped, QueueFormed, ConfsFormed, TablesFormed, SocksFormed, SockStep, QueueStep, StartRegistration,
      PopMessage, SocketsStep, WorkingStep, LiveStep, SetSlot, SetLength, EmptySlots, ConfFormed;
  }

  lemma SlotStaysBy(slots: map<Key, Slots>, j: Job, k0: Key, slots': map<Key, Slots>, live: set<Cookie>, k: Key,
      g: nat, i: nat)
    requires TablesFormed(slots) && SlotsStep(slots, j, k0, slots') && SlotOwned(j, slots, live)
    requires k in slots && g < MAX_GENS && i < MAX_SOCKETS_IN_GEN && slots[k].cookies[g][i] in live
    ensures k in slots' && SlotsFormed(slots'[k]) && slots'[k].cookies[g][i] == slots[k].cookies[g][i]
  {
    hide SetSlot, SetLength, EmptySlots;
  }

  /** While a socket lives, no step gives a slot that names it to another socket. */
  lemma SlotStays(s: System, e: Step, s': System, k: Key, g: nat, i: nat)
    requires Inv(s) && Enabled(s, e) && Frame(s, e, s') && Inv(s') && k in s.slots && g < MAX_GENS
    requires i < MAX_SOCKETS_IN_GEN
    requires s.slots[k].cookies[g][i] in LiveSet(s)
    ensures k in s'.slots && s'.slots[k].cookies[g][i] == s.slots[k].cookies[g][i]
  {
    hide LiveSet, Kept, Named, Covering, SlotOwned, Frame, Enabled, SlotsFormed, SlotsStep, Shaped, QueueFormed,
      ConfsFormed, SocksFormed;
    SlotsFrame(s, e, s');
    SlotStaysBy(s.slots, s.job, Touched(s, e), s'.slots, LiveSet(s), k, g, i);
  }

  // ---- cookie routing ----

  ghost predicate Asked(queue: seq<Msg>, c: Cookie) {
    exists i :: 0 <= i < |queue| && queue[i].RegisterMsg? && queue[i].cookie == c
  }

  /** A registration of socket `c` is queued, or its index is not written yet. */
  ghost predicate Pending(queue: seq<Msg>, j: Job, c: Cookie) {
    Asked(queue, c) || (j.Job? && j.cookie == c && j.at != IndexSet)
  }

  /** The latest generation request of socket `c` has been served: the slot that its generation and
      index name is its own. */
  ghost predicate Placed(s: System, c: Cookie)
    requires Formed(s)
  {
    && c in s.socks && s.socks[c].key in s.conf && s.socks[c].idx < MAX_SOCKETS_IN_GEN
    && s.slots[s.socks[c].key].cookies[RowOf(s, c)][s.socks[c].idx] == c
    && !Pending(s.queue, s.job, c)
  }

  /** The step is not a new generation request of `c`, nor a bind of `c`. */
  predicate Undisturbed(s: System, e: Step, c: Cookie) {
    && !(e.DoBind? && e.c == c)
    && !(e.DoSetSocketGen? && e.c == c && c in s.socks && e.gen != s.socks[c].gen)
  }

  lemma SockStays(s: System, e: Step, s': System, c: Cookie)
    requires Formed(s) && Enabled(s, e) && SocketsStep(s, e, s') && Undisturbed(s, e, c)
    requires c in s.socks && s.socks[c].idx != UNSET && !Pending(s.queue, s.job, c)
    ensures c in s'.socks && s'.socks[c] == s.socks[c].(appOpen := s'.socks[c].appOpen)
    ensures !Asked(s'.queue, c)
  {
    hide Formed;
  }

  lemma JobStays(s: System, e: Step, s': System, c: Cookie)
    requires Formed(s) && Enabled(s, e) && Frame(s, e, s') && !Pending(s.queue, s.job, c)
    ensures s'.job.Job? && s'.job.cookie == c ==> s'.job.at == IndexSet
  {
    hide Shaped, QueueFormed, ConfsFormed, SocksFormed, TablesFormed, SocketsStep, WorkingStep, LiveStep, GroupStep,
      SockStep, QueueStep, LiveSet, SetSlot, SetLength;
  }

  /** Dissectors do not change. */
  lemma DissectorStays(s: System, e: Step, s': System, k: Key)
    requires Formed(s) && Enabled(s, e) && Frame(s, e, s') && k in s.conf
    ensures k in s'.conf && s'.conf[k].dis == s.conf[k].dis && s'.conf[k].randomId == s.conf[k].randomId
  {
    hide Formed, SocketsStep, SockStep, QueueStep, InsertHash, WriteCookie, WriteLength, WriteIndex, StartRegistration,
      PopMessage, ConfFormed;
    FrameConf(s, e, s');
  }

  lemma FrameConf(s: System, e: Step, s': System)
    requires Formed(s) && Enabled(s, e) && Frame(s, e, s')
    ensures if IsHook(e) then GroupStep(s, Touched(s, e), s') else s'.conf == s.conf
  {
    hide Shaped, QueueFormed, ConfsFormed, SocksFormed, TablesFormed, SocketsStep, WorkingStep, LiveStep, GroupStep,
      SockStep, QueueStep, LiveSet, SetSlot, SetLength;
  }

  /** A placed socket stays placed, in the same slot, as long as it lives and asks for nothing new. */
  lemma PlacedStays(s: System, e: Step, s': System, c: Cookie)
    requires Inv(s) && Enabled(s, e) && Frame(s, e, s') && Inv(s')
    requires Placed(s, c) && c in LiveSet(s) && Undisturbed(s, e, c)
    ensures Placed(s', c) && s'.socks[c].key == s.socks[c].key && RowOf(s', c) == RowOf(s, c)
    ensures ReportedCookie(s', c) == ReportedCookie(s, c)
  {
    hide Core, Kept, Formed, LiveSet, SocketsStep, Frame, Enabled, RowOf, ReportedCookie, Asked, WorkingStep, LiveStep;
    var k := s.socks[c].key;
    FormedOf(s);
    FormedOf(s');
    FrameParts(s, e, s');
    SockStays(s, e, s', c);
    JobStays(s, e, s', c);
    DissectorStays(s, e, s', k);
    KeysOf(s);
    KeysOf(s');
    SameRow(s, s', c);
    SlotStays(s, e, s', k, RowOf(s, c), s.socks[c].idx);
  }

  lemma SameRow(s: System, s': System, c: Cookie)
    requires Formed(s) && Formed(s') && c in s.socks && c in s'.socks && s.socks[c].key in s.conf
    requires s.socks[c].key in s'.conf
    requires s'.socks[c] == s.socks[c].(appOpen := s'.socks[c].appOpen, idx := s'.socks[c].idx,
      changes := s'.socks[c].changes)
    requires s'.conf[s.socks[c].key].dis == s.conf[s.socks[c].key].dis
    ensures RowOf(s', c) == RowOf(s, c)
    ensures s'.socks[c].idx == s.socks[c].idx ==> ReportedCookie(s', c) == ReportedCookie(s, c)
  {
    hide Shaped, QueueFormed, SocksFormed, TablesFormed, JobFormed, ToWrkGen, Pack;
  }

  lemma KeysOf(s: System)
    requires Formed(s)
    ensures s.conf.Keys == s.slots.Keys
  {
  }

  predicate ByProgram(d: Dissector) {
    Kind(d.typ) == DISSECTOR_CBPF || Kind(d.typ) == DISSECTOR_BESPOKE
  }

  /** Exactly when a reported cookie works, placed or not, while a move is pending or after one: a packet whose program
      returns the cookie that getsockopt reports for a socket is delivered to that socket if and only if the slot that
      the cookie names holds the socket and the socket is live. */
  lemma ReachesExactly(s: System, c: Cookie, p: Packet, now: u64)
    requires Formed(s) && c in s.socks && s.socks[c].key in s.conf && ByProgram(s.conf[s.socks[c].key].dis)
    requires p.ran == Ran(IERR_OK, ReportedCookie(s, c))
    ensures PathOf(s, s.socks[c].key, p, now) == Existing(c) <==>
      s.slots[s.socks[c].key].cookies[RowOf(s, c)][s.socks[c].idx % MAX_SOCKETS_IN_GEN] == c && c in LiveSet(s)
  {
    hide Shaped, QueueFormed, JobFormed, Pending, ToWrkGen, LiveSet, Unpack, Pack, ThirdOf, SecondByHash, Kind;
    var k := s.socks[c].key;
    UnpackPack(ToWrkGen(s.conf[k].dis.maxApps, s.socks[c].app, s.socks[c].gen), s.socks[c].idx);
    var d := DissectCbpf(s.conf[k].dis.maxApps, p.ran);
    assert d == HasCookie(ReportedCookie(s, c));
    var sought := CookieSought(s, k, d);
    assert sought == s.slots[k].cookies[RowOf(s, c)][s.socks[c].idx % MAX_SOCKETS_IN_GEN];
    assert SecondByCookie(s, k, c) == FlowOk(c) <==> c in LiveSet(s);
  }

  /** A packet whose program returns the cookie that getsockopt reports for a placed, live socket
      is delivered to exactly that socket. */
  lemma RoutedToOwner(s: System, c: Cookie, p: Packet, now: u64)
    requires Formed(s) && Placed(s, c) && c in LiveSet(s) && ByProgram(s.conf[s.socks[c].key].dis)
    requires p.ran == Ran(IERR_OK, ReportedCookie(s, c))
    ensures PathOf(s, s.socks[c].key, p, now) == Existing(c)
    ensures var k := s.socks[c].key; Receive(s, k, p, now).conf[k].rx.flowOk == s.conf[k].rx.flowOk + 1
  {
    hide Shaped, QueueFormed, SocksFormed, JobFormed, Pending, LiveSet, PathOf, ReportedCookie, RowOf, ByProgram;
    ReachesExactly(s, c, p, now);
  }

  /** The facts of a run, step by step. */
  lemma RunFrame(tr: seq<System>, es: seq<Step>, n: nat)
    requires IsRun(tr, es) && Inv(tr[0]) && n < |es|
    ensures Inv(tr[n]) && Enabled(tr[n], es[n]) && Frame(tr[n], es[n], tr[n + 1]) && Inv(tr[n + 1])
  {
    hide Formed, Core, Kept, Next, Enabled, Frame;
    RunInv(tr, es, n);
    RunInv(tr, es, n + 1);
    StepFrame(tr[n], es[n]);
  }

  /** Cookie routing over runs: once placed, and as long as the socket lives and asks for no other
      generation, it keeps its slot and its cookie, and every packet carrying that cookie reaches it,
      whatever the other sockets, the generations and the daemon do. */
  lemma {:induction false} CookieRouting(tr: seq<System>, es: seq<Step>, n: nat, c: Cookie, p: Packet, now: u64)
    requires IsRun(tr, es) && Inv(tr[0]) && n < |tr| && Placed(tr[0], c)
    requires ByProgram(tr[0].conf[tr[0].socks[c].key].dis)
    requires forall i :: 0 <= i <= n ==> c in LiveSet(tr[i])
    requires forall i :: 0 <= i < n ==> Undisturbed(tr[i], es[i], c)
    requires p.ran == Ran(IERR_OK, ReportedCookie(tr[0], c))
    ensures Formed(tr[n]) && Placed(tr[n], c) && ReportedCookie(tr[n], c) == ReportedCookie(tr[0], c)
    ensures tr[n].socks[c].key == tr[0].socks[c].key
    ensures tr[n].conf[tr[n].socks[c].key].dis == tr[0].conf[tr[0].socks[c].key].dis
    ensures PathOf(tr[n], tr[n].socks[c].key, p, now) == Existing(c)
    ensures var k := tr[n].socks[c].key; Receive(tr[n], k, p, now).conf[k].rx.flowOk == tr[n].conf[k].rx.flowOk + 1
  {
    hide Formed, Core, Kept, Next, Enabled, Frame, LiveSet, PathOf, ReportedCookie, RowOf, ByProgram, Pending, Receive;
    FormedOf(tr[0]);
    if n == 0 {
      RoutedToOwner(tr[0], c, p, now);
    } else {
      CookieRouting(tr, es, n - 1, c, p, now);
      RunFrame(tr, es, n - 1);
      FormedOf(tr[n]);
      PlacedStays(tr[n - 1], es[n - 1], tr[n], c);
      DissectorStays(tr[n - 1], es[n - 1], tr[n], tr[n - 1].socks[c].key);
      RoutedToOwner(tr[n], c, p, now);
    }
  }

  /** Two placed sockets of one group never report the same cookie. */
  lemma CookiesDiffer(s: System, c: Cookie, d: Cookie)
    requires Formed(s) && Placed(s, c) && Placed(s, d) && c != d && s.socks[c].key == s.socks[d].key
    ensures ReportedCookie(s, c) != ReportedCookie(s, d)
  {
    hide Shaped, QueueFormed, SocksFormed, JobFormed, Pending, ToWrkGen, Pack;
    if ReportedCookie(s, c) == ReportedCookie(s, d) {
      var g := s.conf[s.socks[c].key].dis.maxApps;
      PackInjective(ToWrkGen(g, s.socks[c].app, s.socks[c].gen), s.socks[c].idx,
                    ToWrkGen(g, s.socks[d].app, s.socks[d].gen), s.socks[d].idx);
    }
  }
}
