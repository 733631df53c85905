/** A flow stays with its socket for as long as the socket keeps sending. */
module Stickiness {
  import opened Words
  import opened Allocator
  import opened Tubular
  import opened Steering
  import opened Invariants
  import opened Routing

  // ---- what steps do to the flow table ----

  /** The dissector that a call on behalf of `c` works with; a group created by the call has the default one. */
  function SenderDis(s: System, c: Cookie): Dissector {
    if c in s.socks && s.socks[c].key in s.conf then s.conf[s.socks[c].key].dis else EmptyDissector
  }

  /** A flow table entry touched by a send or an assure. */
  datatype Touch = Touch(c: Cookie, h: u32, now: u64, later: u64, insertFails: bool)

  /** The flow that a step assures, if any. */
  function Assures(s: System, e: Step): Option<Touch>
    requires Formed(s)
  {
    match e
    case DoSend(c, h, now, later, insertFails) =>
      if c in s.socks && s.socks[c].key in s.conf && Kind(SenderDis(s, c).typ) == DISSECTOR_FLOW
      then Some(Touch(c, h, now, later, insertFails)) else None
    case DoAssure(c, h, rid, now, later, insertFails) =>
      if Enter(s, c, rid).Entered? && Kind(SenderDis(s, c).typ) == DISSECTOR_FLOW && h.Some?
      then Some(Touch(c, h.value, now, later, insertFails)) else None
    case _ => None
  }

  function TouchOutcome(s: System, t: Touch): TxOutcome {
    TxOutcomeOf(s.flows, TimeoutNs(SenderDis(s, t.c)), t.c, t.h, t.now, t.insertFails)
  }

  function FlowsNext(s: System, e: Step): map<u32, Flow>
    requires Formed(s)
  {
    match Assures(s, e)
    case Some(t) => FlowsAfter(s.flows, TouchOutcome(s, t), t.c, t.h, t.now, t.later)
    case None => if e.DoEvict? then s.flows - {e.hash} else s.flows
  }

  lemma FlowsOfAssure(s: System, c: Cookie, h: Option<u32>, rid: Option<u32>, now: u64, later: u64, insertFails: bool)
    requires Formed(s) && FreshId(s, rid)
    ensures var e := DoAssure(c, h, rid, now, later, insertFails);
      var r := AssureCall(s, c, h, rid, now, later, insertFails);
      && r.s.flows == FlowsNext(s, e)
      && (Assures(s, e).Some? ==>
            && r.s.clock == later
            && (r.err == OK || r.err == EEXIST)
            && var o := TouchOutcome(s, Assures(s, e).value);
               r.err == EEXIST <==> o.CreateError? || o.UpdateConflict?)
      && (Assures(s, e).None? ==> r.s.clock == s.clock)
  {
    hide Shaped, QueueFormed, SocksFormed, TablesFormed, JobFormed, ConfsFormed, Kind, CountTx, TxOutcomeOf, FlowsAfter,
      TimeoutNs;
    if Enter(s, c, rid).Entered? {
      EnterDis(s, c, rid);
      hide Enter;
    }
  }

  lemma EnterDis(s: System, c: Cookie, rid: Option<u32>)
    requires Formed(s) && Enter(s, c, rid).Entered?
    ensures var s1 := Enter(s, c, rid).s;
      && c in s.socks && c in s1.socks && s1.socks[c].key in s1.conf && s1.conf[s1.socks[c].key].dis == SenderDis(s, c)
      && s1.flows == s.flows && s1.clock == s.clock
  {
    hide Shaped, QueueFormed, SocksFormed, TablesFormed, JobFormed, ConfsFormed;
  }

  /** The flow table and the clock after each step. */
  lemma FlowsFrame(s: System, e: Step)
    requires Inv(s) && Enabled(s, e)
    ensures Next(s, e).flows == FlowsNext(s, e)
    ensures s.clock <= Next(s, e).clock
    ensures Assures(s, e).Some? ==>
      Assures(s, e).value.later <= Next(s, e).clock && s.clock <= Assures(s, e).value.now <= Assures(s, e).value.later
  {
    hide Core, Kept, Formed, AssureCall, Kind, CountTx, CountRx, PathOf, TxOutcomeOf, FlowsAfter, TimeoutNs,
      TakeMessage, Advance, SetWorkingGen, SetSocketGen, SetDissector, SetSocketApp, Enter, Cleanup, CleanedUp,
      SenderDis;
    FormedOf(s);
    match e
    case DoAssure(c, h, rid, now, later, insertFails) => FlowsOfAssure(s, c, h, rid, now, later, insertFails);
    case DoSend(c, h, now, later, insertFails) => SenderOf(s, c);
    case DoTakeMessage(fd) => ClockTake(s, fd);
    case DoAdvance(now) => ClockAdvance(s, now);
    case DoSetWorkingGen(c, gen, rid, full) => ClockOfCalls(s, c, gen, rid, full, EmptyDissector);
    case DoSetSocketGen(c, gen, rid, full) => ClockOfCalls(s, c, gen, rid, full, EmptyDissector);
    case DoSetDissector(c, d, rid, full) => ClockOfCalls(s, c, 0, rid, full, d);
    case DoSetSocketApp(c, app, rid) => ClockOfCalls(s, c, app, rid, false, EmptyDissector);
    case _ =>
  }

  lemma SenderOf(s: System, c: Cookie)
    ensures c in s.socks && s.socks[c].key in s.conf ==> SenderDis(s, c) == s.conf[s.socks[c].key].dis
  {
  }

  /** The other calls leave the flow table and the clock alone. */
  lemma ClockOfCalls(s: System, c: Cookie, v: u32, rid: Option<u32>, full: bool, d: Dissector)
    requires Formed(s)
    ensures SetWorkingGen(s, c, v, rid, full).s.flows == s.flows && SetWorkingGen(s, c, v, rid, full).s.clock == s.clock
    ensures SetSocketGen(s, c, v, rid, full).s.flows == s.flows && SetSocketGen(s, c, v, rid, full).s.clock == s.clock
    ensures SetDissector(s, c, d, rid, full).s.flows == s.flows && SetDissector(s, c, d, rid, full).s.clock == s.clock
    ensures SetSocketApp(s, c, v, rid).s.flows == s.flows && SetSocketApp(s, c, v, rid).s.clock == s.clock
  {
    hide Shaped, QueueFormed, SocksFormed, TablesFormed, JobFormed, ConfsFormed, Enter, SameDissector, Accepts, Verbose,
      Kind;
    if Enter(s, c, rid).Entered? {
      EnterDis(s, c, rid);
      FormedEntered(s, c, rid);
    }
  }

  lemma FormedEntered(s: System, c: Cookie, rid: Option<u32>)
    requires Formed(s) && Enter(s, c, rid).Entered?
    ensures Formed(Enter(s, c, rid).s) && c in Enter(s, c, rid).s.socks
    ensures Enter(s, c, rid).s.socks[c].key in Enter(s, c, rid).s.conf
    ensures forall k :: k in Enter(s, c, rid).s.conf ==> |Enter(s, c, rid).s.conf[k].workingGen| == MAX_APPS
  {
    hide Shaped, QueueFormed, SocksFormed, TablesFormed, JobFormed;
  }

  lemma ClockTake(s: System, fd: Option<int>)
    requires Formed(s) && Enabled(s, DoTakeMessage(fd))
    ensures TakeMessage(s, fd).flows == s.flows && TakeMessage(s, fd).clock == s.clock
  {
    assert MsgFormed(s.queue[0], s.conf.Keys, s.socks);
    hide ConfsFormed, TablesFormed, SocksFormed, Shaped, QueueFormed, LiveSet, Register, Registered;
  }

  lemma ClockAdvance(s: System, now: u64)
    requires Formed(s) && Enabled(s, DoAdvance(now))
    ensures Advance(s, now).flows == s.flows && s.clock <= Advance(s, now).clock
  {
    hide Formed, KeepFd, InsertHash, WriteCookie, WriteLength, WriteIndex, Finish;
    ClockWrites(s);
    if s.job.at == Hashed {
      ClockKeep(s, now);
    }
  }

  lemma ClockKeep(s: System, now: u64)
    requires Formed(s) && s.job.Job? && s.job.at == Hashed && s.clock <= now
    ensures KeepFd(s, now).flows == s.flows && s.clock <= KeepFd(s, now).clock
  {
    hide ConfsFormed, TablesFormed, SocksFormed, Shaped, QueueFormed, Preserve, Replaced, Labelled;
  }

  lemma ClockWrites(s: System)
    requires Formed(s) && s.job.Job?
    ensures s.job.at == Found ==> InsertHash(s).flows == s.flows && InsertHash(s).clock == s.clock
    ensures s.job.at == Preserved ==> WriteCookie(s).flows == s.flows && WriteCookie(s).clock == s.clock
    ensures s.job.at == CookieSet ==> WriteLength(s).flows == s.flows && WriteLength(s).clock == s.clock
    ensures s.job.at == MaxSet ==> WriteIndex(s).flows == s.flows && WriteIndex(s).clock == s.clock
    ensures s.job.at == IndexSet ==> Finish(s).flows == s.flows && Finish(s).clock == s.clock
  {
    hide ConfsFormed, TablesFormed, SocksFormed, Shaped, QueueFormed, SetSlot, SetLength;
  }

  // ---- when is an entry fresh? ----

  /** A gap in nanoseconds is within the timeout of dissector `d`: its own number of seconds, 125 seconds when it
      names none. */
  predicate Within(gap: int, d: Dissector) {
    gap <= if d.timeoutSec == 0 then 125_000_000_000 else 1_000_000_000 * d.timeoutSec
  }

  lemma WithinTimeout(gap: int, d: Dissector)
    ensures Within(gap, d) <==> gap <= TimeoutNs(d)
  {
  }

  // ---- one step ----

  /** A rival, a socket of any group other than the entry's owner, takes the entry over exactly when the entry
      has expired by the rival's own timeout; otherwise its attempt changes nothing and counts as a conflict. */
  lemma RivalStealsExactly(flows: map<u32, Flow>, timeout: nat, c: Cookie, h: u32, now: u64, later: u64,
      insertFails: bool)
    requires h in flows && flows[h].cookie != c
    ensures var o := TxOutcomeOf(flows, timeout, c, h, now, insertFails);
      var flows' := FlowsAfter(flows, o, c, h, now, later);
      && h in flows'
      && (flows'[h].cookie != flows[h].cookie <==> Age(now, flows[h].lastTx) > timeout)
      && (Age(now, flows[h].lastTx) <= timeout ==> flows' == flows && o == UpdateConflict)
  {
  }

  /** Entry times are not in the future. */
  ghost predicate FlowsPast(s: System) {
    forall h :: h in s.flows ==> s.flows[h].lastTx <= s.clock
  }

  lemma PastStays(s: System, e: Step)
    requires Inv(s) && Enabled(s, e) && FlowsPast(s)
    ensures FlowsPast(Next(s, e))
  {
    hide Inv, Formed, Enabled, Next, Assures, TouchOutcome;
    FormedOf(s);
    FlowsFrame(s, e);
  }

  lemma {:induction false} RunPast(tr: seq<System>, es: seq<Step>, n: nat)
    requires IsRun(tr, es) && tr[0] == Boot && n < |tr|
    ensures Inv(tr[n]) && FlowsPast(tr[n])
  {
    hide Inv, Formed, Next, Enabled;
    InvBoot();
    RunInv(tr, es, n);
    if n > 0 {
      RunPast(tr, es, n - 1);
      PastStays(tr[n - 1], es[n - 1]);
    }
  }

  // ---- runs ----

  /** Step `e` sends on hash `h`, or assures it. */
  predicate Hits(s: System, e: Step, h: u32)
    requires Formed(s)
  {
    Assures(s, e).Some? && Assures(s, e).value.h == h
  }

  /** When `c` last refreshed the entry of hash `h`, counting from state `m`. */
  ghost function LastRefresh(tr: seq<System>, es: seq<Step>, m: nat, n: nat, h: u32, c: Cookie): u64
    requires m <= n < |tr| == |es| + 1 && (forall j :: m <= j <= n ==> Formed(tr[j])) && h in tr[m].flows
    decreases n
  {
    if n == m then tr[m].flows[h].lastTx
    else if Hits(tr[n - 1], es[n - 1], h) && Assures(tr[n - 1], es[n - 1]).value.c == c then
      Assures(tr[n - 1], es[n - 1]).value.now
    else LastRefresh(tr, es, m, n - 1, h, c)
  }

  /** At step `j` the entry is not evicted, and whoever sends on its hash finds the last refresh within the
      timeout of the sender's group. */
  ghost predicate Timely(tr: seq<System>, es: seq<Step>, m: nat, j: nat, h: u32, c: Cookie)
    requires m <= j < |es| && |tr| == |es| + 1 && (forall i :: m <= i <= j ==> Formed(tr[i])) && h in tr[m].flows
  {
    && !(es[j].DoEvict? && es[j].hash == h)
    && (Hits(tr[j], es[j], h) ==>
          var t := Assures(tr[j], es[j]).value;
          Within(t.now - LastRefresh(tr, es, m, j, h, c), SenderDis(tr[j], t.c)))
  }

  /** The entry that a send or an assure finds is fresh by the timeout of the sender's group. */
  predicate FindsFresh(s: System, t: Touch) {
    t.h in s.flows && Within(t.now - s.flows[t.h].lastTx, SenderDis(s, t.c))
  }

  /** The call is refused: there is no entry and no room for one, or a fresh entry of another socket. */
  predicate TouchRefused(s: System, t: Touch) {
    if t.h in s.flows then FindsFresh(s, t) && s.flows[t.h].cookie != t.c else t.insertFails
  }

  /** The clock readings of a step lie after every entry. */
  lemma AgeIs(s: System, e: Step)
    requires Inv(s) && Enabled(s, e) && FlowsPast(s) && Formed(s) && Assures(s, e).Some?
    ensures var t := Assures(s, e).value;
      t.h in s.flows ==> s.flows[t.h].lastTx <= t.now && Age(t.now, s.flows[t.h].lastTx) == t.now - s.flows[t.h].lastTx
  {
    hide Inv, Formed, Enabled, Next, Assures;
    FlowsFrame(s, e);
  }

  /** What a send or an assure does to the flow table, case by case. A refused one changes nothing. Any other leaves the
      sender's socket in the entry, with the time of the call, the second reading of the clock if the entry had expired,
      and changes no other entry. The assure call answers EEXIST exactly when it is refused. */
  lemma TouchExactly(s: System, e: Step)
    requires Inv(s) && Enabled(s, e) && FlowsPast(s) && Formed(s) && Assures(s, e).Some?
    ensures var t := Assures(s, e).value;
      Next(s, e).flows ==
        if TouchRefused(s, t) then s.flows
        else s.flows[t.h := Flow(if t.h in s.flows && !FindsFresh(s, t) then t.later else t.now, t.c)]
    ensures e.DoAssure? ==>
      AssureCall(s, e.c, e.h, e.rid, e.now, e.later, e.insertFails).err ==
        if TouchRefused(s, Assures(s, e).value) then EEXIST else OK
  {
    hide Inv, Formed, Enabled, Next, Assures, SenderDis, TimeoutNs, AssureCall, FreshId, Within, Age;
    FlowsFrame(s, e);
    AgeIs(s, e);
    var t := Assures(s, e).value;
    if t.h in s.flows {
      WithinTimeout(t.now - s.flows[t.h].lastTx, SenderDis(s, t.c));
    }
    if e.DoAssure? {
      AssureIsFresh(s, e);
      FlowsOfAssure(s, e.c, e.h, e.rid, e.now, e.later, e.insertFails);
    }
  }

  lemma AssureIsFresh(s: System, e: Step)
    requires Formed(s) && Enabled(s, e) && e.DoAssure?
    ensures FreshId(s, e.rid)
  {
  }

  /** The entry under `h` after a timely step: refreshed by its owner, untouched by everybody else. */
  lemma EntryStays(s: System, e: Step, h: u32)
    requires Inv(s) && Enabled(s, e) && FlowsPast(s) && h in s.flows && !(e.DoEvict? && e.hash == h)
    requires Hits(s, e, h) ==> FindsFresh(s, Assures(s, e).value)
    ensures h in Next(s, e).flows
    ensures Next(s, e).flows[h] ==
      if Hits(s, e, h) && Assures(s, e).value.c == s.flows[h].cookie then
        Flow(Assures(s, e).value.now, s.flows[h].cookie) else s.flows[h]
  {
    hide Inv, Formed, Enabled, Next, Assures, SenderDis, TouchOutcome, Within, AssureCall;
    FormedOf(s);
    FlowsFrame(s, e);
    if Assures(s, e).Some? {
      TouchExactly(s, e);
    }
  }

  /** A packet of the flow goes to the live socket that the entry names exactly when the entry is fresh; one nanosecond
      after the timeout it counts as expired and is dispatched as a new flow. */
  lemma EntryRoutesExactly(s: System, k: Key, c: Cookie, h: u32, p: Packet, now: u64)
    requires Formed(s) && k in s.conf && Kind(s.conf[k].dis.typ) == DISSECTOR_FLOW
    requires c in LiveSet(s) && s.socks[c].key == k && h in s.flows && s.flows[h].cookie == c
    requires s.flows[h].lastTx <= now && p.flow == Some(h)
    ensures var isFresh := Within(now - s.flows[h].lastTx, s.conf[k].dis);
      var rx, rx' := s.conf[k].rx, Receive(s, k, p, now).conf[k].rx;
      && PathOf(s, k, p, now) ==
           (if isFresh then Existing(c) else Fresh(Unseen(true, false), 0, ThirdOf(s, k, 0, p.mdHash)))
      && rx'.flowOk == rx.flowOk + (if isFresh then 1 else 0)
      && rx'.hadExpired == rx.hadExpired + (if isFresh then 0 else 1)
      && rx'.newFlow == rx.newFlow + (if isFresh then 0 else 1)
  {
    hide Shaped, QueueFormed, SocksFormed, TablesFormed, JobFormed, ConfsFormed, LiveSet, Kind, ThirdOf, TimeoutNs,
      SecondByCookie, CookieSought, Within;
    assert Age(now, s.flows[h].lastTx) == now - s.flows[h].lastTx;
    WithinTimeout(now - s.flows[h].lastTx, s.conf[k].dis);
  }

  /** The group of a registered socket and its dissector stay. */
  lemma GroupStays(s: System, e: Step, s': System, c: Cookie)
    requires Inv(s) && c in s.socks && s.socks[c].key in s.conf && Enabled(s, e) && Frame(s, e, s')
    ensures c in s'.socks && s'.socks[c].key == s.socks[c].key && s'.socks[c].key in s'.conf
    ensures s'.conf[s'.socks[c].key].dis == s.conf[s.socks[c].key].dis
  {
    hide Core, Kept, Formed, Frame, WorkingStep, LiveStep;
    FormedOf(s);
    FrameParts(s, e, s');
    DissectorStays(s, e, s', s.socks[c].key);
    hide Enabled;
  }

  /** The conclusion of stickiness for one state. */
  ghost predicate StuckTo(s: System, c: Cookie, h: u32, refreshed: u64) {
    h in s.flows && s.flows[h] == Flow(refreshed, c)
  }

  /** Flow stickiness over runs: while the socket lives, nobody evicts the entry, and senders on its hash
      find it fresh, the entry names the socket with the time of its last refresh, whatever happens to
      generations, other sockets and the daemon. */
  lemma {:induction false} EntryKept(tr: seq<System>, es: seq<Step>, m: nat, n: nat, c: Cookie, h: u32)
    requires IsRun(tr, es) && tr[0] == Boot && m <= n < |tr| && (forall i :: 0 <= i < |tr| ==> Formed(tr[i]))
    requires h in tr[m].flows && tr[m].flows[h].cookie == c
    requires forall j :: m <= j < n ==> Timely(tr, es, m, j, h, c)
    ensures StuckTo(tr[n], c, h, LastRefresh(tr, es, m, n, h, c))
    decreases n
  {
    hide Inv, Formed, Next, Enabled, FlowsPast, Assures, SenderDis, Within;
    if n > m {
      EntryKept(tr, es, m, n - 1, c, h);
      RunPast(tr, es, n - 1);
      assert Timely(tr, es, m, n - 1, h, c);
      EntryStays(tr[n - 1], es[n - 1], h);
    }
  }

  lemma {:induction false} GroupKept(tr: seq<System>, es: seq<Step>, m: nat, n: nat, c: Cookie)
    requires IsRun(tr, es) && tr[0] == Boot && m <= n < |tr|
    requires c in tr[m].socks && tr[m].socks[c].key in tr[m].conf
    ensures Inv(tr[n]) && c in tr[n].socks && tr[n].socks[c].key == tr[m].socks[c].key
    ensures tr[n].socks[c].key in tr[n].conf
    ensures tr[n].conf[tr[n].socks[c].key].dis == tr[m].conf[tr[m].socks[c].key].dis
    decreases n
  {
    hide Inv, Formed, Next, Enabled, Frame;
    InvBoot();
    RunInv(tr, es, n);
    if n > m {
      GroupKept(tr, es, m, n - 1, c);
      RunFrame(tr, es, n - 1);
      GroupStays(tr[n - 1], es[n - 1], tr[n], c);
    }
  }

  /** ... and a packet of the flow reaches it, and counts as flow_ok, exactly when it arrives within the timeout of the
      socket's group after the last refresh; a later one counts as expired. */
  lemma FlowSticks(tr: seq<System>, es: seq<Step>, m: nat, n: nat, c: Cookie, h: u32, p: Packet, now: u64)
    requires IsRun(tr, es) && tr[0] == Boot && m <= n < |tr| && (forall i :: 0 <= i < |tr| ==> Formed(tr[i]))
    requires h in tr[m].flows && tr[m].flows[h].cookie == c
    requires c in tr[m].socks && tr[m].socks[c].key in tr[m].conf && Kind(SenderDis(tr[m], c).typ) == DISSECTOR_FLOW
    requires forall j :: m <= j < n ==> Timely(tr, es, m, j, h, c)
    requires c in LiveSet(tr[n]) && p.flow == Some(h) && tr[n].clock <= now
    ensures var k := tr[m].socks[c].key;
      var isFresh := Within(now - LastRefresh(tr, es, m, n, h, c), SenderDis(tr[m], c));
      && k in tr[n].conf && (PathOf(tr[n], k, p, now) == Existing(c) <==> isFresh)
      && var rx, rx' := tr[n].conf[k].rx, Receive(tr[n], k, p, now).conf[k].rx;
         && rx'.flowOk == rx.flowOk + (if isFresh then 1 else 0)
         && rx'.hadExpired == rx.hadExpired + (if isFresh then 0 else 1)
  {
    hide Inv, Formed, Next, Enabled, Kind, LiveSet, PathOf, Receive, Timely, LastRefresh, Within;
    EntryKept(tr, es, m, n, c, h);
    GroupKept(tr, es, m, n, c);
    RunPast(tr, es, n);
    EntryRoutesExactly(tr[n], tr[m].socks[c].key, c, h, p, now);
  }

  /** A rival, another socket that sends on the hash or assures it, is refused exactly while the entry is fresh by the
      timeout of its own group: then the table stays as it is and the assure call answers EEXIST. One nanosecond later
      the entry is the rival's. */
  lemma RivalRefused(s: System, e: Step, h: u32)
    requires Inv(s) && Enabled(s, e) && FlowsPast(s) && h in s.flows && Hits(s, e, h)
    requires Assures(s, e).value.c != s.flows[h].cookie
    ensures var t := Assures(s, e).value;
      var isFresh := Within(t.now - s.flows[h].lastTx, SenderDis(s, t.c));
      && Next(s, e).flows == (if isFresh then s.flows else s.flows[h := Flow(t.later, t.c)])
      && (e.DoAssure? ==>
            AssureCall(s, e.c, e.h, e.rid, e.now, e.later, e.insertFails).err == if isFresh then EEXIST else OK)
  {
    hide Inv, Formed, Next, Enabled, SenderDis, AssureCall, Within, Assures;
    FormedOf(s);
    TouchExactly(s, e);
  }

  /** From the send to the answer: after a send or an assure that is not refused, packets of the flow reach the sender's
      socket for the timeout of its group, and no longer. */
  lemma AnswersComeBack(s: System, e: Step, p: Packet, now: u64)
    requires Inv(s) && Enabled(s, e) && FlowsPast(s) && Formed(s) && Assures(s, e).Some?
    requires !TouchRefused(s, Assures(s, e).value) && Assures(s, e).value.later <= now
    requires var s', t := Next(s, e), Assures(s, e).value;
      && Formed(s') && t.c in LiveSet(s') && s'.socks[t.c].key in s'.conf && p.flow == Some(t.h)
      && Kind(s'.conf[s'.socks[t.c].key].dis.typ) == DISSECTOR_FLOW
    ensures var s', t := Next(s, e), Assures(s, e).value;
      var k := s'.socks[t.c].key;
      && t.h in s'.flows && t.now <= s'.flows[t.h].lastTx <= t.later
      && (PathOf(s', k, p, now) == Existing(t.c) <==> Within(now - s'.flows[t.h].lastTx, s'.conf[k].dis))
  {
    hide Inv, Formed, Next, Enabled, SenderDis, AssureCall, Within, Assures, LiveSet, PathOf, Kind, Receive;
    FlowsFrame(s, e);
    TouchExactly(s, e);
    var s', t := Next(s, e), Assures(s, e).value;
    EntryRoutesExactly(s', s'.socks[t.c].key, t.c, t.h, p, now);
  }
}
