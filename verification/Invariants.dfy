/** What every step of the steering protocol keeps. */
module Invariants {
  import opened Words
  import opened Allocator
  import opened Tubular
  import opened Steering

  // ---- hooks and packets: what they leave alone ----

  /** At most group `k` changes: an existing one keeps namespace, id and dissector, a new one has
      a fresh id and an empty table. */
  ghost predicate GroupStep(s: System, k: Key, s': System) {
    (s'.conf == s.conf && s'.slots == s.slots) ||
    (&& k in s'.conf && s'.conf == s.conf[k := s'.conf[k]] && ConfFormed(s'.conf[k])
     && (if k in s.conf then
           && s'.slots == s.slots && s'.conf[k].netns == s.conf[k].netns
           && s'.conf[k].randomId == s.conf[k].randomId && s'.conf[k].dis == s.conf[k].dis
         else
           s'.slots == s.slots[k := EmptySlots()] && FreshId(s, Some(s'.conf[k].randomId))))
  }

  /** At most socket `c` changes: an existing one keeps its group and its openness, a new one
      starts blank. */
  ghost predicate SockStep(s: System, c: Cookie, s': System) {
    s'.socks == s.socks ||
    (&& c in s'.socks && s'.socks == s.socks[c := s'.socks[c]]
     && (if c in s.socks then
           s'.socks[c].key == s.socks[c].key && s'.socks[c].appOpen == s.socks[c].appOpen
         else
           0 < c < TWO64 - 2 && s'.socks[c] == Sock(s'.socks[c].key, s'.socks[c].netns, UNSET, UNSET, 0, 0, true)))
  }

  /** At most one message is added; a registration asks for its sender's current generation. */
  ghost predicate QueueStep(s: System, c: Cookie, s': System) {
    s'.queue == s.queue ||
    (&& |s'.queue| == |s.queue| + 1 && s'.queue == s.queue + [s'.queue[|s.queue|]]
     && var m := s'.queue[|s.queue|];
        && MsgFormed(m, s'.conf.Keys, s'.socks)
        && (m.RegisterMsg? ==> m.cookie == c && m.gen == s'.socks[c].gen && m.app == s'.socks[c].app))
  }

  /** The effect of a hook call on behalf of socket `c`, of a packet, or of an eviction. */
  ghost predicate HookFrame(s: System, c: Cookie, k: Key, s': System) {
    && s'.hashed == s.hashed && s'.job == s.job && s'.fds == s.fds && s'.tub == s.tub
    && GroupStep(s, k, s') && SockStep(s, c, s') && QueueStep(s, c, s')
  }

  function Actor(e: Step): Cookie {
    match e
    case DoBind(c, _, _) => c
    case DoSetWorkingGen(c, _, _, _) => c
    case DoSetSocketGen(c, _, _, _) => c
    case DoSetDissector(c, _, _, _) => c
    case DoSetSocketApp(c, _, _) => c
    case DoAssure(c, _, _, _, _, _) => c
    case DoSend(c, _, _, _, _) => c
    case _ => 0
  }

  /** The group that a hook call or a packet touches. */
  function Touched(s: System, e: Step): Key {
    if e.DoReceive? then e.key else if Actor(e) in s.socks then s.socks[Actor(e)].key else 0
  }

  predicate IsHook(e: Step) {
    !e.DoClose? && !e.DoTakeMessage? && !e.DoAdvance? && !e.DoCleanup?
  }

  lemma FrameEnter(s: System, c: Cookie, rid: Option<u32>)
    requires Formed(s) && FreshId(s, rid) && Enter(s, c, rid).Entered?
    ensures HookFrame(s, c, s.socks[c].key, Enter(s, c, rid).s)
    ensures Enter(s, c, rid).s.socks == s.socks && Enter(s, c, rid).s.queue == s.queue
    ensures !Enter(s, c, rid).created ==> Enter(s, c, rid).s == s
    ensures Enter(s, c, rid).created <==> s.socks[c].key !in s.conf
  {
    hide Shaped, TablesFormed, QueueFormed, JobFormed, ConfsFormed, SocksFormed;
  }

  lemma FrameSetWorkingGen(s: System, c: Cookie, gen: u32, rid: Option<u32>, full: bool)
    requires Formed(s) && FreshId(s, rid)
    ensures HookFrame(s, c, if c in s.socks then s.socks[c].key else 0, SetWorkingGen(s, c, gen, rid, full).s)
  {
    hide Shaped, TablesFormed, QueueFormed, JobFormed, SocksFormed;
    if Enter(s, c, rid).Entered? {
      FrameEnter(s, c, rid);
    }
    hide Enter;
  }

  lemma FrameSetSocketGen(s: System, c: Cookie, gen: u32, rid: Option<u32>, full: bool)
    requires Formed(s) && FreshId(s, rid)
    ensures HookFrame(s, c, if c in s.socks then s.socks[c].key else 0, SetSocketGen(s, c, gen, rid, full).s)
  {
    hide Shaped, TablesFormed, QueueFormed, JobFormed, ConfsFormed, SocksFormed;
    if Enter(s, c, rid).Entered? {
      FrameEnter(s, c, rid);
    }
    hide Enter, GroupStep;
  }

  lemma FrameSetSocketApp(s: System, c: Cookie, app: u32, rid: Option<u32>)
    requires Formed(s) && FreshId(s, rid)
    ensures HookFrame(s, c, if c in s.socks then s.socks[c].key else 0, SetSocketApp(s, c, app, rid).s)
  {
    hide Shaped, TablesFormed, QueueFormed, JobFormed, ConfsFormed, SocksFormed;
    if Enter(s, c, rid).Entered? {
      FrameEnter(s, c, rid);
    }
    hide Enter, GroupStep;
  }

  lemma FrameSetDissector(s: System, c: Cookie, d: Dissector, rid: Option<u32>, full: bool)
    requires Formed(s) && FreshId(s, rid) && (Kind(d.typ) == DISSECTOR_BESPOKE ==> d.maxApps <= MAX_APPS)
    ensures HookFrame(s, c, if c in s.socks then s.socks[c].key else 0, SetDissector(s, c, d, rid, full).s)
  {
    hide Shaped, TablesFormed, QueueFormed, JobFormed, SocksFormed, Enter, SameDissector, Verbose, Kind;
    if Enter(s, c, rid).Entered? {
      FrameEnter(s, c, rid);
    }
  }

  lemma FrameFlowAssure(s: System, k: Key, c: Cookie, h: u32, now: u64, later: u64, insertFails: bool)
    requires Formed(s) && k in s.conf
    ensures HookFrame(s, c, k, FlowAssure(s, k, c, h, now, later, insertFails))
  {
    hide Shaped, TablesFormed, QueueFormed, JobFormed, SocksFormed, CountTx, TxOutcomeOf;
  }

  lemma FrameReceive(s: System, k: Key, p: Packet, now: u64, c: Cookie)
    requires Formed(s)
    ensures HookFrame(s, c, k, Receive(s, k, p, now))
  {
    hide Shaped, TablesFormed, QueueFormed, JobFormed, SocksFormed, CountRx, PathOf;
  }

  /** Two group-only effects in a row. */
  lemma FrameCompose(s: System, c: Cookie, k: Key, s1: System, s2: System)
    requires HookFrame(s, c, k, s1) && s1.socks == s.socks && s1.queue == s.queue
    requires HookFrame(s1, c, k, s2) && s2.socks == s1.socks && s2.queue == s1.queue
    ensures HookFrame(s, c, k, s2)
  {
    hide ConfFormed;
  }

  lemma FrameAssure(s: System, c: Cookie, h: Option<u32>, rid: Option<u32>, now: u64, later: u64, insertFails: bool)
    requires Formed(s) && FreshId(s, rid)
    ensures HookFrame(s, c, if c in s.socks then s.socks[c].key else 0,
                      AssureCall(s, c, h, rid, now, later, insertFails).s)
  {
    hide Shaped, TablesFormed, QueueFormed, JobFormed, ConfsFormed, SocksFormed;
    var e := Enter(s, c, rid);
    if e.Entered? {
      FrameEnter(s, c, rid);
      if h.Some? {
        var k := s.socks[c].key;
        FrameFlowAssure(e.s, k, c, h.value, now, later, insertFails);
        FrameCompose(s, c, k, e.s, FlowAssure(e.s, k, c, h.value, now, later, insertFails));
      }
    }
    hide Enter, FlowAssure, GroupStep, TxOutcomeOf;
  }

  /** Hooks, packets and evictions stay within their frame. */
  lemma HookStep(s: System, e: Step)
    requires Formed(s) && Enabled(s, e) && IsHook(e)
    ensures HookFrame(s, Actor(e), Touched(s, e), Next(s, e))
  {
    hide Shaped, TablesFormed, QueueFormed, JobFormed, ConfsFormed, SocksFormed;
    hide SetWorkingGen, SetSocketGen, SetDissector, SetSocketApp, AssureCall, FlowAssure, Receive, TakeMessage, Advance,
      CleanupStale;
    match e
    case DoBind(c, key, netns) =>
    case DoSetWorkingGen(c, gen, rid, full) => FrameSetWorkingGen(s, c, gen, rid, full);
    case DoSetSocketGen(c, gen, rid, full) => FrameSetSocketGen(s, c, gen, rid, full);
    case DoSetDissector(c, d, rid, full) => FrameSetDissector(s, c, d, rid, full);
    case DoSetSocketApp(c, app, rid) => FrameSetSocketApp(s, c, app, rid);
    case DoAssure(c, h, rid, now, later, insertFails) => FrameAssure(s, c, h, rid, now, later, insertFails);
    case DoSend(c, h, now, later, insertFails) =>
      if c in s.socks && s.socks[c].key in s.conf {
        FrameFlowAssure(s, s.socks[c].key, c, h, now, later, insertFails);
      }
    case DoReceive(key, packet, now) => FrameReceive(s, key, packet, now, 0);
    case DoEvict(_) =>
  }

  // ---- shape ----

  lemma FormedHook(s: System, c: Cookie, k: Key, s': System)
    requires Formed(s) && HookFrame(s, c, k, s')
    ensures Formed(s')
  {
    hide Shaped, ConfFormed, SlotsFormed;
    assert SlotsFormed(EmptySlots());
    assert forall c0 :: c0 in s.socks ==> c0 in s'.socks && s'.socks[c0].key == s.socks[c0].key;
    assert s.conf.Keys <= s'.conf.Keys;
    forall i | 0 <= i < |s'.queue| ensures MsgFormed(s'.queue[i], s'.conf.Keys, s'.socks) {
      if i < |s.queue| {
        assert MsgFormed(s.queue[i], s.conf.Keys, s.socks);
      }
    }
  }

  // ---- slots, the registration in progress, and announced lengths ----

  /** A slot is empty or names a registered socket of its own group. */
  ghost predicate Named(slots: map<Key, Slots>, hashed: set<Cookie>, socks: map<Cookie, Sock>)
    requires TablesFormed(slots)
  {
    forall k, g, i :: k in slots && 0 <= g < MAX_GENS && 0 <= i < MAX_SOCKETS_IN_GEN ==>
      var c := slots[k].cookies[g][i];
      c == 0 || (c in hashed && c in socks && socks[c].key == k)
  }

  /** The cookie write of the registration in progress has not been announced yet. */
  predicate Unannounced(j: Job, k: Key, g: nat) {
    j.Job? && j.at == CookieSet && j.key == k && j.row == g
  }

  /** Every live slot is below the announced length of its row. */
  ghost predicate Covering(slots: map<Key, Slots>, live: set<Cookie>, job: Job)
    requires TablesFormed(slots)
  {
    forall k, g, i :: k in slots && 0 <= g < MAX_GENS && 0 <= i < MAX_SOCKETS_IN_GEN ==>
      slots[k].cookies[g][i] in live ==> i < slots[k].maxIdx[g] || Unannounced(job, k, g)
  }

  /** The daemon's descriptors are for known sockets. */
  ghost predicate FdsFormed(fds: map<int, Cookie>, socks: map<Cookie, Sock>) {
    forall fd :: fd in fds ==> fd > 0 && fds[fd] in socks
  }

  /** The registration in progress owns its slot: until the cookie is written the slot is dead,
      afterwards it is the socket's; and the length it will announce covers every live slot. */
  ghost predicate SlotOwned(j: Job, slots: map<Key, Slots>, live: set<Cookie>)
    requires TablesFormed(slots)
  {
    j.Job? && j.free >= 0 && j.key in slots && j.row < MAX_GENS && j.free < MAX_SOCKETS_IN_GEN ==>
      var row := slots[j.key].cookies[j.row];
      && (j.at == Found || j.at == Hashed || j.at == Preserved ==> row[j.free] !in live)
      && (j.at == CookieSet || j.at == MaxSet || j.at == IndexSet ==> row[j.free] == j.cookie)
      && (j.at != MaxSet && j.at != IndexSet ==>
            forall i :: 0 <= i < MAX_SOCKETS_IN_GEN && row[i] in live ==> i < j.len)
      && (j.at == MaxSet || j.at == IndexSet ==> slots[j.key].maxIdx[j.row] == j.len)
  }

  ghost predicate JobHeld(j: Job, fds: map<int, Cookie>, hashed: set<Cookie>) {
    j.Job? ==>
      && j.fd in fds && fds[j.fd] == j.cookie
      && (j.free >= 0 && j.at != Found ==> j.cookie in hashed)
  }

  ghost predicate Core(s: System) {
    && Formed(s) && Named(s.slots, s.hashed, s.socks) && Covering(s.slots, LiveSet(s), s.job)
    && FdsFormed(s.fds, s.socks) && SlotOwned(s.job, s.slots, LiveSet(s)) && JobHeld(s.job, s.fds, s.hashed)
  }

  /** Nothing but liveness changed, and only downwards; perhaps a new, empty table appeared. */
  ghost predicate Fewer(s: System, k: Key, s': System) {
    && s'.hashed == s.hashed
    && (s'.job == s.job || (s'.job == Idle && !(s.job.Job? && s.job.at == CookieSet)))
    && (s'.slots == s.slots || (k !in s.slots && s'.slots == s.slots[k := EmptySlots()]))
    && LiveSet(s') <= LiveSet(s)
    && (forall c :: c in s.socks ==> c in s'.socks && s'.socks[c].key == s.socks[c].key)
    && (forall fd :: fd in s'.fds ==> fd in s.fds && s'.fds[fd] == s.fds[fd])
    && (s'.job.Job? ==> s'.job.fd in s'.fds)
  }

  lemma NamedStays(slots: map<Key, Slots>, hashed: set<Cookie>, socks: map<Cookie, Sock>, socks': map<Cookie, Sock>)
    requires TablesFormed(slots) && Named(slots, hashed, socks)
    requires forall c :: c in socks ==> c in socks' && socks'[c].key == socks[c].key
    ensures Named(slots, hashed, socks')
  {
    hide SlotsFormed;
  }

  lemma CoveringStays(slots: map<Key, Slots>, live: set<Cookie>, live': set<Cookie>, j: Job, j': Job)
    requires TablesFormed(slots) && Covering(slots, live, j) && live' <= live
    requires j' == j || !(j.Job? && j.at == CookieSet)
    ensures Covering(slots, live', j')
  {
    hide SlotsFormed;
  }

  lemma SlotOwnedStays(slots: map<Key, Slots>, live: set<Cookie>, live': set<Cookie>, j: Job, j': Job)
    requires TablesFormed(slots) && SlotOwned(j, slots, live) && live' <= live && (j' == j || j' == Idle)
    ensures SlotOwned(j', slots, live')
  {
    hide SlotsFormed;
  }

  /** A new, empty table disturbs nothing. */
  lemma NewTable(slots: map<Key, Slots>, k: Key, hashed: set<Cookie>, socks: map<Cookie, Sock>, live: set<Cookie>,
      j: Job)
    requires TablesFormed(slots) && k !in slots && 0 !in live && (j.Job? ==> j.key in slots)
    requires Named(slots, hashed, socks) && Covering(slots, live, j) && SlotOwned(j, slots, live)
    ensures var slots' := slots[k := EmptySlots()];
      TablesFormed(slots') && Named(slots', hashed, socks) && Covering(slots', live, j) && SlotOwned(j, slots', live)
  {
    var empty := EmptySlots();
    assert SlotsFormed(empty);
    hide EmptySlots, SlotsFormed;
  }

  lemma CoreFewer(s: System, k: Key, s': System)
    requires Core(s) && Formed(s') && Fewer(s, k, s')
    ensures Core(s')
  {
    assert s.job.Job? ==> s.job.key in s.slots;
    assert 0 !in s.socks && 0 !in LiveSet(s) && TablesFormed(s.slots);
    hide Formed, LiveSet, Named, Covering, SlotOwned, TablesFormed;
    NamedStays(s.slots, s.hashed, s.socks, s'.socks);
    CoveringStays(s.slots, LiveSet(s), LiveSet(s'), s.job, s'.job);
    SlotOwnedStays(s.slots, LiveSet(s), LiveSet(s'), s.job, s'.job);
    if s'.slots != s.slots {
      NewTable(s.slots, k, s.hashed, s'.socks, LiveSet(s'), s'.job);
    }
  }

  lemma LiveHook(s: System, c: Cookie, k: Key, s': System)
    requires Formed(s) && HookFrame(s, c, k, s')
    ensures LiveSet(s') == LiveSet(s)
  {
    hide Shaped, QueueFormed, ConfsFormed, SocksFormed, JobFormed, TablesFormed, GroupStep, QueueStep;
    forall d | d in s.hashed ensures Live(s', d) <==> Live(s, d) {
    }
  }

  lemma CoreHook(s: System, c: Cookie, k: Key, s': System)
    requires Core(s) && HookFrame(s, c, k, s')
    ensures Core(s')
  {
    FormedHook(s, c, k, s');
    LiveHook(s, c, k, s');
    hide Shaped, QueueFormed, LiveSet, ConfsFormed, SocksFormed, JobFormed, TablesFormed, Named, Covering, FdsFormed,
      QueueStep;
    CoreFewer(s, k, s');
  }

  lemma CoreClose(s: System, c: Cookie)
    requires Core(s) && c in s.socks
    ensures Core(Close(s, c))
  {
    var s' := Close(s, c);
    assert Formed(s') by {
      hide Shaped, ConfsFormed, TablesFormed;
    }
    hide Shaped, QueueFormed, ConfsFormed, SocksFormed, JobFormed, TablesFormed, Named, Covering, FdsFormed;
    CoreFewer(s, 0, s');
  }

  // ---- the daemon, one write at a time ----

  /** A registration starts: nobody comes to life. */
  lemma CoreStart(s: System, m: Msg, fd: int)
    requires Core(s) && s.job == Idle && m.RegisterMsg? && MsgFormed(m, s.conf.Keys, s.socks)
    requires fd > 0 && fd !in s.fds && s.socks[m.cookie].appOpen
    ensures Core(StartRegistration(s, m, fd))
    ensures LiveSet(StartRegistration(s, m, fd)) == LiveSet(s)
  {
    var s' := StartRegistration(s, m, fd);
    forall c ensures c in s.hashed ==> (Live(s', c) <==> Live(s, c)) {
      if c in s.hashed && Live(s, c) && !s.socks[c].appOpen {
        var f :| f in s.fds && s.fds[f] == c;
        assert f in s'.fds && s'.fds[f] == c;
      }
    }
    assert LiveSet(s') == LiveSet(s);
    hide Shaped, QueueFormed, ConfsFormed, SocksFormed, LiveSet, TablesFormed, ConfFormed;
  }

  /** The sockhash insert: the socket was live all along, so no slot comes to life. */
  lemma CoreInsert(s: System)
    requires Core(s) && s.job.Job? && s.job.at == Found
    ensures Core(InsertHash(s))
    ensures LiveSet(InsertHash(s)) == if s.job.free >= 0 then LiveSet(s) + {s.job.cookie} else LiveSet(s)
  {
    var s', j := InsertHash(s), s.job;
    assert Live(s, j.cookie);
    assert LiveSet(s') == if s.job.free >= 0 then LiveSet(s) + {s.job.cookie} else LiveSet(s);
    forall k, g, i | k in s.slots && 0 <= g < MAX_GENS && 0 <= i < MAX_SOCKETS_IN_GEN
      ensures s.slots[k].cookies[g][i] in LiveSet(s') ==> s.slots[k].cookies[g][i] in LiveSet(s)
    {
      assert 0 !in s.socks;
    }
    hide Shaped, QueueFormed, ConfsFormed, SocksFormed, LiveSet, TablesFormed, ConfFormed;
  }

  lemma FormedWriteCookie(s: System)
    requires Formed(s) && s.job.Job? && s.job.at == Preserved
    ensures Formed(WriteCookie(s))
  {
    hide Shaped, QueueFormed, SocksFormed, ConfsFormed;
  }

  /** The cookie write changes one slot. */
  lemma OneSlotWritten(s: System)
    requires Formed(s) && s.job.Job? && s.job.at == Preserved
    ensures var s', j := WriteCookie(s), s.job;
      && j.key in s.slots && s'.slots.Keys == s.slots.Keys && TablesFormed(s'.slots)
      && (forall k :: k in s.slots ==> s'.slots[k].maxIdx == s.slots[k].maxIdx)
      && forall k, g, i :: k in s.slots && 0 <= g < MAX_GENS && 0 <= i < MAX_SOCKETS_IN_GEN ==>
           s'.slots[k].cookies[g][i] == if k == j.key && g == j.row && i == j.free then j.cookie
             else s.slots[k].cookies[g][i]
  {
    hide Shaped, QueueFormed, SocksFormed, ConfsFormed;
  }

  /** The cookie write: the slot's old cookie is dead, every other slot keeps its cookie. */
  lemma CoreWriteCookie(s: System)
    requires Core(s) && s.job.Job? && s.job.at == Preserved
    ensures Core(WriteCookie(s)) && LiveSet(WriteCookie(s)) == LiveSet(s)
  {
    hide Shaped, QueueFormed, ConfsFormed, SocksFormed, LiveSet, ConfFormed, TablesFormed, FdsFormed, SetSlot;
    FormedWriteCookie(s);
    OneSlotWritten(s);
    JobIsLive(s);
    SameLive(s, WriteCookie(s));
  }

  lemma JobIsLive(s: System)
    requires Core(s) && s.job.Job? && s.job.free >= 0 && s.job.at != Found
    ensures s.job.cookie in LiveSet(s)
  {
    hide Shaped, QueueFormed, ConfsFormed, TablesFormed, Named, Covering, SlotOwned;
  }

  /** The length write: it covers what lives. */
  lemma CoreWriteLength(s: System)
    requires Core(s) && s.job.Job? && s.job.at == CookieSet
    ensures Core(WriteLength(s)) && LiveSet(WriteLength(s)) == LiveSet(s)
  {
    hide Shaped, QueueFormed, ConfsFormed, SocksFormed, LiveSet, FdsFormed, ConfFormed;
    var s' := WriteLength(s);
    SameLive(s, s');
    assert SlotsFormed(s'.slots[s.job.key]);
    assert TablesFormed(s'.slots);
  }

  /** The index write touches the socket only. */
  lemma CoreWriteIndex(s: System)
    requires Core(s) && s.job.Job? && s.job.at == MaxSet
    ensures Core(WriteIndex(s)) && LiveSet(WriteIndex(s)) == LiveSet(s)
  {
    var s' := WriteIndex(s);
    assert Formed(s') by {
      hide Shaped, ConfsFormed, TablesFormed;
    }
    assert forall c :: c in s.socks ==> (Live(s', c) <==> Live(s, c));
    assert LiveSet(s') == LiveSet(s);
    hide Shaped, QueueFormed, ConfsFormed, SocksFormed, LiveSet, TablesFormed, ConfFormed;
  }

  lemma CoreFinish(s: System)
    requires Core(s) && s.job.Job? && s.job.at == IndexSet
    ensures Core(Finish(s))
  {
    var s' := Finish(s);
    assert LiveSet(s') <= LiveSet(s);
    hide Shaped, QueueFormed, ConfsFormed, SocksFormed, LiveSet, TablesFormed, ConfFormed, Named, Covering;
    CoreFewer(s, 0, s');
  }

  // ---- the descriptors kept for Tubular ----

  ghost predicate UniqueIds(conf: map<Key, Conf>) {
    forall k, k' :: k in conf && k' in conf && conf[k].randomId == conf[k'].randomId ==> k == k'
  }

  /** The descriptor that the registration in progress has not handed over. */
  function InHand(j: Job): set<int> {
    if j.Job? && !j.kept then {j.fd} else {}
  }

  /** Cell (g, i) belongs to group `k` and its socket's cookie is in the group's slot (g, i), or is
      about to be written there. */
  ghost predicate Backed(s: System, k: Key, rid: u32, g: nat, i: nat, fd: int)
    requires Formed(s)
  {
    && k in s.conf && s.conf[k].randomId == rid && g < MAX_GENS && i < MAX_SOCKETS_IN_GEN && fd in s.fds
    && (s.slots[k].cookies[g][i] == s.fds[fd] ||
        (s.job.Job? && s.job.at == Preserved && s.job.kept && s.job.fd == fd && s.job.key == k && s.job.row == g &&
          s.job.free == i))
  }

  /** Every descriptor of the daemon is in exactly one covered cell or in hand, and every cell is
      backed by the slot of the same coordinates. */
  ghost predicate Kept(s: System)
    requires Formed(s)
  {
    && UniqueIds(s.conf)
    && Conserved(s.tub, s.fds.Keys - InHand(s.job))
    && (s.job.Job? && s.job.kept ==>
       s.job.at == Preserved || s.job.at == CookieSet || s.job.at == MaxSet || s.job.at == IndexSet)
    && (forall rid, g, i, fd :: Holds(s.tub, rid, g, i, fd) ==> exists k :: Backed(s, k, rid, g, i, fd))
  }

  ghost predicate Inv(s: System) {
    Core(s) && Kept(s)
  }

  /** Groups may appear, tables may lose cells, the job may move on: cells stay backed. */
  ghost predicate BackingStays(s: System, s': System)
    requires Formed(s) && Formed(s')
  {
    forall k, rid, g, i, fd :: Holds(s'.tub, rid, g, i, fd) && Backed(s, k, rid, g, i, fd) ==>
      Backed(s', k, rid, g, i, fd)
  }

  lemma KeptFrom(s: System, s': System)
    requires Formed(s) && Kept(s) && Formed(s') && UniqueIds(s'.conf)
    requires Conserved(s'.tub, s'.fds.Keys - InHand(s'.job))
    requires s'.job.Job? && s'.job.kept ==>
      s'.job.at == Preserved || s'.job.at == CookieSet || s'.job.at == MaxSet || s'.job.at == IndexSet
    requires forall rid, g, i, fd :: Holds(s'.tub, rid, g, i, fd) ==> Holds(s.tub, rid, g, i, fd)
    requires BackingStays(s, s')
    ensures Kept(s')
  {
    hide Formed, Conserved, Holds, UniqueIds;
    forall rid, g, i, fd | Holds(s'.tub, rid, g, i, fd) ensures exists k :: Backed(s', k, rid, g, i, fd) {
      var k :| Backed(s, k, rid, g, i, fd);
      assert Backed(s', k, rid, g, i, fd);
    }
  }

  lemma UniqueIdsGrow(s: System, k: Key, s': System)
    requires UniqueIds(s.conf) && GroupStep(s, k, s')
    ensures UniqueIds(s'.conf)
  {
    hide ConfFormed;
  }

  lemma BackingGrows(s: System, k: Key, s': System)
    requires Formed(s) && Formed(s') && GroupStep(s, k, s') && s'.fds == s.fds && s'.job == s.job
    ensures BackingStays(s, s')
  {
    assert s.conf.Keys == s.slots.Keys;
    hide Formed, ConfFormed, Holds;
  }

  lemma KeptHook(s: System, c: Cookie, k: Key, s': System)
    requires Formed(s) && Kept(s) && HookFrame(s, c, k, s')
    ensures Formed(s') && Kept(s')
  {
    FormedHook(s, c, k, s');
    hide Formed, Conserved, Holds, UniqueIds, GroupStep, SockStep, QueueStep, Backed, BackingStays;
    UniqueIdsGrow(s, k, s');
    BackingGrows(s, k, s');
    KeptFrom(s, s');
  }

  /** The group and slot tables, the descriptors and the Tubular table are as before. */
  lemma KeptSame(s: System, s': System)
    requires Formed(s) && Kept(s) && Formed(s')
    requires s'.conf == s.conf && s'.slots == s.slots && s'.fds == s.fds && s'.tub == s.tub
    requires s'.job == s.job || (s.job.Job? && s.job.at != Preserved && s'.job.Job? && s'.job.fd == s.job.fd &&
      s'.job.kept == s.job.kept
      && (s.job.kept ==> s'.job.at == CookieSet || s'.job.at == MaxSet || s'.job.at == IndexSet))
    ensures Kept(s')
  {
    hide Formed, Conserved, Holds, UniqueIds;
    KeptFrom(s, s');
  }

  /** A fresh descriptor is in hand; the others stay where they are. */
  lemma KeptStart(s: System, m: Msg, fd: int)
    requires Formed(s) && Kept(s) && s.job == Idle && m.RegisterMsg? && MsgFormed(m, s.conf.Keys, s.socks)
    requires fd !in s.fds
    requires Formed(StartRegistration(s, m, fd))
    ensures Kept(StartRegistration(s, m, fd))
  {
    var s' := StartRegistration(s, m, fd);
    assert s'.fds.Keys - {fd} == s.fds.Keys - {};
    hide Formed, Conserved, Holds, UniqueIds, LiveSet;
    KeptFrom(s, s');
  }

  /** Some descriptors are closed, all of them cells that the table gave up. */
  lemma InvCloses(s: System, s': System, gone: set<int>)
    requires Inv(s) && s.job == Idle
    requires s' == s.(tub := s'.tub, fds := s.fds - gone, clock := s'.clock)
    requires Conserved(s'.tub, s.fds.Keys - gone)
    requires forall rid, g, i, fd :: Holds(s'.tub, rid, g, i, fd) ==> Holds(s.tub, rid, g, i, fd)
    ensures Inv(s')
  {
    assert (s.fds - gone).Keys - {} == s.fds.Keys - gone;
    assert LiveSet(s') <= LiveSet(s);
    CoreFewer(s, 0, s') by {
      hide Conserved, Holds, ConfsFormed, TablesFormed, QueueFormed, JobFormed, Named, Covering;
    }
    forall rid, g, i, fd | Holds(s'.tub, rid, g, i, fd) ensures fd in s'.fds {
    }
    hide Formed, UniqueIds, LiveSet, Core, Named, Covering, Conserved, Holds;
    KeptFrom(s, s');
  }

  lemma InvOffer(s: System, m: Msg)
    requires Inv(s) && s.job == Idle && m.WorkingMsg? && m.key in s.conf
    ensures Inv(OfferRow(s, m))
  {
    if Labelled(s.conf[m.key].dis) {
      var rid, row := s.conf[m.key].randomId, m.gen % MAX_GENS;
      assert s.fds.Keys - {} == s.fds.Keys;
      RegisterConserves(s.tub, s.fds.Keys, rid, row);
      RegisterHolds(s.tub, s.fds.Keys, rid, row);
      hide Formed, Core, Conserved, Holds, UniqueIds, Register, Registered;
      InvCloses(s, OfferRow(s, m), Registered(s.tub, rid, row));
    }
  }

  lemma InvCleanup(s: System, now: u64)
    requires Inv(s) && s.job == Idle
    ensures Inv(CleanupStale(s, now))
  {
    assert s.fds.Keys - {} == s.fds.Keys;
    CleanupConserves(s.tub, s.fds.Keys, now);
    CleanupHolds(s.tub, now);
    hide Formed, Core, Conserved, Holds, UniqueIds, Cleanup, CleanedUp;
    InvCloses(s, CleanupStale(s, now), CleanedUp(s.tub, now));
  }

  /** While a slot is being filled, the cells of its row are below the length to be announced,
      and the cell of the slot itself holds nothing: a held descriptor keeps its socket alive. */
  lemma RowIsCovered(s: System)
    requires Inv(s) && s.job.Job? && (s.job.at == Hashed || s.job.at == Preserved)
    ensures forall i: nat, fd :: Holds(s.tub, s.conf[s.job.key].randomId, s.job.row, i, fd) && fd != s.job.fd ==>
      i < s.job.len && i != s.job.free
  {
    var j := s.job;
    var rid := s.conf[j.key].randomId;
    hide Shaped, QueueFormed, ConfsFormed, TablesFormed, Covering;
    forall i: nat, fd | Holds(s.tub, rid, j.row, i, fd) && fd != j.fd ensures i < j.len && i != j.free {
      var k :| Backed(s, k, rid, j.row, i, fd);
      assert k == j.key;
      var c := s.fds[fd];
      assert s.slots[k].cookies[j.row][i] == c && c in s.socks && c != 0;
      assert Live(s, c) && c in LiveSet(s);
    }
  }

  /** Handing the descriptor over closes nothing and keeps the table conserved. */
  lemma KeepClosesNothing(s: System, now: u64)
    requires Inv(s) && s.job.Job? && s.job.at == Hashed
    ensures var j, rid := s.job, s.conf[s.job.key].randomId;
      && Replaced(s.tub, rid, j.row, j.free) == {}
      && Conserved(Preserve(s.tub, rid, j.row, j.len, j.free, j.fd, now), s.fds.Keys)
  {
    var j, rid := s.job, s.conf[s.job.key].randomId;
    RowIsCovered(s);
    var held := s.fds.Keys - {j.fd};
    hide Shaped, QueueFormed, ConfsFormed, TablesFormed, Covering, LiveSet, Holds;
    PreserveConserves(s.tub, held, rid, j.row, j.len, j.free, j.fd, now);
    hide Preserve, Conserved;
    assert Replaced(s.tub, rid, j.row, j.free) == {};
    assert held - {} + {j.fd} == s.fds.Keys;
  }

  /** Only the table, the clock and the job's progress change. */
  lemma KeepFrame(s: System, now: u64)
    requires Inv(s) && s.job.Job? && s.job.at == Hashed
    ensures var s' := KeepFd(s, now);
      && s' == s.(tub := s'.tub, clock := s'.clock, job := s'.job)
      && s'.job.Job? && s'.job == s.job.(at := Preserved, kept := s'.job.kept)
      && Shaped(s'.tub)
  {
    var s', j, rid := KeepFd(s, now), s.job, s.conf[s.job.key].randomId;
    KeepClosesNothing(s, now);
    PreserveHolds(s.tub, rid, j.row, j.len, j.free, j.fd, now);
    hide Conserved, Preserve, Replaced, Holds, Kept, Named, Covering, FdsFormed, LiveSet, QueueFormed, ConfsFormed,
      SocksFormed, SlotOwned;
    assert s.fds - {} == s.fds;
  }

  lemma CoreKeep(s: System, now: u64)
    requires Inv(s) && s.job.Job? && s.job.at == Hashed
    ensures Core(KeepFd(s, now))
  {
    KeepFrame(s, now);
    var s' := KeepFd(s, now);
    hide KeepFd, Kept, Shaped, TablesFormed, QueueFormed, ConfsFormed, SocksFormed, Named, Covering, FdsFormed, LiveSet;
    SameLive(s, s');
    CoveringStays(s.slots, LiveSet(s), LiveSet(s'), s.job, s'.job);
  }

  /** Liveness depends on the sockets and the daemon's descriptors only. */
  lemma SameLive(s: System, s': System)
    requires s'.socks == s.socks && s'.hashed == s.hashed && s'.fds == s.fds
    ensures LiveSet(s') == LiveSet(s)
  {
    assert forall c :: Live(s', c) <==> Live(s, c);
  }

  lemma KeptKeep(s: System, now: u64)
    requires Inv(s) && s.job.Job? && s.job.at == Hashed && Labelled(s.conf[s.job.key].dis)
    requires Formed(KeepFd(s, now))
    ensures Kept(KeepFd(s, now))
  {
    var s', j, rid := KeepFd(s, now), s.job, s.conf[s.job.key].randomId;
    KeepClosesNothing(s, now);
    PreserveHolds(s.tub, rid, j.row, j.len, j.free, j.fd, now);
    assert s'.fds == s.fds && s.fds.Keys - {} == s.fds.Keys;
    assert s'.tub == Preserve(s.tub, rid, j.row, j.len, j.free, j.fd, now);
    assert Backed(s', j.key, rid, j.row, j.free, j.fd);
    hide Preserve, Replaced, Conserved, UniqueIds, Holds, Named, Covering, SlotOwned, Shaped, QueueFormed, ConfsFormed,
      TablesFormed, SocksFormed;
    forall rid', g, i, fd | Holds(s'.tub, rid', g, i, fd) ensures exists k :: Backed(s', k, rid', g, i, fd) {
      if !(rid' == rid && g == j.row && i == j.free) {
        var k :| Backed(s, k, rid', g, i, fd);
        assert Backed(s', k, rid', g, i, fd);
      }
    }
  }

  lemma InvKeep(s: System, now: u64)
    requires Inv(s) && s.job.Job? && s.job.at == Hashed
    ensures Inv(KeepFd(s, now))
  {
    CoreKeep(s, now);
    if Labelled(s.conf[s.job.key].dis) {
      KeptKeep(s, now);
    } else {
      hide Formed, Conserved, UniqueIds, Holds, LiveSet, Named, Covering, SlotOwned;
      KeptSame(s, KeepFd(s, now));
    }
  }

  /** The cookie write turns "about to be written" into "written"; no other cell has this slot. */
  lemma BackingWritten(s: System)
    requires Inv(s) && s.job.Job? && s.job.at == Preserved && Formed(WriteCookie(s))
    ensures BackingStays(s, WriteCookie(s))
  {
    var s', j := WriteCookie(s), s.job;
    RowIsCovered(s);
    hide Shaped, QueueFormed, ConfsFormed, SocksFormed, Conserved, Covering, LiveSet, Named, FdsFormed, SlotOwned;
    forall k, rid, g, i, fd | Holds(s'.tub, rid, g, i, fd) && Backed(s, k, rid, g, i, fd)
      ensures Backed(s', k, rid, g, i, fd)
    {
      assert fd == j.fd || !(k == j.key && g == j.row && i == j.free);
    }
  }

  lemma InvWriteCookie(s: System)
    requires Inv(s) && s.job.Job? && s.job.at == Preserved
    ensures Inv(WriteCookie(s))
  {
    var s' := WriteCookie(s);
    CoreWriteCookie(s);
    BackingWritten(s);
    hide Formed, Core, Conserved, Holds, UniqueIds, LiveSet, BackingStays;
    KeptFrom(s, s');
  }

  lemma InvFinish(s: System)
    requires Inv(s) && s.job.Job? && s.job.at == IndexSet
    ensures Inv(Finish(s))
  {
    CoreFinish(s);
    var s' := Finish(s);
    assert s'.fds.Keys - {} == s.fds.Keys - InHand(s.job);
    assert forall rid, g, i, fd :: Holds(s.tub, rid, g, i, fd) ==> fd in s.fds.Keys - InHand(s.job);
    hide Formed, Conserved, UniqueIds, Holds, LiveSet, Named, Covering, SlotOwned;
    KeptFrom(s, s');
  }

  lemma InvAdvance(s: System, now: u64)
    requires Inv(s) && s.job.Job?
    ensures Inv(Advance(s, now))
  {
    hide InsertHash, KeepFd, WriteCookie, WriteLength, WriteIndex, Finish, Formed, Named, Covering, SlotOwned, Kept;
    match s.job.at
    case Found => InvInsert(s);
    case Hashed => InvKeep(s, now);
    case Preserved => InvWriteCookie(s);
    case CookieSet => InvWriteLength(s);
    case MaxSet => InvWriteIndex(s);
    case IndexSet => InvFinish(s);
  }

  lemma InvInsert(s: System)
    requires Inv(s) && s.job.Job? && s.job.at == Found
    ensures Inv(InsertHash(s))
  {
    CoreInsert(s);
    hide Formed, Named, Covering, SlotOwned, Conserved, UniqueIds, Holds, LiveSet;
    KeptSame(s, InsertHash(s));
  }

  lemma InvWriteLength(s: System)
    requires Inv(s) && s.job.Job? && s.job.at == CookieSet
    ensures Inv(WriteLength(s))
  {
    CoreWriteLength(s);
    var s' := WriteLength(s);
    assert BackingStays(s, s') by {
      hide Shaped, QueueFormed, ConfsFormed, TablesFormed, SocksFormed, Conserved, Covering, LiveSet, Named, SlotOwned,
        Holds;
    }
    hide Formed, Conserved, UniqueIds, Holds, LiveSet, Named, Covering, SlotOwned, BackingStays;
    KeptFrom(s, s');
  }

  lemma InvWriteIndex(s: System)
    requires Inv(s) && s.job.Job? && s.job.at == MaxSet
    ensures Inv(WriteIndex(s))
  {
    CoreWriteIndex(s);
    hide Formed, Named, Covering, SlotOwned, Conserved, UniqueIds, Holds, LiveSet;
    KeptSame(s, WriteIndex(s));
  }

  lemma InvPop(s: System)
    requires Inv(s) && s.queue != []
    ensures Inv(PopMessage(s))
  {
    var s' := PopMessage(s);
    assert LiveSet(s') == LiveSet(s);
    hide Shaped, QueueFormed, ConfsFormed, TablesFormed, SocksFormed, Conserved, UniqueIds, Holds, LiveSet;
    KeptSame(s, s');
  }

  lemma InvTake(s: System, fd: Option<int>)
    requires Inv(s) && Enabled(s, DoTakeMessage(fd))
    ensures Inv(TakeMessage(s, fd))
  {
    var m := s.queue[0];
    assert MsgFormed(m, s.conf.Keys, s.socks);
    InvPop(s);
    var s1 := PopMessage(s);
    assert s1.conf == s.conf && s1.socks == s.socks && s1.job == Idle && s1.fds == s.fds;
    hide Formed, Named, Covering, SlotOwned, Kept, PopMessage, StartRegistration, OfferRow;
    if m.RegisterMsg? && fd.Some? {
      CoreStart(s1, m, fd.value);
      KeptStart(s1, m, fd.value);
    } else if m.WorkingMsg? {
      InvOffer(s1, m);
    }
  }

  lemma InvClose(s: System, c: Cookie)
    requires Inv(s) && c in s.socks
    ensures Inv(Close(s, c))
  {
    CoreClose(s, c);
    hide Formed, Named, Covering, SlotOwned, Conserved, UniqueIds, Holds, LiveSet;
    KeptSame(s, Close(s, c));
  }

  /** Every step keeps the invariant. */
  lemma InvStep(s: System, e: Step)
    requires Inv(s) && Enabled(s, e)
    ensures Inv(Next(s, e))
  {
    if IsHook(e) {
      HookStep(s, e);
      hide Next, Formed, Named, Covering, SlotOwned, Kept, HookFrame, Enabled;
      CoreHook(s, Actor(e), Touched(s, e), Next(s, e));
      KeptHook(s, Actor(e), Touched(s, e), Next(s, e));
    } else {
      hide Formed, Named, Covering, SlotOwned, Kept, Close, TakeMessage, Advance, CleanupStale, SetWorkingGen,
        SetSocketGen, SetDissector, SetSocketApp, AssureCall, SendMsg, Receive, Bind;
      match e
      case DoClose(c) => InvClose(s, c);
      case DoTakeMessage(fd) => InvTake(s, fd);
      case DoAdvance(now) => InvAdvance(s, now);
      case DoCleanup(now) => InvCleanup(s, now);
    }
  }

  lemma InvBoot()
    ensures Inv(Boot)
  {
  }

  // ---- closes and daemon steps: what they change ----

  /** Everything but the daemon's own state is as before. */
  ghost predicate OnlyDaemon(s: System, s': System) {
    && s'.conf == s.conf && s'.slots == s.slots && s'.socks == s.socks && s'.hashed == s.hashed && s'.flows == s.flows
  }

  /** The effect of each close and each daemon step outside the daemon's own state. */
  ghost predicate DaemonFrame(s: System, e: Step, s': System)
    requires Formed(s) && Enabled(s, e)
  {
    match e
    case DoClose(c) => s' == Close(s, c)
    case DoTakeMessage(fd) =>
      && OnlyDaemon(s, s') && s'.queue == s.queue[1..]
      && s'.job == if s.queue[0].RegisterMsg? && fd.Some? then
        StartRegistration(PopMessage(s), s.queue[0], fd.value).job else Idle
    case DoAdvance(now) =>
      && s'.queue == s.queue && s'.flows == s.flows && s'.conf == s.conf
      && (match s.job.at
          case Found => s' == InsertHash(s)
          case Hashed => OnlyDaemon(s, s') && s'.job.Job? && s'.job == s.job.(at := Preserved, kept := s'.job.kept)
          case Preserved => s' == WriteCookie(s)
          case CookieSet => s' == WriteLength(s)
          case MaxSet => s' == WriteIndex(s)
          case IndexSet => OnlyDaemon(s, s') && s'.job == Idle)
    case DoCleanup(now) => OnlyDaemon(s, s') && s'.queue == s.queue && s'.job == s.job
    case _ => true
  }

  lemma FrameTake(s: System, fd: Option<int>)
    requires Formed(s) && Enabled(s, DoTakeMessage(fd))
    ensures DaemonFrame(s, DoTakeMessage(fd), TakeMessage(s, fd))
  {
    assert MsgFormed(s.queue[0], s.conf.Keys, s.socks);
    hide ConfsFormed, TablesFormed, SocksFormed, Shaped, QueueFormed, LiveSet, Register, Registered;
  }

  lemma FrameAdvance(s: System, now: u64)
    requires Formed(s) && Enabled(s, DoAdvance(now))
    ensures DaemonFrame(s, DoAdvance(now), Advance(s, now))
  {
    hide ConfsFormed, TablesFormed, SocksFormed, Shaped, QueueFormed, LiveSet, Preserve, Replaced, SetSlot, SetLength;
  }

  lemma DaemonStep(s: System, e: Step)
    requires Formed(s) && Enabled(s, e) && !IsHook(e)
    ensures DaemonFrame(s, e, Next(s, e))
  {
    hide Formed, SetWorkingGen, SetSocketGen, SetDissector, SetSocketApp, AssureCall, SendMsg, Receive, Bind, Close,
      TakeMessage, Advance, CleanedUp, Cleanup, StartRegistration, PopMessage, InsertHash, WriteCookie, WriteLength,
      WriteIndex;
    match e
    case DoTakeMessage(fd) => FrameTake(s, fd);
    case DoAdvance(now) => FrameAdvance(s, now);
    case _ =>
  }

  // ---- sockets and messages, exactly ----

  /** What each step does to the socket records and to the message queue. */
  ghost predicate SocketsStep(s: System, e: Step, s': System)
    requires Formed(s) && Enabled(s, e)
  {
    match e
    case DoBind(c, key, netns) =>
      && s'.queue == s.queue
      && s'.socks == s.socks[c := if c in s.socks then
        s.socks[c].(gen := UNSET, idx := UNSET, changes := Later(s.socks[c].changes))
                                  else Sock(key, netns, UNSET, UNSET, 0, 0, true)]
    case DoSetSocketGen(c, gen, _, _) =>
      || (s'.socks == s.socks && s'.queue == s.queue)
      || (&& c in s.socks && (s.socks[c].gen != gen || s.socks[c].idx == UNSET)
          && s'.socks == s.socks[c := s.socks[c].(gen := gen, changes := s.socks[c].changes + 1)]
          && s'.queue == s.queue + [RegisterMsg(s.socks[c].key, c, gen, s.socks[c].app)])
    case DoSetSocketApp(c, app, _) =>
      && s'.queue == s.queue
      && s'.socks == if AppChange(s, c, app) then s.socks[c := s.socks[c].(app := app)] else s.socks
    case DoClose(c) => s'.queue == s.queue && s'.socks == s.socks[c := s.socks[c].(appOpen := false)]
    case DoTakeMessage(_) => s'.queue == s.queue[1..] && s'.socks == s.socks
    case DoAdvance(_) =>
      && s'.queue == s.queue
      && s'.socks == if s.job.at == MaxSet then s.socks[s.job.cookie := s.socks[s.job.cookie].(idx := s.job.free)]
        else s.socks
    case _ =>
      && s'.socks == s.socks
      && (s'.queue == s.queue ||
          (|s'.queue| == |s.queue| + 1 && s'.queue == s.queue + [s'.queue[|s.queue|]] &&
            !s'.queue[|s.queue|].RegisterMsg?))
  }

  lemma SocketsGen(s: System, c: Cookie, gen: u32, rid: Option<u32>, full: bool)
    requires Formed(s) && FreshId(s, rid)
    ensures SocketsStep(s, DoSetSocketGen(c, gen, rid, full), SetSocketGen(s, c, gen, rid, full).s)
  {
    hide Shaped, QueueFormed, ConfsFormed, SocksFormed, TablesFormed, JobFormed, Enter, HookFrame;
    if Enter(s, c, rid).Entered? {
      FrameEnter(s, c, rid);
    }
  }

  lemma SocketsApp(s: System, c: Cookie, app: u32, rid: Option<u32>)
    requires Formed(s) && FreshId(s, rid)
    ensures SocketsStep(s, DoSetSocketApp(c, app, rid), SetSocketApp(s, c, app, rid).s)
  {
    hide Shaped, QueueFormed, ConfsFormed, SocksFormed, TablesFormed, JobFormed, EmptySlots;
  }

  lemma SocketsWorking(s: System, c: Cookie, gen: u32, rid: Option<u32>, full: bool)
    requires Formed(s) && FreshId(s, rid)
    ensures SocketsStep(s, DoSetWorkingGen(c, gen, rid, full), SetWorkingGen(s, c, gen, rid, full).s)
  {
    hide Shaped, QueueFormed, ConfsFormed, SocksFormed, TablesFormed, JobFormed, Enter, HookFrame;
    if Enter(s, c, rid).Entered? {
      FrameEnter(s, c, rid);
    }
  }

  lemma SocketsDissector(s: System, c: Cookie, d: Dissector, rid: Option<u32>, full: bool)
    requires Formed(s) && Enabled(s, DoSetDissector(c, d, rid, full))
    ensures SocketsStep(s, DoSetDissector(c, d, rid, full), SetDissector(s, c, d, rid, full).s)
  {
    hide Shaped, QueueFormed, ConfsFormed, SocksFormed, TablesFormed, JobFormed, Enter, HookFrame;
    if Enter(s, c, rid).Entered? {
      FrameEnter(s, c, rid);
    }
  }

  lemma SocketsAssure(s: System, c: Cookie, h: Option<u32>, rid: Option<u32>, now: u64, later: u64, insertFails: bool)
    requires Formed(s) && Enabled(s, DoAssure(c, h, rid, now, later, insertFails))
    ensures SocketsStep(s, DoAssure(c, h, rid, now, later, insertFails),
      AssureCall(s, c, h, rid, now, later, insertFails).s)
  {
    hide Shaped, QueueFormed, ConfsFormed, SocksFormed, TablesFormed, JobFormed, Enter, HookFrame, CountTx, TxOutcomeOf;
    if Enter(s, c, rid).Entered? {
      FrameEnter(s, c, rid);
    }
  }

  lemma SocketsFrame(s: System, e: Step)
    requires Inv(s) && Enabled(s, e)
    ensures SocketsStep(s, e, Next(s, e))
  {
    hide Core, Kept, Formed, SetWorkingGen, SetSocketGen, SetDissector, SetSocketApp, AssureCall, TakeMessage, Advance,
      CleanedUp, Cleanup, StartRegistration, PopMessage, InsertHash, WriteCookie, WriteLength, CountRx, PathOf, CountTx,
      TxOutcomeOf;
    FormedOf(s);
    match e
    case DoSetSocketGen(c, gen, rid, full) => SocketsGen(s, c, gen, rid, full);
    case DoSetSocketApp(c, app, rid) => SocketsApp(s, c, app, rid);
    case DoSetWorkingGen(c, gen, rid, full) => SocketsWorking(s, c, gen, rid, full);
    case DoSetDissector(c, d, rid, full) => SocketsDissector(s, c, d, rid, full);
    case DoAssure(c, h, rid, now, later, insertFails) => SocketsAssure(s, c, h, rid, now, later, insertFails);
    case DoTakeMessage(fd) => FrameTake(s, fd);
    case DoAdvance(now) => SocketsAdvance(s, now);
    case _ =>
  }

  lemma FormedOf(s: System)
    requires Inv(s)
    ensures Formed(s) && Core(s)
  {
  }

  lemma SocketsAdvance(s: System, now: u64)
    requires Formed(s) && Enabled(s, DoAdvance(now))
    ensures SocketsStep(s, DoAdvance(now), Advance(s, now))
  {
    hide Shaped, QueueFormed, ConfsFormed, SocksFormed, TablesFormed, Preserve, Replaced, SetSlot, SetLength;
  }

  /** Step `e` sets a working generation of group `k`: a call that reaches the group while the ring has room. */
  predicate MovesWorking(s: System, e: Step, k: Key) {
    e.DoSetWorkingGen? && !e.full && Reaches(s, e.c) && s.socks[e.c].key == k
  }

  /** Working generations change by their own call, for the caller's group and application, and only by it. */
  ghost predicate WorkingStep(s: System, e: Step, s': System)
    requires ConfsFormed(s.conf)
  {
    forall k :: k in s.conf ==>
      && k in s'.conf
      && s'.conf[k].workingGen ==
           if MovesWorking(s, e, k) then s.conf[k].workingGen[s.socks[e.c].app % MAX_APPS := e.gen]
           else s.conf[k].workingGen
  }

  /** What a call finds: its group, a refusal, or a new group. */
  lemma EnterReaches(s: System, c: Cookie, rid: Option<u32>)
    requires Formed(s)
    ensures c in s.socks && s.socks[c].key in s.conf ==>
      Enter(s, c, rid) == if Reaches(s, c) then Entered(s, false) else Refused
    ensures c in s.socks && s.socks[c].key !in s.conf ==> (Enter(s, c, rid).Entered? <==> rid.Some?)
    ensures c !in s.socks ==> Enter(s, c, rid) == Refused
  {
    hide Shaped, QueueFormed, SocksFormed, TablesFormed, JobFormed, ConfsFormed;
  }

  lemma WorkingOfSet(s: System, c: Cookie, gen: u32, rid: Option<u32>, full: bool)
    requires Formed(s) && FreshId(s, rid)
    ensures WorkingStep(s, DoSetWorkingGen(c, gen, rid, full), SetWorkingGen(s, c, gen, rid, full).s)
  {
    hide Shaped, QueueFormed, SocksFormed, TablesFormed, JobFormed, Enter, SockStep, QueueStep;
    EnterReaches(s, c, rid);
    if Enter(s, c, rid).Entered? {
      FrameEnter(s, c, rid);
    }
  }

  lemma WorkingOfDissector(s: System, c: Cookie, d: Dissector, rid: Option<u32>, full: bool)
    requires Formed(s) && FreshId(s, rid)
    ensures WorkingStep(s, DoSetDissector(c, d, rid, full), SetDissector(s, c, d, rid, full).s)
  {
    hide Shaped, QueueFormed, SocksFormed, TablesFormed, JobFormed, Enter, SockStep, QueueStep, SameDissector, Accepts;
    if Enter(s, c, rid).Entered? {
      FrameEnter(s, c, rid);
    }
  }

  lemma WorkingOfFlow(s: System, k: Key, c: Cookie, h: u32, now: u64, later: u64, insertFails: bool)
    requires Formed(s) && k in s.conf
    ensures var conf' := FlowAssure(s, k, c, h, now, later, insertFails).conf;
      conf' == s.conf[k := conf'[k]] && conf'[k].workingGen == s.conf[k].workingGen
  {
    hide Shaped, QueueFormed, SocksFormed, TablesFormed, JobFormed, CountTx, TxOutcomeOf;
  }

  lemma WorkingOfAssure(s: System, c: Cookie, h: Option<u32>, rid: Option<u32>, now: u64, later: u64, insertFails: bool)
    requires Formed(s) && FreshId(s, rid)
    ensures WorkingStep(s, DoAssure(c, h, rid, now, later, insertFails),
      AssureCall(s, c, h, rid, now, later, insertFails).s)
  {
    hide Shaped, QueueFormed, SocksFormed, TablesFormed, JobFormed, ConfsFormed, Enter, SockStep, QueueStep, FlowAssure,
      TxOutcomeOf, ConfFormed;
    var e := Enter(s, c, rid);
    if e.Entered? {
      FrameEnter(s, c, rid);
      if h.Some? {
        WorkingOfFlow(e.s, s.socks[c].key, c, h.value, now, later, insertFails);
      }
    }
  }

  lemma WorkingOfGen(s: System, c: Cookie, gen: u32, rid: Option<u32>, full: bool)
    requires Formed(s) && FreshId(s, rid)
    ensures WorkingStep(s, DoSetSocketGen(c, gen, rid, full), SetSocketGen(s, c, gen, rid, full).s)
  {
    hide Shaped, QueueFormed, SocksFormed, TablesFormed, JobFormed, ConfsFormed, Enter, SockStep, QueueStep, ConfFormed;
    if Enter(s, c, rid).Entered? {
      FrameEnter(s, c, rid);
    }
  }

  lemma WorkingOfApp(s: System, c: Cookie, app: u32, rid: Option<u32>)
    requires Formed(s) && FreshId(s, rid)
    ensures WorkingStep(s, DoSetSocketApp(c, app, rid), SetSocketApp(s, c, app, rid).s)
  {
    hide Shaped, QueueFormed, SocksFormed, TablesFormed, JobFormed, ConfsFormed, Enter, SockStep, QueueStep, ConfFormed;
    if Enter(s, c, rid).Entered? {
      FrameEnter(s, c, rid);
    }
  }

  lemma WorkingOfPacket(s: System, e: Step)
    requires Formed(s)
    ensures e.DoReceive? ==> WorkingStep(s, e, Receive(s, e.key, e.packet, e.now))
    ensures e.DoSend? ==> WorkingStep(s, e, SendMsg(s, e.c, e.hash, e.now, e.later, e.insertFails))
  {
    hide Shaped, QueueFormed, SocksFormed, TablesFormed, JobFormed, ConfsFormed, FlowAssure, CountRx, PathOf,
      ConfFormed;
    if e.DoSend? && e.c in s.socks && s.socks[e.c].key in s.conf {
      WorkingOfFlow(s, s.socks[e.c].key, e.c, e.hash, e.now, e.later, e.insertFails);
    }
  }

  lemma WorkingFrame(s: System, e: Step)
    requires Inv(s) && Enabled(s, e)
    ensures WorkingStep(s, e, Next(s, e))
  {
    hide Core, Kept, Formed, SetWorkingGen, SetSocketGen, SetDissector, SetSocketApp, AssureCall, TakeMessage, Advance,
      Receive, SendMsg, CleanedUp, Cleanup, StartRegistration, PopMessage, InsertHash, WriteCookie, WriteLength;
    FormedOf(s);
    match e
    case DoSetSocketGen(c, gen, rid, full) => WorkingOfGen(s, c, gen, rid, full);
    case DoSetSocketApp(c, app, rid) => WorkingOfApp(s, c, app, rid);
    case DoSetWorkingGen(c, gen, rid, full) => WorkingOfSet(s, c, gen, rid, full);
    case DoSetDissector(c, d, rid, full) => WorkingOfDissector(s, c, d, rid, full);
    case DoAssure(c, h, rid, now, later, insertFails) => WorkingOfAssure(s, c, h, rid, now, later, insertFails);
    case DoTakeMessage(fd) => FrameTake(s, fd);
    case DoAdvance(now) => FrameAdvance(s, now);
    case _ => WorkingOfPacket(s, e);
  }

  // ---- the dead do not come back ----

  /** Only the sockhash insert adds to the sockhash, and it adds a socket that lives. */
  ghost predicate LiveStep(s: System, s': System) {
    LiveSet(s') <= LiveSet(s) ||
    (s.job.Job? && s.job.at == Found && s.job.free >= 0 && LiveSet(s') == LiveSet(s) + {s.job.cookie})
  }

  lemma FewerFds(s: System, s': System)
    requires s'.hashed == s.hashed
    requires (s'.socks == s.socks || exists c ::
      c in s.socks && s'.socks == s.socks[c := s.socks[c].(appOpen := false)])
    requires forall fd :: fd in s'.fds ==> fd in s.fds && s'.fds[fd] == s.fds[fd]
    ensures LiveSet(s') <= LiveSet(s)
  {
    forall c | c in LiveSet(s') ensures Live(s, c) {
    }
  }

  lemma LiveTake(s: System, fd: Option<int>)
    requires Inv(s) && Enabled(s, DoTakeMessage(fd))
    ensures LiveSet(TakeMessage(s, fd)) <= LiveSet(s)
  {
    var m, s1 := s.queue[0], PopMessage(s);
    assert MsgFormed(m, s.conf.Keys, s.socks);
    InvPop(s);
    SameLive(s, s1);
    if m.RegisterMsg? && fd.Some? {
      CoreStart(s1, m, fd.value);
    } else {
      FewerFds(s, TakeMessage(s, fd));
    }
    hide Shaped, QueueFormed, SocksFormed, TablesFormed, ConfsFormed, LiveSet, Register, Registered, Named, Covering,
      SlotOwned, Kept, FreePos, GenLen;
  }

  lemma LiveAdvance(s: System, now: u64)
    requires Inv(s) && s.job.Job?
    ensures LiveStep(s, Advance(s, now))
  {
    hide Core, Kept, Formed, SetSlot, SetLength, Preserve, Replaced, LiveSet, InsertHash;
    FormedOf(s);
    match s.job.at
    case Found => CoreInsert(s);
    case MaxSet => CoreWriteIndex(s);
    case _ => FewerFds(s, Advance(s, now));
  }

  lemma LiveFrame(s: System, e: Step)
    requires Inv(s) && Enabled(s, e)
    ensures LiveStep(s, Next(s, e))
  {
    hide Core, Kept, Formed, SetWorkingGen, SetSocketGen, SetDissector, SetSocketApp, AssureCall, TakeMessage, Advance,
      Receive, SendMsg, Bind, CleanedUp, Cleanup, LiveSet, HookFrame;
    FormedOf(s);
    if IsHook(e) {
      HookStep(s, e);
      LiveHook(s, Actor(e), Touched(s, e), Next(s, e));
    } else {
      match e
      case DoClose(c) => FewerFds(s, Next(s, e));
      case DoTakeMessage(fd) => LiveTake(s, fd);
      case DoAdvance(now) => LiveAdvance(s, now);
      case DoCleanup(now) => FewerFds(s, Next(s, e));
    }
  }

  /** What a step may change, and exactly what it does to sockets, messages and working generations. */
  ghost predicate Frame(s: System, e: Step, s': System)
    requires Formed(s) && Enabled(s, e)
  {
    && SocketsStep(s, e, s') && WorkingStep(s, e, s') && LiveStep(s, s')
    && if IsHook(e) then HookFrame(s, Actor(e), Touched(s, e), s') else DaemonFrame(s, e, s')
  }

  lemma StepFrame(s: System, e: Step)
    requires Inv(s) && Enabled(s, e)
    ensures Frame(s, e, Next(s, e)) && Inv(Next(s, e))
  {
    hide Next, Formed, Enabled, Core, Kept, HookFrame, DaemonFrame, SocketsStep, WorkingStep, LiveStep;
    FormedOf(s);
    InvStep(s, e);
    SocketsFrame(s, e);
    WorkingFrame(s, e);
    LiveFrame(s, e);
    if IsHook(e) {
      HookStep(s, e);
    } else {
      DaemonStep(s, e);
    }
  }

  lemma FrameParts(s: System, e: Step, s': System)
    requires Formed(s) && Enabled(s, e) && Frame(s, e, s')
    ensures SocketsStep(s, e, s') && WorkingStep(s, e, s') && LiveStep(s, s')
  {
    hide Formed, Enabled, SocketsStep, WorkingStep, LiveStep, HookFrame, DaemonFrame;
  }
}
