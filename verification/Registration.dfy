/** What one registration amounts to when nothing else runs meanwhile. */
module Registration {
  import opened Words
  import opened GrmCookie
  import opened Allocator
  import opened Tubular
  import opened Steering
  import opened Invariants
  import opened Runtime

  // ---- the writes, one after the other ----

  /** A table whose row `row` names `c` in slot `i` and is `len` long. */
  function Entered(t: Slots, row: nat, i: nat, len: nat, c: Cookie): Slots
    requires SlotsFormed(t) && row < MAX_GENS && i < MAX_SOCKETS_IN_GEN && len <= MAX_SOCKETS_IN_GEN
  {
    var cells: Row := t.cookies[row][..i] + [c] + t.cookies[row][i + 1..];
    Slots(t.maxIdx[..row] + [len] + t.maxIdx[row + 1..], t.cookies[..row] + [cells] + t.cookies[row + 1..])
  }

  lemma EnteredBySteps(t: Slots, row: nat, i: nat, len: nat, c: Cookie)
    requires SlotsFormed(t) && row < MAX_GENS && i < MAX_SOCKETS_IN_GEN && len <= MAX_SOCKETS_IN_GEN
    ensures SetLength(SetSlot(t, row, i, c), row, len) == Entered(t, row, i, len, c)
  {
    var cells: Row := t.cookies[row][i := c];
    assert cells == t.cookies[row][..i] + [c] + t.cookies[row][i + 1..];
    assert t.cookies[row := cells] == t.cookies[..row] + [cells] + t.cookies[row + 1..];
    assert t.maxIdx[row := len] == t.maxIdx[..row] + [len] + t.maxIdx[row + 1..];
  }

  /** The table kept for Tubular, and who holds the descriptor in the end. */
  function KeptTable(s: System, j: Job, now: u64): Table
    requires Formed(s) && j.Job? && j.key in s.conf && j.row < MAX_GENS && 0 <= j.free < MAX_SOCKETS_IN_GEN
  {
    if Labelled(s.conf[j.key].dis) then Preserve(s.tub, s.conf[j.key].randomId, j.row, j.len, j.free, j.fd, now)
    else s.tub
  }

  /** The state at the end of the registration in progress, from its first write on. */
  ghost function Served(s: System, now: u64): System
    requires Inv(s) && s.job.Job? && s.job.at == Found
  {
    JobFits(s);
    var j := s.job;
    var labelled := Labelled(s.conf[j.key].dis);
    if j.free < 0 then s.(job := Idle, fds := s.fds - {j.fd}) else
    s.(job := Idle, hashed := s.hashed + {j.cookie}, tub := KeptTable(s, j, now),
       fds := if labelled then s.fds else s.fds - {j.fd}, clock := if labelled then now else s.clock,
       slots := s.slots[j.key := Entered(s.slots[j.key], j.row, j.free, j.len, j.cookie)],
       socks := s.socks[j.cookie := s.socks[j.cookie].(idx := j.free)])
  }

  lemma JobFits(s: System)
    requires Inv(s) && s.job.Job?
    ensures Formed(s) && s.job.key in s.conf && s.job.key in s.slots && SlotsFormed(s.slots[s.job.key])
    ensures s.job.row < MAX_GENS && s.job.free < MAX_SOCKETS_IN_GEN && s.job.len <= MAX_SOCKETS_IN_GEN
    ensures s.job.cookie in s.socks
    ensures s.job.at == Found ==> !s.job.kept
  {
    hide Named, Covering, SlotOwned, Shaped, QueueFormed, SocksFormed, Conserved, Holds, UniqueIds;
  }

  lemma FullEnds(s: System, now: u64)
    requires Inv(s) && s.job.Job? && s.job.at == Found && s.job.free < 0
    ensures RunJob(s, now) == Served(s, now)
  {
    hide Inv, Formed, RunJob;
    JobFits(s);
    RunOn(s, now);
    var s1 := InsertHash(s);
    FormedOf(s1);
    RunOn(s1, now);
    RunIdle(Finish(s1), now);
  }

  /** The hand-over of the descriptor closes nothing. */
  lemma KeepIs(s: System, now: u64)
    requires Inv(s) && s.job.Job? && s.job.at == Hashed
    ensures Formed(s) && s.job.key in s.conf && s.job.row < MAX_GENS && 0 <= s.job.free < MAX_SOCKETS_IN_GEN
    ensures var labelled := Labelled(s.conf[s.job.key].dis);
      KeepFd(s, now) == s.(tub := KeptTable(s, s.job, now), clock := if labelled then now else s.clock,
                           job := s.job.(kept := labelled, at := Preserved))
  {
    hide Core, Kept, Formed, Preserve, Replaced, Labelled, Conserved;
    FormedOf(s);
    ReadyToKeep(s);
    KeepClosesNothing(s, now);
    assert s.fds - {} == s.fds;
  }

  lemma RoomEnds(s: System, now: u64)
    requires Inv(s) && s.job.Job? && s.job.at == Found && s.job.free >= 0
    ensures RunJob(s, now) == Served(s, now)
  {
    hide Inv, Formed, RunJob, SetSlot, SetLength, Entered, KeepFd, Labelled, Preserve;
    JobFits(s);
    RunOn(s, now);
    var s1 := InsertHash(s);
    FormedOf(s1);
    KeepIs(s1, now);
    RunOn(s1, now);
    var s2 := KeepFd(s1, now);
    FormedOf(s2);
    WritesEnd(s2, now);
    EnteredBySteps(s.slots[s.job.key], s.job.row, s.job.free, s.job.len, s.job.cookie);
  }

  lemma WritesEnd(s: System, now: u64)
    requires Inv(s) && s.job.Job? && s.job.at == Preserved && s.job.free >= 0
    ensures Formed(s) && s.job.key in s.slots && SlotsFormed(s.slots[s.job.key]) && s.job.cookie in s.socks
    ensures s.job.row < MAX_GENS && s.job.free < MAX_SOCKETS_IN_GEN && s.job.len <= MAX_SOCKETS_IN_GEN
    ensures var j := s.job;
      RunJob(s, now) ==
        s.(job := Idle, fds := if j.kept then s.fds else s.fds - {j.fd},
           slots := s.slots[j.key := SetLength(SetSlot(s.slots[j.key], j.row, j.free, j.cookie), j.row, j.len)],
           socks := s.socks[j.cookie := s.socks[j.cookie].(idx := j.free)])
  {
    hide Inv, Formed, RunJob, SetSlot, SetLength;
    JobFits(s);
    RunOn(s, now);
    var s1 := WriteCookie(s);
    FormedOf(s1);
    RunOn(s1, now);
    var s2 := WriteLength(s1);
    FormedOf(s2);
    JobFits(s2);
    RunOn(s2, now);
    var s3 := WriteIndex(s2);
    FormedOf(s3);
    RunOn(s3, now);
    RunIdle(Finish(s3), now);
    assert s3.fds - {} == s3.fds;
    var j, t := s.job, s.slots[s.job.key];
    assert s.slots[j.key := SetSlot(t, j.row, j.free, j.cookie)]
                  [j.key := SetLength(SetSlot(t, j.row, j.free, j.cookie), j.row, j.len)] ==
      s.slots[j.key := SetLength(SetSlot(t, j.row, j.free, j.cookie), j.row, j.len)];
  }

  // ---- a request, from the ring to the table ----

  /** The row that a request is about, and its cells. */
  function RowFor(s: System, m: Msg): (row: nat)
    requires Formed(s) && m.RegisterMsg? && m.key in s.conf
    ensures row < MAX_GENS && m.key in s.slots && SlotsFormed(s.slots[m.key])
  {
    hide Shaped, QueueFormed, SocksFormed, JobFormed;
    ToWrkGen(s.conf[m.key].dis.maxApps, m.app, m.gen) % 32
  }

  lemma TakenIs(s: System, fd: int)
    requires Inv(s) && Enabled(s, DoTakeMessage(Some(fd))) && s.queue[0].RegisterMsg?
    ensures Formed(s) && s.job == Idle && s.queue != []
    ensures s.queue[0].key in s.conf && s.queue[0].cookie in s.socks && fd !in s.fds
    ensures var m, row, live := s.queue[0], RowFor(s, s.queue[0]), LiveSet(s);
      var cells := s.slots[m.key].cookies[row];
      TakeMessage(s, Some(fd)) ==
        s.(queue := s.queue[1..], fds := s.fds[fd := m.cookie],
           job := Job(m.key, m.cookie, m.gen, m.app, fd, row, FreePos(cells, live), GenLen(cells, live), false, Found))
  {
    hide Core, Kept, Shaped, QueueFormed, SocksFormed, ConfsFormed, LiveSet, FreePos, GenLen, ToWrkGen, SlotsFormed;
    FormedOf(s);
    HeadFormed(s);
    SameLive(s, PopMessage(s));
  }

  /** The whole handling of a request, when nothing else runs meanwhile. If every slot of the request's row names a live
      socket nothing changes. Otherwise the socket is in the lowest slot that names none, the row is long enough for it
      and for every live socket and no longer, the socket can be selected and sees its index, and the descriptor is kept
      for Tubular if the group has a label and closed if it has none. */
  lemma HandledExactly(s: System, fd: int, now: u64)
    requires Inv(s) && Enabled(s, DoTakeMessage(Some(fd))) && s.queue[0].RegisterMsg?
    ensures Formed(s) && s.queue[0].key in s.conf && s.queue[0].cookie in s.socks
    ensures Inv(TakeMessage(s, Some(fd)))
    ensures var m, row, live := s.queue[0], RowFor(s, s.queue[0]), LiveSet(s);
      var t, g := s.slots[m.key], s.conf[m.key];
      var i, len := FreePos(t.cookies[row], live), GenLen(t.cookies[row], live);
      RunJob(TakeMessage(s, Some(fd)), now) ==
        if i < 0 then s.(queue := s.queue[1..])
        else
          s.(queue := s.queue[1..], hashed := s.hashed + {m.cookie},
             slots := s.slots[m.key := Entered(t, row, i, len, m.cookie)],
             socks := s.socks[m.cookie := s.socks[m.cookie].(idx := i)],
             tub := if Labelled(g.dis) then Preserve(s.tub, g.randomId, row, len, i, fd, now) else s.tub,
             fds := if Labelled(g.dis) then s.fds[fd := m.cookie] else s.fds,
             clock := if Labelled(g.dis) then now else s.clock)
  {
    hide Inv, Formed, Enabled, TakeMessage, RunJob, LiveSet, FreePos, GenLen, RowFor, Entered, Labelled, Preserve;
    TakenIs(s, fd);
    InvTake(s, Some(fd));
    var s1 := TakeMessage(s, Some(fd));
    if s1.job.free < 0 {
      FullEnds(s1, now);
    } else {
      RoomEnds(s1, now);
    }
    assert s.fds[fd := s.queue[0].cookie] - {fd} == s.fds;
  }

  /** The application's side: when the latest request of an open socket is handled and its row has room, the socket
      holds the slot that its generation and index name, inside the announced length, and can be selected. */
  lemma HandledIsServed(s: System, fd: int, now: u64)
    requires Inv(s) && Enabled(s, DoTakeMessage(Some(fd))) && s.queue[0].RegisterMsg? && Formed(s)
    requires var m := s.queue[0];
      && m.key in s.conf && m.cookie in s.socks && s.socks[m.cookie].gen == m.gen && s.socks[m.cookie].app == m.app
      && exists i :: 0 <= i < 256 && s.slots[m.key].cookies[RowFor(s, m)][i] !in LiveSet(s)
    ensures Inv(TakeMessage(s, Some(fd)))
    ensures var c, s' := s.queue[0].cookie, RunJob(TakeMessage(s, Some(fd)), now);
      && Formed(s') && c in LiveSet(s') && s'.socks[c].key in s'.conf && s'.socks[c].idx < 256
      && s'.slots[s'.socks[c].key].cookies[RowOf(s', c)][s'.socks[c].idx] == c
      && s'.socks[c].idx < s'.slots[s'.socks[c].key].maxIdx[RowOf(s', c)]
  {
    hide Core, Kept, Shaped, QueueFormed, SocksFormed, JobFormed, TakeMessage, RunJob, Preserve, Labelled, ToWrkGen;
    HandledExactly(s, fd, now);
    HeadFormed(s);
    FormedOf(RunJob(TakeMessage(s, Some(fd)), now));
  }

  // ---- a working generation, from the ring to Tubular ----

  /** The whole handling of a working-generation message. In a labelled group the descriptors kept for the row numbered
      by the generation modulo 32 are closed, they and no others, and leave the table; nothing else changes. Without a
      label the message changes nothing. */
  lemma OfferedExactly(s: System, fd: Option<int>)
    requires Inv(s) && Enabled(s, DoTakeMessage(fd)) && s.queue[0].WorkingMsg?
    ensures Formed(s) && s.queue[0].key in s.conf
    ensures var m, s' := s.queue[0], TakeMessage(s, fd);
      var g := s.conf[m.key];
      && s' == s.(queue := s.queue[1..], tub := s'.tub, fds := s'.fds)
      && (!Labelled(g.dis) ==> s'.tub == s.tub && s'.fds == s.fds)
      && (Labelled(g.dis) ==>
            && (forall rid, row, i, f ::
                  Holds(s'.tub, rid, row, i, f) <==>
                  Holds(s.tub, rid, row, i, f) && !(rid == g.randomId && row == m.gen % 32))
            && (forall f :: f in s'.fds <==> f in s.fds && !RowHolds(s.tub, g.randomId, m.gen % 32, f))
            && (forall f :: f in s'.fds ==> s'.fds[f] == s.fds[f]))
  {
    hide Core, Kept, Shaped, QueueFormed, SocksFormed, ConfsFormed, TablesFormed, LiveSet, Labelled, Register,
      Conserved, Holds, MaybeDelete;
    HeadFormed(s);
    InvPop(s);
    var m := s.queue[0];
    var rid, row := s.conf[m.key].randomId, m.gen % 32;
    IdleConserved(s);
    RegisterHolds(s.tub, s.fds.Keys, rid, row);
    KeptRow(s.tub, s.fds.Keys, rid, row);
  }

  /** The row holds descriptor `f`. */
  ghost predicate RowHolds(t: Table, rid: u32, row: nat, f: int) {
    exists i :: Holds(t, rid, row, i, f)
  }

  lemma KeptRow(t: Table, held: set<int>, rid: u32, row: nat)
    requires Conserved(t, held) && row < MAX_GENS
    ensures forall f :: f in Registered(t, rid, row) <==> RowHolds(t, rid, row, f)
  {
    forall f ensures f in Registered(t, rid, row) <==> RowHolds(t, rid, row, f) {
      if f in Registered(t, rid, row) {
        var i :| 0 <= i < t[rid].maxIdx[row] && t[rid].cells[row][i] == f;
        assert Holds(t, rid, row, i, f);
      }
      if RowHolds(t, rid, row, f) {
        var i :| Holds(t, rid, row, i, f);
        assert Covered(t, rid, row, i);
      }
    }
  }

  /** The offered row is the one in which the sockets of that application and generation register if and only if the
      generation modulo 32 lies in the application's share of the rows; with three applications, whose shares of ten do
      not divide 32, also the last digits must agree. Without applications, or with one, it always is. */
  lemma OfferedRowExactly(maxApps: nat, app: u32, gen: u32)
    requires maxApps <= MAX_APPS && ValidApp(maxApps, app)
    ensures gen % 32 == ToWrkGen(maxApps, app, gen) % 32 <==>
      || maxApps <= 1
      || ((maxApps == 2 || maxApps == 4) && gen % 32 / SlotSize(maxApps) == app)
      || (maxApps == 3 && gen % 32 / 10 == app && gen % 32 % 10 == gen % 10)
  {
    hide ToWrkGen, SlotSize;
    RowIs(maxApps, app, gen);
    SizeIs(maxApps);
    RowBelongsToApp(maxApps, app, gen);
    WithinRows(gen);
    RowAndShare(gen % 32, if maxApps == 2 then 16 else if maxApps == 3 then 10 else 8, app, gen);
  }

  lemma RowAndShare(r: nat, n: nat, app: nat, gen: nat)
    requires n > 0
    ensures r == n * app + gen % n <==> r / n == app && r % n == gen % n
  {
    var m := gen % n;
    if r == n * app + m {
      RemainderOfSum(app, n, m);
    }
  }

  lemma WithinRows(gen: nat)
    ensures gen % 32 % 16 == gen % 16 && gen % 32 % 8 == gen % 8
  {
    var q, r := gen / 32, gen % 32;
    assert gen == (2 * q + r / 16) * 16 + r % 16 && gen == (4 * q + r / 8) * 8 + r % 8;
    RemainderOfSum(2 * q + r / 16, 16, r % 16);
    RemainderOfSum(4 * q + r / 8, 8, r % 8);
  }

  /** Generation 0 of the second of two applications registers in row 16, and row 0 is offered. */
  lemma AnotherRowOffered()
    ensures ToWrkGen(2, 1, 0) % 32 == 16 && 0 % 32 != 16
  {
    RowIs(2, 1, 0);
  }
}
