/** What an application learns by polling its index. */
module Polling {
  import opened Words
  import opened GrmCookie
  import opened Allocator
  import opened Tubular
  import opened Steering
  import opened Invariants
  import opened Routing
  import opened Isolation

  ghost predicate Registers(m: Msg, c: Cookie) {
    m.RegisterMsg? && m.cookie == c
  }

  ghost predicate AskedOnce(queue: seq<Msg>, c: Cookie) {
    forall i, j :: 0 <= i < j < |queue| ==> !(Registers(queue[i], c) && Registers(queue[j], c))
  }

  /** A socket that never asked has neither generation nor index nor a registration under way; a socket that asked
      once has one registration under way, for its generation and application, or an index and nothing under way. */
  ghost predicate FirstAsk(socks: map<Cookie, Sock>, queue: seq<Msg>, j: Job) {
    forall c :: c in socks ==>
      && (socks[c].idx == UNSET || socks[c].idx < MAX_SOCKETS_IN_GEN)
      && (socks[c].changes == 0 ==> socks[c].gen == UNSET && socks[c].idx == UNSET && !UnderWay(queue, j, c))
      && (socks[c].changes == 1 && socks[c].gen != UNSET ==> OneAsk(socks[c], queue, j, c))
  }

  /** The only request of socket `c`, where it is. */
  ghost predicate OneAsk(k: Sock, queue: seq<Msg>, j: Job, c: Cookie) {
    && AskedOnce(queue, c)
    && (j.Job? && j.cookie == c ==> !Asked(queue, c) && j.gen == k.gen && j.app == k.app)
    && (forall i :: 0 <= i < |queue| && Registers(queue[i], c) ==> queue[i].gen == k.gen && queue[i].app == k.app)
    && (k.idx != UNSET ==> !Pending(queue, j, c))
  }

  lemma FirstAskTake(s: System, e: Step, s': System)
    requires Formed(s) && Enabled(s, e) && SocketsStep(s, e, s') && JobStep(s, e, s') && e.DoTakeMessage?
    requires FirstAsk(s.socks, s.queue, s.job)
    ensures FirstAsk(s'.socks, s'.queue, s'.job)
  {
    hide Formed, ToWrkGen;
    assert forall i :: 0 <= i < |s'.queue| ==> s'.queue[i] == s.queue[i + 1];
    forall c | c in s.socks ensures Asked(s'.queue, c) ==> Asked(s.queue, c) {
      if Asked(s'.queue, c) {
        var i :| 0 <= i < |s'.queue| && s'.queue[i].RegisterMsg? && s'.queue[i].cookie == c;
        assert Registers(s.queue[i + 1], c);
      }
    }
    forall c | Registers(s.queue[0], c) && AskedOnce(s.queue, c) ensures !Asked(s'.queue, c) {
      forall i | 0 <= i < |s'.queue| ensures !(s'.queue[i].RegisterMsg? && s'.queue[i].cookie == c) {
        assert !(Registers(s.queue[0], c) && Registers(s.queue[i + 1], c));
      }
    }
    forall c | AskedOnce(s.queue, c) ensures AskedOnce(s'.queue, c) {
      forall i, j | 0 <= i < j < |s'.queue| ensures !(Registers(s'.queue[i], c) && Registers(s'.queue[j], c)) {
        assert !(Registers(s.queue[i + 1], c) && Registers(s.queue[j + 1], c));
      }
    }
  }

  lemma AddMessage(queue: seq<Msg>, m: Msg, c: Cookie)
    ensures AskedOnce(queue + [m], c) <==> AskedOnce(queue, c) && !(Asked(queue, c) && Registers(m, c))
  {
    var q := queue + [m];
    if AskedOnce(q, c) {
      forall i, j | 0 <= i < j < |queue| ensures !(Registers(queue[i], c) && Registers(queue[j], c)) {
        assert q[i] == queue[i] && q[j] == queue[j];
      }
      if Asked(queue, c) {
        var i :| 0 <= i < |queue| && queue[i].RegisterMsg? && queue[i].cookie == c;
        assert Registers(q[i], c) && q[|queue|] == m;
      }
    } else {
      var i, j :| 0 <= i < j < |q| && Registers(q[i], c) && Registers(q[j], c);
      if j < |queue| {
        assert Registers(queue[i], c) && Registers(queue[j], c);
      } else {
        assert queue[i].RegisterMsg? && queue[i].cookie == c;
      }
    }
  }

  lemma FirstAskSend(s: System, e: Step, s': System)
    requires Formed(s) && Enabled(s, e) && SocketsStep(s, e, s') && JobStep(s, e, s') && !e.DoTakeMessage?
    requires !e.DoAdvance?
    requires FirstAsk(s.socks, s.queue, s.job)
    ensures FirstAsk(s'.socks, s'.queue, s'.job)
  {
    hide Formed, ToWrkGen, Asked, AskedOnce;
    if s'.queue != s.queue {
      var m := s'.queue[|s.queue|];
      forall c ensures AskedOnce(s'.queue, c) <==> AskedOnce(s.queue, c) && !(Asked(s.queue, c) && Registers(m, c)) {
        AddMessage(s.queue, m, c);
      }
      forall c ensures Asked(s'.queue, c) <==> Asked(s.queue, c) || Registers(m, c) {
        AskedGrows(s.queue, m, c);
      }
    }
    forall c | c !in s.socks ensures !UnderWay(s.queue, s.job, c) {
      NeverAsked(s, c);
    }
    forall c | !Asked(s.queue, c) ensures AskedOnce(s.queue, c) && forall i :: 0 <= i < |s.queue| ==>
      !Registers(s.queue[i], c) {
      NoneAsked(s.queue, c);
    }
  }

  lemma NoneAsked(queue: seq<Msg>, c: Cookie)
    requires !Asked(queue, c)
    ensures AskedOnce(queue, c) && forall i :: 0 <= i < |queue| ==> !Registers(queue[i], c)
  {
  }

  lemma NeverAsked(s: System, c: Cookie)
    requires Formed(s) && c !in s.socks
    ensures !UnderWay(s.queue, s.job, c)
  {
    hide Shaped, SocksFormed, TablesFormed, ConfsFormed;
    forall i | 0 <= i < |s.queue| ensures !(s.queue[i].RegisterMsg? && s.queue[i].cookie == c) {
      assert MsgFormed(s.queue[i], s.conf.Keys, s.socks);
    }
  }

  lemma FirstAskAdvance(s: System, e: Step, s': System)
    requires Formed(s) && Enabled(s, e) && SocketsStep(s, e, s') && JobStep(s, e, s') && e.DoAdvance?
    requires FirstAsk(s.socks, s.queue, s.job)
    ensures FirstAsk(s'.socks, s'.queue, s'.job)
  {
    hide Shaped, QueueFormed, SocksFormed, TablesFormed, ConfsFormed, ToWrkGen, Asked, AskedOnce;
  }

  lemma FirstAskStays(s: System, e: Step, s': System)
    requires Formed(s) && FirstAsk(s.socks, s.queue, s.job) && Enabled(s, e) && Frame(s, e, s')
    ensures FirstAsk(s'.socks, s'.queue, s'.job)
  {
    hide Formed, Frame, SocketsStep, JobStep, FirstAsk, Enabled, WorkingStep, LiveStep;
    FrameParts(s, e, s');
    JobFrame(s, e, s');
    if e.DoTakeMessage? {
      FirstAskTake(s, e, s');
    } else if e.DoAdvance? {
      FirstAskAdvance(s, e, s');
    } else {
      FirstAskSend(s, e, s');
    }
  }

  /** The socket made one generation request and sees an index. */
  predicate AskedAndSaw(socks: map<Cookie, Sock>, c: Cookie) {
    c in socks && socks[c].changes == 1 && socks[c].gen != UNSET && socks[c].idx != UNSET
  }

  /** A live socket that asked once and has an index owns the slot that its generation and index name. */
  ghost predicate FirstSlot(s: System)
    requires Formed(s)
  {
    forall c :: c in LiveSet(s) && AskedAndSaw(s.socks, c) ==> OwnsSlot(s, c)
  }

  ghost predicate OwnsSlot(s: System, c: Cookie)
    requires Formed(s) && c in s.socks
  {
    && s.socks[c].key in s.conf && s.socks[c].idx < MAX_SOCKETS_IN_GEN
    && s.slots[s.socks[c].key].cookies[RowOf(s, c)][s.socks[c].idx] == c
  }

  /** The index write makes the socket's record name the slot that its cookie is in. */
  lemma IndexNamesSlot(s: System)
    requires Core(s) && RowRight(s.conf, s.job) && s.job.Job? && s.job.at == MaxSet
    requires s.job.gen == s.socks[s.job.cookie].gen && s.job.app == s.socks[s.job.cookie].app && Formed(WriteIndex(s))
    ensures OwnsSlot(WriteIndex(s), s.job.cookie)
  {
    hide Shaped, QueueFormed, SocksFormed, LiveSet, Named, Covering, Asked, ToWrkGen, FdsFormed;
  }

  /** A generation request that was given a slot is served by the index write, if it is the socket's latest. */
  lemma ServedRequestIsPlaced(s: System)
    requires Inv(s) && RowRight(s.conf, s.job) && s.job.Job? && s.job.at == MaxSet
    requires s.job.gen == s.socks[s.job.cookie].gen && s.job.app == s.socks[s.job.cookie].app
    requires !Asked(s.queue, s.job.cookie)
    ensures Formed(WriteIndex(s)) && Placed(WriteIndex(s), s.job.cookie)
  {
    hide Core, Kept, Formed, RowRight, Asked, RowOf;
    FormedOf(s);
    InvWriteIndex(s);
    FormedOf(WriteIndex(s));
    IndexNamesSlot(s);
  }

  /** What else may have happened to a socket that has an index after the step. */
  lemma IndexedBefore(s: System, e: Step, s': System, c: Cookie)
    requires Formed(s) && Enabled(s, e) && SocketsStep(s, e, s') && LiveStep(s, s') && FirstAsk(s.socks, s.queue, s.job)
    requires AskedAndSaw(s'.socks, c) && c in LiveSet(s')
    ensures
      || (e.DoAdvance? && s.job.at == MaxSet && s.job.cookie == c && c in s.socks && s.socks[c].changes == 1 &&
        s.socks[c].gen != UNSET)
      || (&& c in s.socks && s'.socks[c] == s.socks[c].(appOpen := s'.socks[c].appOpen) && c in LiveSet(s))
  {
    hide Shaped, QueueFormed, SocksFormed, TablesFormed, ConfsFormed, LiveSet, AskedOnce, Asked;
  }

  lemma FirstSlotStays(s: System, e: Step, s': System)
    requires Inv(s) && Inv(s') && RowRight(s.conf, s.job) && FirstAsk(s.socks, s.queue, s.job) && FirstSlot(s)
    requires Enabled(s, e) && Frame(s, e, s')
    ensures FirstSlot(s')
  {
    hide Core, Kept, Formed, LiveSet, RowRight, FirstAsk, Enabled, Frame, SocketsStep, WorkingStep, LiveStep, RowOf;
    FormedOf(s);
    FormedOf(s');
    FrameParts(s, e, s');
    KeysOf(s);
    KeysOf(s');
    forall c | c in LiveSet(s') && AskedAndSaw(s'.socks, c)
      ensures OwnsSlot(s', c)
    {
      FirstSlotAt(s, e, s', c);
    }
  }

  lemma FirstSlotAt(s: System, e: Step, s': System, c: Cookie)
    requires Inv(s) && Inv(s') && RowRight(s.conf, s.job) && FirstAsk(s.socks, s.queue, s.job) && FirstSlot(s)
    requires AskedAndSaw(s'.socks, c) && c in LiveSet(s')
    requires Enabled(s, e) && Frame(s, e, s')
    ensures OwnsSlot(s', c)
  {
    hide Core, Kept, Formed, LiveSet, RowRight, FirstAsk, Enabled, Frame, SocketsStep, WorkingStep, LiveStep, RowOf;
    FormedOf(s);
    FormedOf(s');
    FrameParts(s, e, s');
    KeysOf(s);
    KeysOf(s');
    IndexedBefore(s, e, s', c);
    if c in s.socks && s'.socks[c] == s.socks[c].(appOpen := s'.socks[c].appOpen) && c in LiveSet(s) {
      var k := s.socks[c].key;
      DissectorStays(s, e, s', k);
      SameRow(s, s', c);
      SlotStays(s, e, s', k, RowOf(s, c), s.socks[c].idx);
    } else {
      IndexWritten(s, e, s');
      LatestGen(s, c);
      IndexNamesSlot(s);
    }
  }

  lemma LatestGen(s: System, c: Cookie)
    requires FirstAsk(s.socks, s.queue, s.job) && c in s.socks && s.socks[c].changes == 1 && s.socks[c].gen != UNSET
    ensures s.job.Job? && s.job.cookie == c ==> s.job.gen == s.socks[c].gen && s.job.app == s.socks[c].app
  {
  }

  lemma IndexWritten(s: System, e: Step, s': System)
    requires Formed(s) && Enabled(s, e) && Frame(s, e, s') && e.DoAdvance? && s.job.at == MaxSet
    ensures s.job.Job? && s' == WriteIndex(s)
  {
    hide Formed, SocketsStep, WorkingStep, LiveStep, WriteIndex, InsertHash, WriteCookie, WriteLength;
  }

  /** What polling relies on holds in every state of every run. */
  lemma {:induction false} RunFirst(tr: seq<System>, es: seq<Step>, n: nat)
    requires IsRun(tr, es) && tr[0] == Boot && n < |tr|
    ensures Inv(tr[n]) && RowRight(tr[n].conf, tr[n].job) && FirstAsk(tr[n].socks, tr[n].queue, tr[n].job)
    ensures FirstSlot(tr[n])
  {
    hide Formed, Core, Kept, Next, Enabled, Frame, RowRight, FirstAsk, FirstSlot, ConfsFormed, JobStep, DissectorsKept;
    if n == 0 {
      BootFirst();
    } else {
      InvBoot();
      RunFirst(tr, es, n - 1);
      RunFrame(tr, es, n - 1);
      FormedOf(tr[n - 1]);
      FormedOf(tr[n]);
      JobFrame(tr[n - 1], es[n - 1], tr[n]);
      KeepsDissectors(tr[n - 1], es[n - 1], tr[n]);
      RowRightStays(tr[n - 1], es[n - 1], tr[n]);
      FirstAskStays(tr[n - 1], es[n - 1], tr[n]);
      FirstSlotStays(tr[n - 1], es[n - 1], tr[n]);
    }
  }

  lemma BootFirst()
    ensures Inv(Boot) && RowRight(Boot.conf, Boot.job) && FirstAsk(Boot.socks, Boot.queue, Boot.job) && FirstSlot(Boot)
  {
    InvBoot();
  }

  /** Polling works for a first registration: once a live socket that made a single generation
      request sees an index, its slot is its own and nothing is under way. */
  lemma PolledIndexMeansPlaced(s: System, c: Cookie)
    requires Inv(s) && FirstAsk(s.socks, s.queue, s.job) && FirstSlot(s)
    requires c in LiveSet(s) && AskedAndSaw(s.socks, c)
    ensures Placed(s, c)
  {
    hide Shaped, QueueFormed, SocksFormed, TablesFormed, ConfsFormed, Kept, Named, Covering, SlotOwned, LiveSet, RowOf,
      Asked, AskedOnce;
    assert OwnsSlot(s, c);
  }

  /** The promise to an application that polls: in every run, once a socket that asked for one generation sees an
      index, every packet carrying the cookie it then reads reaches it, for as long as it lives and is left alone. */
  lemma PolledCookieRoutes(tr: seq<System>, es: seq<Step>, m: nat, n: nat, c: Cookie, p: Packet, now: u64)
    requires IsRun(tr, es) && tr[0] == Boot && m <= n < |tr| && Formed(tr[m]) && Formed(tr[n])
    requires AskedAndSaw(tr[m].socks, c) && ByGroupProgram(tr[m], c)
    requires forall i :: m <= i <= n ==> c in LiveSet(tr[i])
    requires forall i :: m <= i < n ==> Undisturbed(tr[i], es[i], c)
    requires p.ran == Ran(IERR_OK, ReportedCookie(tr[m], c))
    ensures c in tr[n].socks && tr[n].socks[c].key == tr[m].socks[c].key && tr[n].socks[c].key in tr[n].conf
    ensures ReportedCookie(tr[n], c) == ReportedCookie(tr[m], c)
    ensures PathOf(tr[n], tr[n].socks[c].key, p, now) == Existing(c)
  {
    hide Formed, Core, Kept, Next, Enabled, LiveSet, PathOf, ReportedCookie, FirstAsk, FirstSlot, RowRight, Receive;
    RunFirst(tr, es, m);
    PolledIndexMeansPlaced(tr[m], c);
    var late, steps := tr[m..], es[m..];
    assert late[n - m] == tr[n];
    forall i | 0 <= i < |steps|
      ensures Formed(late[i]) && Enabled(late[i], steps[i]) && late[i + 1] == Next(late[i], steps[i])
    {
      assert late[i] == tr[m + i] && steps[i] == es[m + i] && late[i + 1] == tr[m + i + 1];
    }
    CookieRouting(late, steps, n - m, c, p, now);
  }

  /** The socket's group decides by program. */
  predicate ByGroupProgram(s: System, c: Cookie) {
    c in s.socks && s.socks[c].key in s.conf && ByProgram(s.conf[s.socks[c].key].dis)
  }

  /** ... and two such sockets of one group never read the same cookie. */
  lemma PolledCookiesDiffer(tr: seq<System>, es: seq<Step>, n: nat, c: Cookie, d: Cookie)
    requires IsRun(tr, es) && tr[0] == Boot && n < |tr| && Formed(tr[n])
    requires AskedAndSaw(tr[n].socks, c) && AskedAndSaw(tr[n].socks, d) && c in LiveSet(tr[n]) && d in LiveSet(tr[n])
    requires c != d && tr[n].socks[c].key == tr[n].socks[d].key && tr[n].socks[c].key in tr[n].conf
    ensures ReportedCookie(tr[n], c) != ReportedCookie(tr[n], d)
  {
    hide Formed, Core, Kept, Next, Enabled, LiveSet, ReportedCookie, FirstAsk, FirstSlot, RowRight;
    RunFirst(tr, es, n);
    PolledIndexMeansPlaced(tr[n], c);
    PolledIndexMeansPlaced(tr[n], d);
    CookiesDiffer(tr[n], c, d);
  }

  /** Polling tells nothing about a move: a socket that has an index and asks for another generation
      keeps its old index while the request is pending. */
  lemma MoveKeepsOldIndex(s: System, c: Cookie, gen: u32)
    requires Formed(s) && c in s.socks && s.socks[c].key in s.conf && s.conf[s.socks[c].key].netns == s.socks[c].netns
    requires s.socks[c].idx != UNSET && gen != s.socks[c].gen
    ensures var r := SetSocketGen(s, c, gen, None, false);
      && r.err == OK && r.s.socks[c].gen == gen && r.s.socks[c].idx == s.socks[c].idx && Pending(r.s.queue, r.s.job, c)
  {
    var r := SetSocketGen(s, c, gen, None, false);
    AskedGrows(s.queue, RegisterMsg(s.socks[c].key, c, gen, s.socks[c].app), c);
  }

  /** A registration into a full row changes neither the table nor the socket's index, and only
      closes the descriptor again. */
  lemma FullRowChangesNothing(s: System, now: u64, later: u64)
    requires Formed(s) && s.job.Job? && s.job.at == Found && s.job.free < 0 && !s.job.kept
    ensures var s1 := Advance(s, now);
      && Formed(s1) && s1.job.Job?
      && var s2 := Advance(s1, later);
         s2 == s.(job := Idle, fds := s.fds - {s.job.fd})
  {
    hide Shaped, QueueFormed, SocksFormed, TablesFormed, ConfsFormed;
  }
}
