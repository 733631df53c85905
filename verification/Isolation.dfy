/** Applications that share a reuseport group do not reach into each other's rows. */
module Isolation {
  import opened Words
  import opened GrmCookie
  import opened Allocator
  import opened Tubular
  import opened Steering
  import opened Invariants
  import opened Routing

  /** Some slot names the socket. */
  ghost predicate InSlot(slots: map<Key, Slots>, c: Cookie)
    requires TablesFormed(slots)
  {
    exists k, g, i :: k in slots && 0 <= g < MAX_GENS && 0 <= i < MAX_SOCKETS_IN_GEN && slots[k].cookies[g][i] == c
  }

  /** A registration of the socket is under way. */
  ghost predicate UnderWay(queue: seq<Msg>, j: Job, c: Cookie) {
    Asked(queue, c) || (j.Job? && j.cookie == c)
  }

  /** The socket has a slot, or a registration of it is under way. */
  ghost predicate Owns(s: System, c: Cookie)
    requires Formed(s)
  {
    InSlot(s.slots, c) || UnderWay(s.queue, s.job, c)
  }

  /** No call changes the application of a socket that owns something. */
  ghost predicate Tame(s: System, e: Step)
    requires Formed(s)
  {
    !(e.DoSetSocketApp? && AppChange(s, e.c, e.app) && Owns(s, e.c))
  }

  /** Registrations carry the application number of their socket. */
  ghost predicate AppsAgree(socks: map<Cookie, Sock>, queue: seq<Msg>, j: Job) {
    && (forall i :: 0 <= i < |queue| && queue[i].RegisterMsg? ==>
          queue[i].cookie in socks && queue[i].app == socks[queue[i].cookie].app)
    && (j.Job? ==> j.cookie in socks && j.app == socks[j.cookie].app)
  }

  /** The registration in progress works on the row of its application and generation. */
  ghost predicate RowRight(conf: map<Key, Conf>, j: Job)
    requires ConfsFormed(conf)
  {
    j.Job? ==> j.key in conf && j.row == ToWrkGen(conf[j.key].dis.maxApps, j.app, j.gen) % MAX_GENS
  }

  ghost predicate AppsValid(socks: map<Cookie, Sock>, conf: map<Key, Conf>) {
    forall c :: c in socks ==>
      ValidApp(if socks[c].key in conf then conf[socks[c].key].dis.maxApps else 0, socks[c].app)
  }

  /** Every occupied slot lies in a row of its socket's application. */
  ghost predicate SlotsOfApp(slots: map<Key, Slots>, socks: map<Cookie, Sock>, conf: map<Key, Conf>)
    requires TablesFormed(slots) && ConfsFormed(conf) && slots.Keys == conf.Keys
  {
    forall k, g, i :: k in slots && 0 <= g < MAX_GENS && 0 <= i < MAX_SOCKETS_IN_GEN ==>
      var c := slots[k].cookies[g][i];
      c == 0 || (c in socks && AppOfRow(conf[k].dis.maxApps, g) == socks[c].app)
  }

  ghost predicate Isolated(s: System)
    requires Formed(s)
  {
    && AppsAgree(s.socks, s.queue, s.job) && RowRight(s.conf, s.job)
    && AppsValid(s.socks, s.conf) && SlotsOfApp(s.slots, s.socks, s.conf)
  }

  // ---- each part is kept ----

  lemma AskedGrows(queue: seq<Msg>, m: Msg, c: Cookie)
    ensures Asked(queue + [m], c) <==> Asked(queue, c) || (m.RegisterMsg? && m.cookie == c)
  {
    if m.RegisterMsg? && m.cookie == c {
      assert (queue + [m])[|queue|] == m;
    }
    if Asked(queue, c) {
      var i :| 0 <= i < |queue| && queue[i].RegisterMsg? && queue[i].cookie == c;
      assert (queue + [m])[i] == queue[i];
    }
  }

  /** How the registration in progress and the sockhash move. */
  ghost predicate JobStep(s: System, e: Step, s': System)
    requires Formed(s)
  {
    && (s'.hashed == s.hashed || (s.job.Job? && s'.hashed == s.hashed + {s.job.cookie}))
    && (|| (!e.DoAdvance? && s'.job == s.job)
        || (s'.job == Idle && (s.job == Idle || (e.DoAdvance? && s.job.at == IndexSet)))
        || (e.DoAdvance? && s.job.Job? && s'.job.Job? && s'.job == s.job.(at := After(s.job), kept := s'.job.kept))
        || (&& e.DoTakeMessage? && s.queue != [] && s.queue[0].RegisterMsg? && s'.job.Job? && s.queue[0].key in s.conf
            && s'.job.cookie == s.queue[0].cookie && s'.job.key == s.queue[0].key
            && s'.job.app == s.queue[0].app && s'.job.gen == s.queue[0].gen
            && s'.job.row == ToWrkGen(s.conf[s'.job.key].dis.maxApps, s'.job.app, s'.job.gen) % MAX_GENS))
  }

  lemma JobOfStart(s: System, fd: int)
    requires Formed(s) && s.job == Idle && s.queue != [] && s.queue[0].RegisterMsg?
    ensures var m, j := s.queue[0], StartRegistration(PopMessage(s), s.queue[0], fd).job;
      && m.key in s.conf && j.Job? && j.cookie == m.cookie && j.key == m.key && j.app == m.app && j.gen == m.gen
      && j.row == ToWrkGen(s.conf[m.key].dis.maxApps, m.app, m.gen) % MAX_GENS
  {
    hide Shaped, SocksFormed, TablesFormed, LiveSet, ToWrkGen;
    assert MsgFormed(s.queue[0], s.conf.Keys, s.socks);
  }

  lemma JobFrame(s: System, e: Step, s': System)
    requires Formed(s) && Enabled(s, e) && Frame(s, e, s')
    ensures JobStep(s, e, s')
  {
    hide Shaped, QueueFormed, ConfsFormed, SocksFormed, TablesFormed, SocketsStep, WorkingStep, LiveStep, GroupStep,
      SockStep, QueueStep, StartRegistration, PopMessage, ToWrkGen, SetSlot, SetLength;
    if e.DoTakeMessage? && s.queue[0].RegisterMsg? && e.fd.Some? {
      JobOfStart(s, e.fd.value);
    }
  }

  /** The application of a socket changes only by its own call. */
  lemma AppStays(s: System, e: Step, s': System, c: Cookie)
    requires Formed(s) && c in s.socks && Enabled(s, e) && SocketsStep(s, e, s')
    ensures c in s'.socks
    ensures s'.socks[c].app == if e.DoSetSocketApp? && e.c == c && AppChange(s, c, e.app) then e.app else s.socks[c].app
  {
    hide Formed;
  }

  lemma AppsAgreeStays(s: System, e: Step, s': System)
    requires Formed(s) && AppsAgree(s.socks, s.queue, s.job) && Tame(s, e)
    requires Enabled(s, e) && SocketsStep(s, e, s') && JobStep(s, e, s')
    ensures AppsAgree(s'.socks, s'.queue, s'.job)
  {
    hide Formed, ToWrkGen, InSlot, AppChange;
    forall c | c in s.socks && UnderWay(s.queue, s.job, c) ensures c in s'.socks && s'.socks[c].app == s.socks[c].app {
      AppStays(s, e, s', c);
    }
    forall i | 0 <= i < |s.queue| && s.queue[i].RegisterMsg? ensures UnderWay(s.queue, s.job, s.queue[i].cookie) {
    }
  }

  ghost predicate DissectorsKept(conf: map<Key, Conf>, conf': map<Key, Conf>) {
    forall k :: k in conf ==> k in conf' && conf'[k].dis == conf[k].dis
  }

  lemma KeepsDissectors(s: System, e: Step, s': System)
    requires Formed(s) && Enabled(s, e) && Frame(s, e, s')
    ensures DissectorsKept(s.conf, s'.conf)
  {
    hide Formed, Enabled, Frame;
    forall k | k in s.conf ensures k in s'.conf && s'.conf[k].dis == s.conf[k].dis {
      DissectorStays(s, e, s', k);
    }
  }

  lemma RowRightStays(s: System, e: Step, s': System)
    requires Formed(s) && Formed(s') && JobStep(s, e, s') && RowRight(s.conf, s.job) && DissectorsKept(s.conf, s'.conf)
    ensures RowRight(s'.conf, s'.job)
  {
    hide Shaped, QueueFormed, SocksFormed, TablesFormed, ToWrkGen;
  }

  lemma AppsValidStays(s: System, e: Step, s': System)
    requires Formed(s) && Enabled(s, e) && SocketsStep(s, e, s') && DissectorsKept(s.conf, s'.conf)
    requires AppsValid(s.socks, s.conf)
    ensures AppsValid(s'.socks, s'.conf)
  {
    hide Shaped, QueueFormed, SocksFormed, TablesFormed, ConfsFormed;
  }

  /** A socket that owns something keeps its application. */
  lemma OwnersKeepApp(s: System, e: Step, s': System)
    requires Formed(s) && Tame(s, e) && Enabled(s, e) && SocketsStep(s, e, s')
    ensures forall c :: c in s.socks && Owns(s, c) ==> c in s'.socks && s'.socks[c].app == s.socks[c].app
  {
    hide Formed, Owns, AppChange, Enabled, SocketsStep;
    forall c | c in s.socks && Owns(s, c) ensures c in s'.socks && s'.socks[c].app == s.socks[c].app {
      AppStays(s, e, s', c);
    }
  }

  lemma JobRowOfApp(s: System)
    requires Core(s) && Isolated(s) && s.job.Job?
    ensures AppOfRow(s.conf[s.job.key].dis.maxApps, s.job.row) == s.socks[s.job.cookie].app == s.job.app
  {
    hide Shaped, QueueFormed, TablesFormed, Named, Covering, SlotOwned, ToWrkGen;
    RowBelongsToApp(s.conf[s.job.key].dis.maxApps, s.job.app, s.job.gen);
  }

  lemma SlotsOfAppBy(slots: map<Key, Slots>, j: Job, k0: Key, slots': map<Key, Slots>, socks: map<Cookie, Sock>,
      socks': map<Cookie, Sock>,
                     hashed: set<Cookie>, conf: map<Key, Conf>, conf': map<Key, Conf>)
    requires TablesFormed(slots) && ConfsFormed(conf) && slots.Keys == conf.Keys && SlotsOfApp(slots, socks, conf)
    requires TablesFormed(slots') && ConfsFormed(conf') && slots'.Keys == conf'.Keys && DissectorsKept(conf, conf')
    requires SlotsStep(slots, j, k0, slots') && Named(slots, hashed, socks)
    requires forall c :: InSlot(slots, c) && c in socks ==> c in socks' && socks'[c].app == socks[c].app
    requires j.Job? && j.cookie in socks ==> j.cookie in socks' && socks'[j.cookie].app == socks[j.cookie].app
    requires j.Job? && j.at == Preserved ==>
      j.cookie in socks && j.key in conf && AppOfRow(conf[j.key].dis.maxApps, j.row) == socks[j.cookie].app
    ensures SlotsOfApp(slots', socks', conf')
  {
    hide SetSlot, SetLength, EmptySlots, SlotsFormed, AppOfRow, InSlot;
    SlotsName(slots);
  }

  lemma SlotsName(slots: map<Key, Slots>)
    requires TablesFormed(slots)
    ensures forall k, g, i :: k in slots && 0 <= g < MAX_GENS && 0 <= i < MAX_SOCKETS_IN_GEN ==>
      InSlot(slots, slots[k].cookies[g][i])
  {
  }

  lemma SlotsOfAppStays(s: System, e: Step, s': System)
    requires Inv(s) && Enabled(s, e) && Frame(s, e, s') && Inv(s') && Isolated(s) && Tame(s, e)
    ensures SlotsOfApp(s'.slots, s'.socks, s'.conf)
  {
    hide Kept, LiveSet, Named, Covering, SlotOwned, Enabled, SocketsStep, HookFrame, DaemonFrame, SlotsStep, SlotsOfApp,
      Shaped, QueueFormed, AppsValid, RowRight, AppsAgree, FdsFormed, ConfsFormed, TablesFormed, SocksFormed, AppOfRow,
      DissectorsKept, InSlot, Asked, Tame;
    SlotsFrame(s, e, s');
    KeepsDissectors(s, e, s');
    OwnersKeepApp(s, e, s');
    if s.job.Job? {
      JobRowOfApp(s);
    }
    SlotsOfAppBy(s.slots, s.job, Touched(s, e), s'.slots, s.socks, s'.socks, s.hashed, s.conf, s'.conf);
  }

  /** Every tame step keeps the applications apart. */
  lemma IsolatedStays(s: System, e: Step, s': System)
    requires Inv(s) && Enabled(s, e) && Frame(s, e, s') && Inv(s') && Isolated(s) && Tame(s, e)
    ensures Isolated(s')
  {
    hide Kept, LiveSet, Named, Covering, SlotOwned, Enabled, SocketsStep, HookFrame, DaemonFrame, SlotsOfApp, Shaped,
      QueueFormed, AppsValid, RowRight, AppsAgree, FdsFormed, ConfsFormed, TablesFormed, SocksFormed, DissectorsKept,
      JobStep, JobFormed, Tame;
    KeepsDissectors(s, e, s');
    JobFrame(s, e, s');
    AppsAgreeStays(s, e, s');
    RowRightStays(s, e, s');
    AppsValidStays(s, e, s');
    SlotsOfAppStays(s, e, s');
  }

  ghost predicate TameRun(tr: seq<System>, es: seq<Step>) {
    IsRun(tr, es) && forall i :: 0 <= i < |es| ==> Tame(tr[i], es[i])
  }

  lemma {:induction false} RunIsolated(tr: seq<System>, es: seq<Step>, n: nat)
    requires TameRun(tr, es) && tr[0] == Boot && n < |tr|
    ensures Inv(tr[n]) && Isolated(tr[n])
  {
    hide Formed, Core, Kept, Next, Enabled, Frame, Isolated;
    InvBoot();
    if n == 0 {
      BootIsolated();
    } else {
      RunIsolated(tr, es, n - 1);
      RunFrame(tr, es, n - 1);
      IsolatedStays(tr[n - 1], es[n - 1], tr[n]);
    }
  }

  lemma BootIsolated()
    ensures Inv(Boot) && Isolated(Boot)
  {
    InvBoot();
  }

  /** In every state that a tame run reaches, a new flow that is dispatched for application `app`
      reaches a live socket of that application, in its working row. */
  lemma DispatchStaysInApp(tr: seq<System>, es: seq<Step>, n: nat, k: Key, app: u32, mdHash: u32)
    requires TameRun(tr, es) && tr[0] == Boot && n < |tr|
    requires k in tr[n].conf && ValidApp(tr[n].conf[k].dis.maxApps, app)
    ensures Formed(tr[n])
    ensures var third := ThirdOf(tr[n], k, app, mdHash);
      third.DispatchOk? ==>
        third.c in LiveSet(tr[n]) && tr[n].socks[third.c].key == k && tr[n].socks[third.c].app == app
  {
    RunIsolated(tr, es, n);
    var s := tr[n];
    AppReached(s, k, app, mdHash);
  }

  lemma AppReached(s: System, k: Key, app: u32, mdHash: u32)
    requires Inv(s) && Isolated(s) && k in s.conf && ValidApp(s.conf[k].dis.maxApps, app)
    ensures var third := ThirdOf(s, k, app, mdHash);
      third.DispatchOk? ==> third.c in LiveSet(s) && s.socks[third.c].key == k && s.socks[third.c].app == app
  {
    hide Kept, Covering, SlotOwned, Shaped, QueueFormed, AppsValid, RowRight, AppsAgree, FdsFormed, LiveSet, ToWrkGen;
    RowBelongsToApp(s.conf[k].dis.maxApps, app, s.conf[k].workingGen[app % MAX_APPS]);
  }

  /** A row of application `a` keeps its length and its cookies when the daemon works for another
      application. */
  lemma RowUntouched(slots: map<Key, Slots>, j: Job, k0: Key, slots': map<Key, Slots>, k: Key, row: nat)
    requires TablesFormed(slots) && SlotsStep(slots, j, k0, slots') && k in slots && row < MAX_GENS
    requires !(j.Job? && j.key == k && j.row == row)
    ensures k in slots' && SlotsFormed(slots'[k]) && slots'[k].cookies[row] == slots[k].cookies[row]
      && slots'[k].maxIdx[row] == slots[k].maxIdx[row]
  {
    hide EmptySlots;
  }

  lemma WorkingRowStays(s: System, e: Step, s': System, k: Key, a: u32)
    requires Formed(s) && Formed(s') && WorkingStep(s, e, s') && DissectorsKept(s.conf, s'.conf)
    requires k in s.conf && ValidApp(s.conf[k].dis.maxApps, a)
    requires e.DoSetWorkingGen? && e.c in s.socks && s.socks[e.c].key == k ==>
      ValidApp(s.conf[k].dis.maxApps, s.socks[e.c].app) && s.socks[e.c].app != a
    ensures k in s'.conf && WorkingRow(s', k, a) == WorkingRow(s, k, a)
  {
    hide Shaped, QueueFormed, SocksFormed, TablesFormed, JobFormed, ToWrkGen;
  }

  /** Sockets of application `b`, whether they register or move its working generation, leave the
      choice for application `a` as it is. */
  lemma OtherAppsDoNotInterfere(s: System, e: Step, s': System, k: Key, a: u32, mdHash: u32)
    requires Inv(s) && Inv(s') && Isolated(s)
    requires k in s.conf && ValidApp(s.conf[k].dis.maxApps, a)
    requires e.DoAdvance? && s.job.Job? && s.job.key == k ==> s.job.app != a
    requires e.DoSetWorkingGen? && e.c in s.socks && s.socks[e.c].key == k ==> s.socks[e.c].app != a
    requires Enabled(s, e) && Frame(s, e, s')
    ensures k in s'.conf && NewFlowTarget(s', k, a, mdHash) == NewFlowTarget(s, k, a, mdHash)
  {
    hide Core, Kept, Formed, Isolated, Enabled, SocketsStep, HookFrame, DaemonFrame, WorkingStep, DissectorsKept,
      WorkingRow, AppOfRow;
    FormedOf(s);
    FormedOf(s');
    KeysOf(s);
    if e.DoSetWorkingGen? && e.c in s.socks {
      AppValidOf(s, e.c);
    }
    KeepsDissectors(s, e, s');
    WorkingRowStays(s, e, s', k, a);
    var row := WorkingRow(s, k, a);
    if e.DoAdvance? && s.job.Job? && s.job.key == k {
      JobRowOfApp(s);
      WorkingRowOfApp(s, k, a);
    }
    RowStaysUnless(s, e, s', k, row);
  }

  lemma AppValidOf(s: System, c: Cookie)
    requires Formed(s) && Isolated(s) && c in s.socks
    ensures s.socks[c].key in s.conf ==> ValidApp(s.conf[s.socks[c].key].dis.maxApps, s.socks[c].app)
  {
  }

  lemma WorkingRowOfApp(s: System, k: Key, a: u32)
    requires Formed(s) && k in s.conf && ValidApp(s.conf[k].dis.maxApps, a)
    ensures AppOfRow(s.conf[k].dis.maxApps, WorkingRow(s, k, a)) == a
  {
    hide Shaped, QueueFormed, SocksFormed, TablesFormed, JobFormed, ToWrkGen;
    RowBelongsToApp(s.conf[k].dis.maxApps, a, s.conf[k].workingGen[a % MAX_APPS]);
  }

  /** Only the daemon changes rows, and only the one it is working on. */
  lemma RowStaysUnless(s: System, e: Step, s': System, k: Key, row: nat)
    requires Formed(s) && Formed(s') && k in s.slots && row < MAX_GENS
    requires !(e.DoAdvance? && s.job.Job? && s.job.key == k && s.job.row == row)
    requires Enabled(s, e) && Frame(s, e, s')
    ensures k in s'.slots && s'.slots[k].cookies[row] == s.slots[k].cookies[row]
    ensures s'.slots[k].maxIdx[row] == s.slots[k].maxIdx[row]
  {
    hide LiveSet, Shaped, QueueFormed, ConfsFormed, SocksFormed, SockStep, QueueStep, StartRegistration, PopMessage,
      SocketsStep, WorkingStep, LiveStep, SetSlot, SetLength, EmptySlots, ConfFormed, SlotsFormed;
    SlotsFrame(s, e, s');
    if e.DoAdvance? {
      RowUntouched(s.slots, s.job, 0, s'.slots, k, row);
    }
  }

  // ---- where isolation fails ----

  /** On slots: the call keeps them in the rows of their sockets' applications exactly when it changes no application
      or the socket is in no slot. */
  lemma SlotsCallExactly(s: System, e: Step, s': System)
    requires Inv(s) && Inv(s') && SlotsOfApp(s.slots, s.socks, s.conf) && e.DoSetSocketApp?
    requires s'.socks == if AppChange(s, e.c, e.app) then s.socks[e.c := s.socks[e.c].(app := e.app)] else s.socks
    requires DissectorsKept(s.conf, s'.conf) && SlotsStep(s.slots, Idle, Touched(s, e), s'.slots)
    ensures SlotsOfApp(s'.slots, s'.socks, s'.conf) <==> !(AppChange(s, e.c, e.app) && InSlot(s.slots, e.c))
  {
    hide Kept, LiveSet, Covering, SlotOwned, Shaped, QueueFormed, FdsFormed, ConfsFormed, AppOfRow, EmptySlots, SetSlot,
      SetLength;
    if AppChange(s, e.c, e.app) && InSlot(s.slots, e.c) {
      var k, g, i :| k in s.slots && 0 <= g < MAX_GENS && 0 <= i < MAX_SOCKETS_IN_GEN &&
        s.slots[k].cookies[g][i] == e.c;
      assert k in s'.slots && s'.slots[k] == s.slots[k];
      ForeignSlot(s.slots, s.socks, s.conf, s'.slots, s'.socks, s'.conf, k, g, i);
    } else {
      SlotsOfAppBy(s.slots, Idle, Touched(s, e), s'.slots, s.socks, s'.socks, s.hashed, s.conf, s'.conf);
    }
  }

  /** A slot whose socket has changed its application lies in a foreign row. */
  lemma ForeignSlot(slots: map<Key, Slots>, socks: map<Cookie, Sock>, conf: map<Key, Conf>,
                    slots': map<Key, Slots>, socks': map<Cookie, Sock>, conf': map<Key, Conf>, k: Key, g: nat, i: nat)
    requires TablesFormed(slots) && ConfsFormed(conf) && slots.Keys == conf.Keys && SlotsOfApp(slots, socks, conf)
    requires TablesFormed(slots') && ConfsFormed(conf') && slots'.Keys == conf'.Keys && DissectorsKept(conf, conf')
    requires k in slots && k in slots' && slots'[k] == slots[k] && g < MAX_GENS && i < MAX_SOCKETS_IN_GEN
    requires var c := slots[k].cookies[g][i]; c != 0 && c in socks && c in socks' && socks'[c].app != socks[c].app
    ensures !SlotsOfApp(slots', socks', conf')
  {
    hide AppOfRow;
    assert slots'[k].cookies[g][i] == slots[k].cookies[g][i];
  }

  /** On requests: the call keeps requests and sockets in agreement exactly when it changes no application or the
      socket has no request under way. */
  lemma RequestsCallExactly(s: System, e: Step, s': System)
    requires Formed(s) && AppsAgree(s.socks, s.queue, s.job) && e.DoSetSocketApp? && s'.queue == s.queue
    requires s'.job == s.job
    requires s'.socks == if AppChange(s, e.c, e.app) then s.socks[e.c := s.socks[e.c].(app := e.app)] else s.socks
    ensures AppsAgree(s'.socks, s'.queue, s'.job) <==> !(AppChange(s, e.c, e.app) && UnderWay(s.queue, s.job, e.c))
  {
    hide Formed;
  }

  /** Isolation, step by step, with its exact condition: a step keeps the applications apart if and only if it is not
      a call that changes the application of a socket that owns something. */
  lemma IsolatedExactly(s: System, e: Step)
    requires Inv(s) && Isolated(s) && Enabled(s, e)
    ensures Inv(Next(s, e))
    ensures Isolated(Next(s, e)) <==> Tame(s, e)
  {
    hide Core, Kept, Formed, Isolated, Enabled, Next, Frame, AppChange, InSlot, UnderWay, SlotsStep, DissectorsKept;
    StepFrame(s, e);
    FormedOf(s);
    var s' := Next(s, e);
    if Tame(s, e) {
      IsolatedStays(s, e, s');
    } else {
      FormedOf(s');
      CallEffect(s, e, s');
      IsolatedParts(s);
      SlotsCallExactly(s, e, s');
      RequestsCallExactly(s, e, s');
      IsolatedNeeds(s');
    }
  }

  lemma CallEffect(s: System, e: Step, s': System)
    requires Formed(s) && e.DoSetSocketApp? && Enabled(s, e) && Frame(s, e, s')
    ensures s'.socks == if AppChange(s, e.c, e.app) then s.socks[e.c := s.socks[e.c].(app := e.app)] else s.socks
    ensures s'.queue == s.queue && s'.job == s.job && DissectorsKept(s.conf, s'.conf)
    ensures TablesFormed(s.slots) && SlotsStep(s.slots, Idle, Touched(s, e), s'.slots)
  {
    hide Shaped, QueueFormed, ConfsFormed, SocksFormed, JobFormed, TablesFormed, AppChange, WorkingStep, LiveStep,
      SockStep, QueueStep, EmptySlots, ConfFormed, DissectorsKept;
    KeepsDissectors(s, e, s');
  }

  lemma IsolatedParts(s: System)
    requires Formed(s) && Isolated(s)
    ensures s.slots.Keys == s.conf.Keys && TablesFormed(s.slots) && ConfsFormed(s.conf)
    ensures SlotsOfApp(s.slots, s.socks, s.conf) && AppsAgree(s.socks, s.queue, s.job)
  {
    hide SlotsOfApp, AppsAgree;
  }

  lemma IsolatedNeeds(s: System)
    requires Formed(s)
    ensures Isolated(s) ==> AppsAgree(s.socks, s.queue, s.job) && SlotsOfApp(s.slots, s.socks, s.conf)
  {
    hide SlotsOfApp, AppsAgree;
  }

  /** Over runs: the applications are apart in every state exactly when every step is tame. */
  lemma {:induction false} RunIsolatedExactly(tr: seq<System>, es: seq<Step>, n: nat)
    requires IsRun(tr, es) && tr[0] == Boot && n < |tr|
    ensures (forall i :: 0 <= i <= n ==> Formed(tr[i]) && Isolated(tr[i])) <==>
            (forall i :: 0 <= i < n ==> Tame(tr[i], es[i]))
  {
    hide Core, Kept, Formed, Isolated, Enabled, Next, Tame;
    InvBoot();
    RunInv(tr, es, n);
    FormedOf(tr[n]);
    if n == 0 {
      BootIsolated();
    } else {
      var s, e := tr[n - 1], es[n - 1];
      RunIsolatedExactly(tr, es, n - 1);
      RunInv(tr, es, n - 1);
      assert tr[n] == Next(s, e);
      if Isolated(s) {
        IsolatedExactly(s, e);
        assert Isolated(tr[n]) <==> Tame(s, e);
      }
    }
  }

  // ---- runs that are tame anyway ----

  /** A socket without a generation is not registered and has no registration under way. */
  ghost predicate Unasked(socks: map<Cookie, Sock>, hashed: set<Cookie>, queue: seq<Msg>, j: Job) {
    forall c :: c in socks && socks[c].gen == UNSET ==> c !in hashed && !UnderWay(queue, j, c)
  }

  /** No second bind of a socket that has asked for a generation, and no request for the generation number that
      means "none". */
  ghost predicate Orderly(s: System, e: Step) {
    && !(e.DoBind? && e.c in s.socks && (e.c in s.hashed || UnderWay(s.queue, s.job, e.c)))
    && !(e.DoSetSocketGen? && e.gen == UNSET)
  }

  lemma UnaskedIsTame(s: System, e: Step)
    requires Inv(s) && Unasked(s.socks, s.hashed, s.queue, s.job)
    ensures Tame(s, e)
  {
    hide Kept, Shaped, QueueFormed, ConfsFormed, Covering, SlotOwned, LiveSet, Asked;
  }

  lemma UnaskedStays(s: System, e: Step, s': System)
    requires Formed(s) && Unasked(s.socks, s.hashed, s.queue, s.job) && AppsAgree(s.socks, s.queue, s.job)
    requires Orderly(s, e)
    requires s.hashed <= s.socks.Keys && Enabled(s, e) && SocketsStep(s, e, s') && JobStep(s, e, s')
    ensures Unasked(s'.socks, s'.hashed, s'.queue, s'.job)
  {
    hide Formed, ToWrkGen, AppChange;
    if e.DoSetSocketGen? && s'.queue != s.queue {
      forall c ensures Asked(s'.queue, c) ==> Asked(s.queue, c) || c == e.c {
        AskedGrows(s.queue, s'.queue[|s.queue|], c);
      }
    }
  }

  /** Applications that bind each socket once and ask for real generation numbers never meet the failing call. */
  lemma {:induction false} OrderlyRunIsTame(tr: seq<System>, es: seq<Step>, n: nat)
    requires IsRun(tr, es) && tr[0] == Boot && n < |tr| && forall i :: 0 <= i < |es| ==> Orderly(tr[i], es[i])
    ensures Inv(tr[n]) && Isolated(tr[n]) && Unasked(tr[n].socks, tr[n].hashed, tr[n].queue, tr[n].job)
    ensures forall i :: 0 <= i < n ==> Tame(tr[i], es[i])
  {
    hide Formed, Core, Kept, Next, Enabled, Frame, Isolated, Unasked, Orderly, Tame, SocketsStep, JobStep, WorkingStep,
      LiveStep, AppsAgree;
    InvBoot();
    if n == 0 {
      BootIsolated();
      BootUnasked();
    } else {
      var s, e, s' := tr[n - 1], es[n - 1], tr[n];
      OrderlyRunIsTame(tr, es, n - 1);
      RunFrame(tr, es, n - 1);
      FormedOf(s);
      UnaskedIsTame(s, e);
      IsolatedStays(s, e, s');
      FrameParts(s, e, s');
      JobFrame(s, e, s');
      IsolatedParts(s);
      HashedKnown(s);
      UnaskedStays(s, e, s');
    }
  }

  lemma BootUnasked()
    ensures Unasked(Boot.socks, Boot.hashed, Boot.queue, Boot.job)
  {
  }

  lemma HashedKnown(s: System)
    requires Formed(s)
    ensures s.hashed <= s.socks.Keys
  {
  }

  /** One way to the failing call: a second bind of a socket that owns a slot resets its generation and index, the call
      is then accepted, and the slot lies in a row of an application that is not the socket's own. */
  lemma RebindBreaksIsolation(s: System, c: Cookie, app: u32, k: Key, g: nat, i: nat)
    requires Inv(s) && Isolated(s) && k in s.slots && g < MAX_GENS && i < MAX_SOCKETS_IN_GEN
    requires c != 0 && s.slots[k].cookies[g][i] == c && s.conf[k].netns == s.socks[c].netns
    requires app < s.conf[k].dis.maxApps && app != s.socks[c].app
    ensures var s1 := Bind(s, c, 0, 0);
      && Formed(s1)
      && var r := SetSocketApp(s1, c, app, None);
         && r.err == OK && Formed(r.s) && !SlotsOfApp(r.s.slots, r.s.socks, r.s.conf)
  {
    var s1 := Bind(s, c, 0, 0);
    NamedAt(s, k, g, i);
    FormedBind(s, c);
    var r := SetSocketApp(s1, c, app, None);
    FrameSetSocketApp(s1, c, app, None);
    FormedHook(s1, c, k, r.s);
    SlotOfApp(s, k, g, i);
    hide Core, Kept, Isolated, HookFrame, Shaped, QueueFormed, SocksFormed;
    assert r.s.socks[c].app == app && r.s.slots == s.slots && r.s.conf == s.conf;
    assert r.s.slots[k].cookies[g][i] == c;
  }

  lemma NamedAt(s: System, k: Key, g: nat, i: nat)
    requires Inv(s) && k in s.slots && g < MAX_GENS && i < MAX_SOCKETS_IN_GEN && s.slots[k].cookies[g][i] != 0
    ensures var c := s.slots[k].cookies[g][i]; c in s.socks && s.socks[c].key == k && 0 < c < TWO64 - 2
  {
    hide Kept, Shaped, QueueFormed, ConfsFormed, Covering, SlotOwned, LiveSet;
  }

  lemma SlotOfApp(s: System, k: Key, g: nat, i: nat)
    requires Inv(s) && Isolated(s) && k in s.slots && g < MAX_GENS && i < MAX_SOCKETS_IN_GEN
    requires s.slots[k].cookies[g][i] != 0
    ensures var c := s.slots[k].cookies[g][i]; c in s.socks && AppOfRow(s.conf[k].dis.maxApps, g) == s.socks[c].app
  {
    hide Kept, Shaped, QueueFormed, ConfsFormed, Covering, SlotOwned, LiveSet, AppsValid, AppsAgree, RowRight;
  }

  lemma FormedBind(s: System, c: Cookie)
    requires Inv(s) && c in s.socks
    ensures Formed(Bind(s, c, 0, 0))
  {
    hide Kept, Shaped, ConfsFormed, Covering, SlotOwned, LiveSet, Named, TablesFormed;
  }
}
