/** Runs and packets that meet what the main theorems ask for: their hypotheses are not empty. */
module Scenarios {
  import opened Words
  import opened GrmCookie
  import opened Allocator
  import opened Tubular
  import opened Steering
  import opened Invariants
  import opened Routing
  import opened Isolation
  import opened Polling
  import opened Handover
  import opened Calls
  import opened Runtime
  import opened Registration
  import Groups

  // ---- one socket is bound, registered and confirmed ----

  const SOCKET: Cookie := 1
  const GROUP: Key := 0
  const FD: int := 3

  /** A classic-BPF dissector for two applications. */
  const PROGRAM := Dissector(DISSECTOR_CBPF, 0, 2, 0, [], 1, [])

  function Script(): seq<Step> {
    [DoBind(SOCKET, GROUP, 0), DoSetDissector(SOCKET, PROGRAM, Some(7), false), DoTakeMessage(None),
     DoSetSocketGen(SOCKET, 0, None, false), DoTakeMessage(Some(FD)),
     DoAdvance(0), DoAdvance(0), DoAdvance(0), DoAdvance(0), DoAdvance(0), DoAdvance(0)]
  }

  function Bound(): System {
    Boot.(socks := map[SOCKET := Sock(GROUP, 0, UNSET, UNSET, 0, 0, true)])
  }

  function Configured(queue: seq<Msg>): System {
    Bound().(conf := map[GROUP := NewConf(0, 7).(dis := PROGRAM)], slots := map[GROUP := EmptySlots()], queue := queue)
  }

  function AskedFor(): System {
    Configured([RegisterMsg(GROUP, SOCKET, 0, 0)]).(socks := map[SOCKET := Sock(GROUP, 0, 0, UNSET, 0, 1, true)])
  }

  function JobAt(at: Stage): Job {
    Job(GROUP, SOCKET, 0, 0, FD, 0, 0, 1, false, at)
  }

  function Taken(): System {
    AskedFor().(queue := [], fds := map[FD := SOCKET], job := JobAt(Found))
  }

  function Inserted(at: Stage): System {
    Taken().(hashed := {SOCKET}, job := JobAt(at))
  }

  function Written(): System {
    Inserted(CookieSet).(slots := map[GROUP := SetSlot(EmptySlots(), 0, 0, SOCKET)])
  }

  function Lengthened(): System {
    Written().(slots := map[GROUP := SetLength(SetSlot(EmptySlots(), 0, 0, SOCKET), 0, 1)], job := JobAt(MaxSet))
  }

  function Indexed(): System {
    Lengthened().(socks := map[SOCKET := Sock(GROUP, 0, 0, 0, 0, 1, true)], job := JobAt(IndexSet))
  }

  function Done(): System {
    Indexed().(job := Idle, fds := map[])
  }

  function States(): seq<System> {
    [Boot, Bound(), Configured([DissectorMsg(GROUP)]), Configured([]), AskedFor(), Taken(), Inserted(Hashed),
     Inserted(Preserved), Written(), Lengthened(), Indexed(), Done()]
  }

  ghost predicate Leads(s: System, e: Step, s': System) {
    Formed(s) && Enabled(s, e) && Next(s, e) == s'
  }

  lemma StepBind()
    requires Inv(Boot)
    ensures Leads(Boot, DoBind(SOCKET, GROUP, 0), Bound())
  {
  }

  lemma StepConfigure()
    requires Inv(Bound())
    ensures Leads(Bound(), DoSetDissector(SOCKET, PROGRAM, Some(7), false), Configured([DissectorMsg(GROUP)]))
  {
    hide Formed, EmptySlots, Core, Kept, Accepts, Kind, Verbose;
    var s, g := Bound(), NewConf(0, 7);
    FormedOf(s);
    GroupMade();
    ProgramAccepted();
    assert s.queue + [DissectorMsg(GROUP)] == [DissectorMsg(GROUP)];
    assert map[GROUP := g][GROUP := g.(dis := PROGRAM)] == map[GROUP := g.(dis := PROGRAM)];
  }

  lemma GroupMade()
    requires Formed(Bound())
    ensures Enter(Bound(), SOCKET, Some(7)) ==
      Entered(Bound().(conf := map[GROUP := NewConf(0, 7)], slots := map[GROUP := EmptySlots()]), true)
  {
    hide Formed, EmptySlots;
  }

  lemma ProgramAccepted()
    ensures Accepts(PROGRAM) && Kind(PROGRAM.typ) == DISSECTOR_CBPF && !Verbose(PROGRAM.typ)
  {
    hide Kind, Verbose;
    KindOne();
  }

  lemma KindOne()
    ensures Kind(1) == 1 && !Verbose(1)
  {
    var n: nat := 1;
    assert n / 0x1_0000 == 0 && n % 0x8000 == 1 && n / 0x8000 == 0;
  }

  lemma StepTold()
    requires Inv(Configured([DissectorMsg(GROUP)]))
    ensures Leads(Configured([DissectorMsg(GROUP)]), DoTakeMessage(None), Configured([]))
  {
    hide EmptySlots, Shaped, Core, Kept;
    FormedOf(Configured([DissectorMsg(GROUP)]));
    assert Configured([DissectorMsg(GROUP)]).queue[1..] == [];
  }

  lemma StepAsk()
    requires Inv(Configured([]))
    ensures Leads(Configured([]), DoSetSocketGen(SOCKET, 0, None, false), AskedFor())
  {
    hide EmptySlots, Shaped;
    var k := Configured([]).socks[SOCKET];
    assert Configured([]).queue + [RegisterMsg(GROUP, SOCKET, 0, 0)] == [RegisterMsg(GROUP, SOCKET, 0, 0)];
    assert Configured([]).socks[SOCKET := k.(gen := 0, changes := 1)] == map[SOCKET := k.(gen := 0, changes := 1)];
  }

  lemma RowIsEmpty()
    ensures var row := EmptySlots().cookies[0]; FreePos(row, {}) == 0 && GenLen(row, {}) == 1
  {
    var row := EmptySlots().cookies[0];
    hide EmptySlots, FreePos, GenLen;
    PrefixGrows(row, {}, 0);
  }

  lemma StepTake()
    requires Inv(AskedFor())
    ensures Leads(AskedFor(), DoTakeMessage(Some(FD)), Taken())
  {
    hide EmptySlots, Shaped, FreePos, GenLen, Core, Kept;
    FormedOf(AskedFor());
    RowIsEmpty();
    var s := AskedFor();
    assert s.queue[1..] == [];
    assert LiveSet(PopMessage(s)) == {};
    assert s.fds[FD := SOCKET] == map[FD := SOCKET];
  }

  lemma StepInsert()
    requires Inv(Taken())
    ensures Leads(Taken(), DoAdvance(0), Inserted(Hashed))
  {
    hide EmptySlots, Core, Kept, Formed;
    FormedOf(Taken());
  }

  lemma StepKeep()
    requires Inv(Inserted(Hashed))
    ensures Leads(Inserted(Hashed), DoAdvance(0), Inserted(Preserved))
  {
    hide EmptySlots, Core, Kept, Formed;
    FormedOf(Inserted(Hashed));
  }

  lemma StepCookie()
    requires Inv(Inserted(Preserved))
    ensures Leads(Inserted(Preserved), DoAdvance(0), Written())
  {
    hide EmptySlots, Core, Kept, Formed, SetSlot;
    FormedOf(Inserted(Preserved));
    var t := EmptySlots();
    assert map[GROUP := t][GROUP := SetSlot(t, 0, 0, SOCKET)] == map[GROUP := SetSlot(t, 0, 0, SOCKET)];
  }

  lemma StepLength()
    requires Inv(Written())
    ensures Leads(Written(), DoAdvance(0), Lengthened())
  {
    hide EmptySlots, Core, Kept, Formed, SetSlot, SetLength;
    FormedOf(Written());
    var t := SetSlot(EmptySlots(), 0, 0, SOCKET);
    assert map[GROUP := t][GROUP := SetLength(t, 0, 1)] == map[GROUP := SetLength(t, 0, 1)];
  }

  lemma StepIndex()
    requires Inv(Lengthened())
    ensures Leads(Lengthened(), DoAdvance(0), Indexed())
  {
    hide EmptySlots, Core, Kept, Formed, SetSlot, SetLength;
    FormedOf(Lengthened());
    var k := Lengthened().socks[SOCKET];
    assert Lengthened().socks[SOCKET := k.(idx := 0)] == map[SOCKET := k.(idx := 0)];
  }

  lemma StepFinish()
    requires Inv(Indexed())
    ensures Leads(Indexed(), DoAdvance(0), Done())
  {
    hide EmptySlots, Core, Kept, Formed, SetSlot, SetLength;
    FormedOf(Indexed());
    assert map[FD := SOCKET] - {FD} == map[];
  }

  lemma KeepsInv(s: System, e: Step, s': System)
    requires Inv(s) && Leads(s, e, s')
    ensures Inv(s')
  {
    hide Inv, Formed, Enabled, Next;
    InvStep(s, e);
  }

  ghost predicate LeadsOn(tr: seq<System>, es: seq<Step>, i: nat)
    requires i < |es| && |tr| == |es| + 1
  {
    Inv(tr[i]) && Leads(tr[i], es[i], tr[i + 1]) && Inv(tr[i + 1])
  }

  /** The script is a run, step by step. */
  lemma ScriptLeads()
    ensures |States()| == 12 && |Script()| == 11
    ensures forall i :: 0 <= i < 11 ==> LeadsOn(States(), Script(), i)
  {
    hide Inv, Leads, Bound, Configured, AskedFor, Taken, Inserted, Written, Lengthened, Indexed, Done;
    InvBoot();
    StepBind();
    KeepsInv(Boot, DoBind(SOCKET, GROUP, 0), Bound());
    StepConfigure();
    KeepsInv(Bound(), DoSetDissector(SOCKET, PROGRAM, Some(7), false), Configured([DissectorMsg(GROUP)]));
    StepTold();
    KeepsInv(Configured([DissectorMsg(GROUP)]), DoTakeMessage(None), Configured([]));
    StepAsk();
    KeepsInv(Configured([]), DoSetSocketGen(SOCKET, 0, None, false), AskedFor());
    StepTake();
    KeepsInv(AskedFor(), DoTakeMessage(Some(FD)), Taken());
    StepInsert();
    KeepsInv(Taken(), DoAdvance(0), Inserted(Hashed));
    StepKeep();
    KeepsInv(Inserted(Hashed), DoAdvance(0), Inserted(Preserved));
    StepCookie();
    KeepsInv(Inserted(Preserved), DoAdvance(0), Written());
    StepLength();
    KeepsInv(Written(), DoAdvance(0), Lengthened());
    StepIndex();
    KeepsInv(Lengthened(), DoAdvance(0), Indexed());
    StepFinish();
    KeepsInv(Indexed(), DoAdvance(0), Done());
  }

  lemma ScriptIsTame()
    ensures TameRun(States(), Script()) && forall i :: 0 <= i < 12 ==> Inv(States()[i]) && Formed(States()[i])
  {
    hide Inv, Formed, Enabled, Next, Bound, Configured, AskedFor, Taken, Inserted, Written, Lengthened, Indexed, Done,
      Owns;
    ScriptLeads();
    var tr, es := States(), Script();
    forall i | 0 <= i < 12 ensures Inv(tr[i]) && Formed(tr[i]) {
      assert LeadsOn(tr, es, if i < 11 then i else 10);
      FormedOf(tr[i]);
    }
    forall i | 0 <= i < 11
      ensures Formed(tr[i]) && Enabled(tr[i], es[i]) && tr[i + 1] == Next(tr[i], es[i]) && Tame(tr[i], es[i])
    {
      assert LeadsOn(tr, es, i);
    }
  }

  lemma StartedEmpty()
    requires Formed(AskedFor())
    ensures StartsEmpty(AskedFor(), Taken(), GROUP, 0)
  {
    hide EmptySlots, Formed;
    assert LiveSet(AskedFor()) == {};
  }

  lemma SocketConfirmed()
    requires Formed(Done())
    ensures GROUP in Done().conf && Confirmed(Done(), GROUP, 0, SOCKET) && WorkingRow(Done(), GROUP, 0) == 0
  {
    hide Done, Formed, LiveSet, ToWrkGen;
    DoneIsLive();
    DoneHolds();
    FirstRow();
  }

  lemma DoneHolds()
    ensures var s := Done();
      && GROUP in s.conf && SOCKET in s.socks && s.socks[SOCKET] == Sock(GROUP, 0, 0, 0, 0, 1, true)
      && s.conf[GROUP].dis == PROGRAM && s.conf[GROUP].workingGen == [0, 0, 0, 0]
  {
    hide EmptySlots, SetSlot, SetLength;
  }

  lemma FirstRow()
    ensures ToWrkGen(2, 0, 0) == 0
  {
  }

  lemma DoneIsLive()
    ensures SOCKET in LiveSet(Done())
  {
    hide EmptySlots, SetSlot, SetLength;
  }

  /** The rules of the zero-loss hand-over can be kept: after one registration the working row of application 0 is
      prepared. */
  lemma HandoverCanStart()
    ensures TameRun(States(), Script()) && States()[0] == Boot && Formed(States()[11]) && GROUP in States()[11].conf
    ensures Prepared(States(), Script(), 11, GROUP, WorkingRow(States()[11], GROUP, 0))
  {
    hide Inv, Formed, Bound, Configured, AskedFor, Taken, Inserted, Written, Lengthened, Indexed, TameRun, StartsEmpty,
      Confirmed, WorkingRow, Touches;
    ScriptIsTame();
    var tr, es := States(), Script();
    assert Formed(tr[4]) && Formed(tr[11]);
    StartedEmpty();
    SocketConfirmed();
    assert FilledSince(tr, es, 4, 11, GROUP, 0);
    assert Confirmed(tr[11], GROUP, 0, SOCKET);
  }

  lemma SocketSees()
    requires Formed(Done())
    ensures AskedAndSaw(Done().socks, SOCKET) && ByGroupProgram(Done(), SOCKET) && Done().socks[SOCKET].key == GROUP
    ensures ReportedCookie(Done(), SOCKET) == Pack(0, 0)
  {
    hide Done, Formed, ToWrkGen, Pack;
    DoneHolds();
    FirstRow();
  }

  /** The cookie that the socket reads at the end of the script routes to it. */
  lemma RegistrationRoutes(p: Packet, now: u64)
    requires p.ran == Ran(IERR_OK, Pack(0, 0))
    ensures IsRun(States(), Script()) && States()[0] == Boot && States()[11] == Done() && Formed(Done())
    ensures GROUP in Done().conf && PathOf(Done(), GROUP, p, now) == Existing(SOCKET)
  {
    hide Inv, Formed, IsRun, Tame, PathOf, LiveSet, ReportedCookie, Bound, Configured, AskedFor, Taken, Inserted,
      Written, Lengthened, Indexed, Done, AskedAndSaw, ByGroupProgram, Pack;
    ScriptIsTame();
    assert Formed(States()[11]);
    DoneIsLive();
    SocketSees();
    PolledCookieRoutes(States(), Script(), 11, 11, SOCKET, p, now);
  }

  // ---- a second socket takes over ----

  const SUCCESSOR: Cookie := 2
  const FD_TWO: int := 4

  function BoundTwo(): System {
    Done().(socks := map[SOCKET := Sock(GROUP, 0, 0, 0, 0, 1, true),
                         SUCCESSOR := Sock(GROUP, 0, UNSET, UNSET, 0, 0, true)])
  }

  function AskedTwo(): System {
    BoundTwo().(socks := map[SOCKET := Sock(GROUP, 0, 0, 0, 0, 1, true),
                             SUCCESSOR := Sock(GROUP, 0, 1, UNSET, 0, 1, true)],
                queue := [RegisterMsg(GROUP, SUCCESSOR, 1, 0)])
  }

  lemma StepBindTwo()
    requires Inv(Done())
    ensures Leads(Done(), DoBind(SUCCESSOR, GROUP, 0), BoundTwo())
  {
    hide EmptySlots, Core, Kept, Formed, SetSlot, SetLength;
    FormedOf(Done());
    assert Done().socks[SUCCESSOR := BoundTwo().socks[SUCCESSOR]] == BoundTwo().socks;
  }

  lemma StepAskTwo()
    requires Inv(BoundTwo())
    ensures Leads(BoundTwo(), DoSetSocketGen(SUCCESSOR, 1, None, false), AskedTwo())
  {
    hide EmptySlots, Core, Kept, Formed, SetSlot, SetLength, SetSocketGen;
    var s := BoundTwo();
    FormedOf(s);
    SocketGenExactly(s, SUCCESSOR, 1, None, false);
    assert s.queue + [RegisterMsg(GROUP, SUCCESSOR, 1, 0)] == [RegisterMsg(GROUP, SUCCESSOR, 1, 0)];
    assert s.socks[SUCCESSOR := AskedTwo().socks[SUCCESSOR]] == AskedTwo().socks;
  }

  /** A run goes on by one step. */
  lemma Extend(tr: seq<System>, es: seq<Step>, e: Step, s': System)
    requires IsRun(tr, es) && Inv(tr[|tr| - 1]) && Leads(tr[|tr| - 1], e, s')
    ensures IsRun(tr + [s'], es + [e]) && Inv(s')
  {
    hide Inv, Formed, Enabled, Next;
    KeepsInv(tr[|tr| - 1], e, s');
    var tr', es' := tr + [s'], es + [e];
    forall i | 0 <= i < |es'| ensures Formed(tr'[i]) && Enabled(tr'[i], es'[i]) && tr'[i + 1] == Next(tr'[i], es'[i]) {
      if i < |es| {
        assert tr'[i] == tr[i] && es'[i] == es[i] && tr'[i + 1] == tr[i + 1];
      }
    }
  }

  lemma ClockOfWrite(s: System, now: u64)
    requires Formed(s) && s.job.Job? && s.clock <= now
    ensures Enabled(s, DoAdvance(now)) && Advance(s, now).clock <= now
  {
    hide ConfsFormed, TablesFormed, SocksFormed, Shaped, QueueFormed, SetSlot, SetLength, Preserve, Replaced, Labelled;
  }

  lemma AdvanceLeads(s: System, now: u64)
    requires Formed(s) && s.job.Job? && Enabled(s, DoAdvance(now))
    ensures Leads(s, DoAdvance(now), Advance(s, now))
  {
    hide Formed, Enabled, Advance;
  }

  /** The daemon carries the registration in progress through to its end. */
  lemma {:induction false} Drain(tr: seq<System>, es: seq<Step>, now: u64) returns (tr': seq<System>, es': seq<Step>)
    requires IsRun(tr, es) && Inv(tr[|tr| - 1]) && tr[|tr| - 1].clock <= now
    ensures IsRun(tr', es') && tr <= tr' && es <= es' && tr'[|tr'| - 1] == RunJob(tr[|tr| - 1], now)
    ensures forall j :: |es| <= j < |es'| ==> es'[j] == DoAdvance(now)
    decreases Rank(tr[|tr| - 1].job)
  {
    hide Inv, Formed, Enabled, RunJob, Advance, Next;
    var s := tr[|tr| - 1];
    FormedOf(s);
    if s.job == Idle {
      tr', es' := tr, es;
      RunIdle(s, now);
    } else {
      RunOn(s, now);
      ClockOfWrite(s, now);
      AdvanceLeads(s, now);
      Extend(tr, es, DoAdvance(now), Advance(s, now));
      tr', es' := Drain(tr + [Advance(s, now)], es + [DoAdvance(now)], now);
    }
  }

  function TookOver(): System {
    AskedTwo().(queue := [], hashed := {SOCKET, SUCCESSOR},
                slots := map[GROUP := Registration.Entered(Done().slots[GROUP], 1, 0, 1, SUCCESSOR)],
                socks := map[SOCKET := Sock(GROUP, 0, 0, 0, 0, 1, true),
                             SUCCESSOR := Sock(GROUP, 0, 1, 0, 0, 1, true)])
  }

  /** The second row is empty when the successor asks for it. */
  lemma SecondRow()
    requires Inv(AskedTwo())
    ensures var s := AskedTwo();
      && Formed(s) && Enabled(s, DoTakeMessage(Some(FD_TWO))) && GROUP in s.slots && |s.slots[GROUP].cookies| == 32
      && RowFor(s, s.queue[0]) == 1 && (forall i :: 0 <= i < 256 ==> s.slots[GROUP].cookies[1][i] !in LiveSet(s))
      && FreePos(s.slots[GROUP].cookies[1], LiveSet(s)) == 0 && GenLen(s.slots[GROUP].cookies[1], LiveSet(s)) == 1
  {
    hide EmptySlots, Core, Kept, Formed, SetSlot, SetLength, ToWrkGen, FreePos, GenLen;
    var s := AskedTwo();
    FormedOf(s);
    RowOne();
    PrefixGrows(s.slots[GROUP].cookies[1], LiveSet(s), 0);
  }

  lemma RowOne()
    ensures ToWrkGen(2, 0, 1) == 1
  {
  }

  lemma SuccessorServed()
    requires Inv(AskedTwo())
    ensures Formed(AskedTwo()) && Enabled(AskedTwo(), DoTakeMessage(Some(FD_TWO)))
    ensures Inv(TakeMessage(AskedTwo(), Some(FD_TWO)))
    ensures RunJob(TakeMessage(AskedTwo(), Some(FD_TWO)), 0) == TookOver()
    ensures Leads(AskedTwo(), DoTakeMessage(Some(FD_TWO)), TakeMessage(AskedTwo(), Some(FD_TWO)))
    ensures Here(TakeMessage(AskedTwo(), Some(FD_TWO)).job, GROUP, 1)
  {
    hide EmptySlots, Inv, Formed, SetSlot, SetLength, Enabled, TakeMessage, RunJob, RowFor, LiveSet, FreePos, GenLen,
      Registration.Entered, SlotsFormed;
    var s := AskedTwo();
    SecondRow();
    TakenIs(s, FD_TWO);
    HandledExactly(s, FD_TWO, 0);
    assert !Labelled(PROGRAM);
    assert s.hashed + {SUCCESSOR} == TookOver().hashed;
    assert s.queue[1..] == [];
    assert s.socks[SUCCESSOR := TookOver().socks[SUCCESSOR]] == TookOver().socks;
    assert s.slots[GROUP := TookOver().slots[GROUP]] == TookOver().slots;
  }

  /** The working generation of application 0 becomes 1. */
  function Moved(): System {
    TookOver().(conf := map[GROUP := TookOver().conf[GROUP].(workingGen := [1, 0, 0, 0])],
                queue := [WorkingMsg(GROUP, 0, 1)])
  }

  lemma StepMove()
    requires Inv(TookOver())
    ensures Leads(TookOver(), DoSetWorkingGen(SOCKET, 1, None, false), Moved())
  {
    hide EmptySlots, Core, Kept, Formed, SetSlot, SetLength, SetWorkingGen, Registration.Entered;
    var s := TookOver();
    FormedOf(s);
    WorkingGenExactly(s, SOCKET, 1, None, false);
    assert Replace([0, 0, 0, 0], 0, 1) == [1, 0, 0, 0];
    assert s.queue + [WorkingMsg(GROUP, 0, 1)] == [WorkingMsg(GROUP, 0, 1)];
    assert s.conf[GROUP := Moved().conf[GROUP]] == Moved().conf;
  }

  /** The run up to the take-over, and the step at which the successor's registration starts. */
  lemma TakeOverRun() returns (tr: seq<System>, es: seq<Step>)
    ensures IsRun(tr, es) && tr[0] == Boot && |es| > 13 && States() <= tr && Script() <= es && tr[13] == AskedTwo()
    ensures Formed(tr[13]) && tr[14] == TakeMessage(tr[13], Some(FD_TWO))
    ensures tr[|tr| - 1] == TookOver() && Inv(TookOver())
    ensures forall j :: 11 <= j < |es| ==> !es[j].DoClose? && !es[j].DoSetWorkingGen?
  {
    hide Inv, Formed, Enabled, Next, TakeMessage, RunJob, Tame, Leads, Bound, Configured, AskedFor, Taken, Inserted,
      Written, Lengthened, Indexed, Done, BoundTwo, AskedTwo, TookOver;
    ScriptIsTame();
    tr, es := States(), Script();
    assert Inv(tr[11]) && tr[11] == Done();
    StepBindTwo();
    Extend(tr, es, DoBind(SUCCESSOR, GROUP, 0), BoundTwo());
    tr, es := tr + [BoundTwo()], es + [DoBind(SUCCESSOR, GROUP, 0)];
    StepAskTwo();
    Extend(tr, es, DoSetSocketGen(SUCCESSOR, 1, None, false), AskedTwo());
    tr, es := tr + [AskedTwo()], es + [DoSetSocketGen(SUCCESSOR, 1, None, false)];
    SuccessorServed();
    AskedTwoIdle();
    var taken := TakeMessage(AskedTwo(), Some(FD_TWO));
    Extend(tr, es, DoTakeMessage(Some(FD_TWO)), taken);
    tr, es := tr + [taken], es + [DoTakeMessage(Some(FD_TWO))];
    TakenClock();
    tr, es := Drain(tr, es, 0);
    RunInv(tr, es, |tr| - 1);
  }

  lemma TakenClock()
    requires Inv(AskedTwo()) && Formed(AskedTwo())
    ensures TakeMessage(AskedTwo(), Some(FD_TWO)).clock == 0
  {
    hide Inv, Formed, LiveSet, FreePos, GenLen, EmptySlots, SetSlot, SetLength, ToWrkGen;
  }

  lemma RowsOf()
    requires Formed(Done()) && Formed(TookOver())
    ensures GROUP in Done().conf && WorkingRow(Done(), GROUP, 0) == 0 && Confirmed(Done(), GROUP, 0, SOCKET)
    ensures Confirmed(TookOver(), GROUP, 1, SUCCESSOR)
  {
    hide Formed, EmptySlots, SetSlot, SetLength, Registration.Entered, ToWrkGen;
    SocketConfirmed();
    RowOne();
    assert SUCCESSOR in LiveSet(TookOver());
  }

  lemma SuccessorChosen(mdHash: u32)
    requires Inv(Moved()) && Formed(Moved()) && GROUP in Moved().conf && WorkingRow(Moved(), GROUP, 0) == 1
    ensures ThirdOf(Moved(), GROUP, 0, mdHash) == DispatchOk(SUCCESSOR)
  {
    hide Formed, EmptySlots, SetSlot, SetLength, Kept, Named, Covering, SlotOwned, WorkingRow, ThirdOf;
    var s := Moved();
    assert s.slots[GROUP].maxIdx[1] == 1 && s.slots[GROUP].cookies[1][0] == SUCCESSOR && SUCCESSOR in LiveSet(s);
    HashPicksSlot(s, GROUP, 0, mdHash, mdHash, 0);
  }

  /** The run of the hand-over, as far as its rules are concerned. */
  ghost predicate HandoverRun(tr: seq<System>, es: seq<Step>) {
    && IsRun(tr, es) && |tr| == |es| + 1 && tr[0] == Boot && |es| > 14 && States() <= tr && Script() <= es
    && (forall i :: 0 <= i < |tr| ==> Formed(tr[i]))
    && tr[13] == AskedTwo() && tr[14] == TakeMessage(tr[13], Some(FD_TWO))
    && tr[|tr| - 2] == TookOver() && tr[|tr| - 1] == Moved()
    && (forall j :: 11 <= j < |es| - 1 ==> !es[j].DoClose? && !es[j].DoSetWorkingGen?) && !es[|es| - 1].DoClose?
  }

  lemma PreparedTwice(tr: seq<System>, es: seq<Step>)
    requires HandoverRun(tr, es) && Inv(AskedTwo())
    ensures GROUP in tr[11].conf && WorkingRow(tr[11], GROUP, 0) == 0 && Prepared(tr, es, 11, GROUP, 0)
    ensures Prepared(tr, es, |es| - 1, GROUP, 1)
  {
    hide Inv, Formed, Enabled, Next, TakeMessage, WorkingRow, Confirmed, Bound, Configured, AskedFor, Taken, Inserted,
      Written, Lengthened, Indexed, Done, BoundTwo, AskedTwo, TookOver, Moved, LiveSet, IsRun, Touches;
    assert tr[4] == AskedFor() && tr[5] == Taken() && tr[11] == Done();
    RowsOf();
    StartedEmpty();
    assert forall j :: 4 < j < 11 ==> es[j] == Script()[j] && !es[j].DoClose?;
    assert FilledSince(tr, es, 4, 11, GROUP, 0);
    assert Confirmed(tr[11], GROUP, 0, SOCKET);
    SecondRow();
    SuccessorServed();
    AskedTwoIdle();
    assert FilledSince(tr, es, 13, |es| - 1, GROUP, 1);
    assert Confirmed(tr[|es| - 1], GROUP, 1, SUCCESSOR);
  }

  lemma AskedTwoIdle()
    ensures AskedTwo().job == Idle && AskedTwo().queue != []
  {
  }

  lemma RulesKept(tr: seq<System>, es: seq<Step>, j: nat)
    requires HandoverRun(tr, es) && Inv(AskedTwo()) && 11 <= j < |es|
    ensures Disciplined(tr, es, j, GROUP, 0)
  {
    hide Inv, Formed, Enabled, Next, TakeMessage, WorkingRow, Prepared, Frame, States, Script, AskedTwo, TookOver,
      Moved, Touches, Done;
    PreparedTwice(tr, es);
    Groups.DissectorForever(tr, es, 11, j, GROUP);
    Groups.DissectorForever(tr, es, 11, j + 1, GROUP);
    InvBoot();
    RunFrame(tr, es, j);
    if j < |es| - 1 {
      if WorkingRow(tr[j + 1], GROUP, 0) != WorkingRow(tr[j], GROUP, 0) {
        WorkingMovesByCall(tr[j], es[j], tr[j + 1], GROUP, 0);
      }
    } else {
      assert tr[j + 1] == Moved();
      LastRow();
    }
  }

  lemma LastRow()
    requires Formed(Moved())
    ensures GROUP in Moved().conf && WorkingRow(Moved(), GROUP, 0) == 1
  {
    hide Formed, EmptySlots, SetSlot, SetLength, Registration.Entered, ToWrkGen;
    RowOne();
  }

  /** A hand-over that keeps the rules does happen: a run from the start on which every rule of the zero-loss theorem
      is kept from state 11 on, and whose last step moves the working row of application 0. After it every new flow goes
      to the successor. */
  lemma HandoverHappens(mdHash: u32) returns (tr: seq<System>, es: seq<Step>)
    ensures IsRun(tr, es) && tr[0] == Boot && |tr| > 12 && Formed(tr[11]) && GROUP in tr[11].conf
    ensures Prepared(tr, es, 11, GROUP, WorkingRow(tr[11], GROUP, 0))
    ensures forall j :: 11 <= j < |es| ==> Disciplined(tr, es, j, GROUP, 0)
    ensures var s := tr[|tr| - 1];
      && Formed(s) && GROUP in s.conf && WorkingRow(s, GROUP, 0) != WorkingRow(tr[11], GROUP, 0)
      && ThirdOf(s, GROUP, 0, mdHash) == DispatchOk(SUCCESSOR)
  {
    hide Inv, Formed, Enabled, Next, TakeMessage, Leads, WorkingRow, Confirmed, StartsEmpty, ThirdOf, Bound, Configured,
      AskedFor, Taken, Inserted, Written, Lengthened, Indexed, Done, BoundTwo, AskedTwo, TookOver, Moved, Disciplined;
    tr, es := TakeOverRun();
    StepMove();
    Extend(tr, es, DoSetWorkingGen(SOCKET, 1, None, false), Moved());
    tr, es := tr + [Moved()], es + [DoSetWorkingGen(SOCKET, 1, None, false)];
    forall i | 0 <= i < |tr| ensures Inv(tr[i]) && Formed(tr[i]) {
      InvBoot();
      RunInv(tr, es, i);
      FormedOf(tr[i]);
    }
    assert Inv(tr[13]);
    PreparedTwice(tr, es);
    forall j | 11 <= j < |es| ensures Disciplined(tr, es, j, GROUP, 0) {
      RulesKept(tr, es, j);
    }
    LastRow();
    SuccessorChosen(mdHash);
  }

  // ---- the applications get mixed up ----

  /** The script goes on: the socket is bound again and then changes its application. */
  function LostScript(): seq<Step> {
    Script() + [DoBind(SOCKET, GROUP, 0), DoSetSocketApp(SOCKET, 1, None)]
  }

  function Rebound(): System {
    Done().(socks := map[SOCKET := Sock(GROUP, 0, UNSET, UNSET, 0, 2, true)])
  }

  function Foreign(): System {
    Done().(socks := map[SOCKET := Sock(GROUP, 0, UNSET, UNSET, 1, 2, true)])
  }

  function LostStates(): seq<System> {
    States() + [Rebound(), Foreign()]
  }

  lemma StepBindAgain()
    requires Inv(Done())
    ensures Leads(Done(), DoBind(SOCKET, GROUP, 0), Rebound())
  {
    hide EmptySlots, Core, Kept, Formed, SetSlot, SetLength;
    FormedOf(Done());
    assert Done().socks[SOCKET := Rebound().socks[SOCKET]] == Rebound().socks;
  }

  lemma StepChange()
    requires Inv(Rebound())
    ensures Leads(Rebound(), DoSetSocketApp(SOCKET, 1, None), Foreign())
  {
    hide EmptySlots, Core, Kept, Formed, SetSlot, SetLength;
    FormedOf(Rebound());
    assert Rebound().socks[SOCKET := Foreign().socks[SOCKET]] == Foreign().socks;
  }

  lemma ForeignIsLost()
    requires Formed(Foreign())
    ensures !Isolated(Foreign())
  {
    hide Formed, EmptySlots, SetSlot, SetLength, AppsAgree, RowRight, AppsValid;
    assert Foreign().slots[GROUP].cookies[0][0] == SOCKET;
  }

  /** Isolation can be lost: a run from the start to a state in which a slot of application 0 holds a socket of
      application 1. Every step but the last is tame. */
  lemma IsolationCanBeLost()
    ensures IsRun(LostStates(), LostScript()) && LostStates()[0] == Boot && |LostStates()| == 14
    ensures forall i :: 0 <= i < 12 ==> Tame(LostStates()[i], LostScript()[i])
    ensures Formed(LostStates()[13]) && !Isolated(LostStates()[13])
  {
    hide Inv, Formed, Enabled, Next, Bound, Configured, AskedFor, Taken, Inserted, Written, Lengthened, Indexed, Done,
      Rebound, Foreign, Owns, Isolated;
    var tr, es := LostStates(), LostScript();
    ScriptLeads();
    assert LeadsOn(States(), Script(), 10);
    StepBindAgain();
    KeepsInv(Done(), DoBind(SOCKET, GROUP, 0), Rebound());
    StepChange();
    KeepsInv(Rebound(), DoSetSocketApp(SOCKET, 1, None), Foreign());
    FormedOf(Foreign());
    ForeignIsLost();
    forall i | 0 <= i < 13
      ensures Formed(tr[i]) && Enabled(tr[i], es[i]) && tr[i + 1] == Next(tr[i], es[i])
    {
      if i < 11 {
        assert LeadsOn(States(), Script(), i);
      }
    }
  }
}
