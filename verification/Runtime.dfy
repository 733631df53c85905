/** The hooks, the packet program and the daemon as they run: every statement changes the shared maps in place.
    Each method is proved to end in the state that the step machine prescribes. */
module Runtime {
  import opened Words
  import opened GrmCookie
  import opened Allocator
  import opened Tubular
  import opened TubularStore
  import opened Steering
  import opened Invariants

  datatype RxMetric =
    | RxProcessed | RxInternalStateError | RxCbpfProgError | RxTooShort | RxDissectedOk
    | RxFlowOk | RxRgConflict | RxOtherError | RxNewUnseen | RxHadExpired | RxBadCookie
    | RxNewFlow | RxDispatchOk | RxDispatchError

  function IncRx(r: Rx, m: RxMetric): Rx {
    match m
    case RxProcessed => r.(processed := r.processed + 1)
    case RxInternalStateError => r.(internalError := r.internalError + 1)
    case RxCbpfProgError => r.(progError := r.progError + 1)
    case RxTooShort => r.(tooShort := r.tooShort + 1)
    case RxDissectedOk => r.(dissected := r.dissected + 1)
    case RxFlowOk => r.(flowOk := r.flowOk + 1)
    case RxRgConflict => r.(rgConflict := r.rgConflict + 1)
    case RxOtherError => r.(otherError := r.otherError + 1)
    case RxNewUnseen => r.(newUnseen := r.newUnseen + 1)
    case RxHadExpired => r.(hadExpired := r.hadExpired + 1)
    case RxBadCookie => r.(badCookie := r.badCookie + 1)
    case RxNewFlow => r.(newFlow := r.newFlow + 1)
    case RxDispatchOk => r.(dispatchOk := r.dispatchOk + 1)
    case RxDispatchError => r.(dispatchError := r.dispatchError + 1)
  }

  datatype TxMetric = TxTotal | TxCreateOk | TxCreateFromExpired | TxCreateError | TxUpdateOk | TxUpdateConflict

  function IncTx(t: Tx, m: TxMetric): Tx {
    match m
    case TxTotal => t.(total := t.total + 1)
    case TxCreateOk => t.(createOk := t.createOk + 1)
    case TxCreateFromExpired => t.(createFromExpired := t.createFromExpired + 1)
    case TxCreateError => t.(createError := t.createError + 1)
    case TxUpdateOk => t.(updateOk := t.updateOk + 1)
    case TxUpdateConflict => t.(updateConflict := t.updateConflict + 1)
  }

  /** What the second stage counts. */
  function CountSecond(r: Rx, second: Second): Rx {
    var d := IncRx(r, RxDissectedOk);
    match second
    case FlowOk(_) => IncRx(d, RxFlowOk)
    case RgConflict => IncRx(d, RxRgConflict)
    case OtherError => IncRx(d, RxOtherError)
    case Unseen(expired, badCookie) =>
      var u := IncRx(d, RxNewUnseen);
      if expired then IncRx(u, RxHadExpired) else if badCookie then IncRx(u, RxBadCookie) else u
  }

  /** What the third stage counts. */
  function CountThird(r: Rx, third: Third): Rx {
    IncRx(IncRx(r, RxNewFlow), if third.DispatchOk? then RxDispatchOk else RxDispatchError)
  }

  /** Counting stage by stage is counting by the way the packet took. */
  lemma StagesCount(r: Rx, second: Second, app: u32, third: Third)
    requires second.Unseen? ==> !(second.expired && second.badCookie)
    ensures second.FlowOk? ==> CountSecond(IncRx(r, RxProcessed), second) == CountRx(r, Existing(second.c))
    ensures !second.FlowOk? ==>
      CountThird(CountSecond(IncRx(r, RxProcessed), second), third) == CountRx(r, Fresh(second, app, third))
  {
    hide CountRx, IncRx, CountSecond, CountThird;
    if second.FlowOk? {
      KnownFlowCounts(r, second);
    } else if second.Unseen? {
      UnseenCounts(r, second, app, third);
    } else {
      FailedCounts(r, second, app, third);
    }
  }

  lemma KnownFlowCounts(r: Rx, second: Second)
    requires second.FlowOk?
    ensures CountSecond(IncRx(r, RxProcessed), second) == CountRx(r, Existing(second.c))
  {
  }

  lemma UnseenCounts(r: Rx, second: Second, app: u32, third: Third)
    requires second.Unseen? && !(second.expired && second.badCookie)
    ensures CountThird(CountSecond(IncRx(r, RxProcessed), second), third) == CountRx(r, Fresh(second, app, third))
  {
  }

  lemma FailedCounts(r: Rx, second: Second, app: u32, third: Third)
    requires second.RgConflict? || second.OtherError?
    ensures CountThird(CountSecond(IncRx(r, RxProcessed), second), third) == CountRx(r, Fresh(second, app, third))
  {
  }

  /** A group whose counters moved. */
  function WithRx(s: System, k: Key, r: Rx): System
    requires k in s.conf
  {
    s.(conf := s.conf[k := s.conf[k].(rx := r)])
  }

  function WithTx(s: System, k: Key, t: Tx): System
    requires k in s.conf
  {
    s.(conf := s.conf[k := s.conf[k].(tx := t)])
  }

  lemma WithSame(s: System, k: Key)
    requires k in s.conf
    ensures WithRx(s, k, s.conf[k].rx) == s && WithTx(s, k, s.conf[k].tx) == s
  {
  }

  class Udpgrm {
    var socks: map<Cookie, Sock>
    var hashed: set<Cookie>
    var conf: map<Key, Conf>
    var slots: map<Key, Slots>
    var queue: seq<Msg>
    var flows: map<u32, Flow>
    var clock: u64
    /** How far handle_msg has come. */
    var job: Job
    const tubular: TubularList

    function State(): System
      reads this, tubular
    {
      System(socks, hashed, conf, slots, queue, job, tubular.fds, tubular.groups, flows, clock)
    }

    /** The maps are in a state that satisfies the invariant of the step machine. */
    ghost predicate Valid()
      reads this, tubular
    {
      Inv(State())
    }

    /** ... and step `e` can happen in it. */
    ghost predicate Ready(e: Step)
      reads this, tubular
    {
      Inv(State()) && Enabled(State(), e)
    }

    constructor ()
      ensures State() == Boot && Valid() && fresh(tubular)
    {
      InvBoot();
      socks, hashed, conf, slots, queue, flows, clock, job := map[], {}, map[], map[], [], map[], 0, Idle;
      tubular := new TubularList();
    }

    // ---- bind ----

    method BpfBind(c: Cookie, key: Key, netns: nat)
      modifies this
      ensures State() == Bind(old(State()), c, key, netns)
      ensures old(Ready(DoBind(c, key, netns))) ==> Valid()
    {
      hide Inv, Enabled, Formed;
      StepKeeps(State(), DoBind(c, key, netns));
      var changes := if c in socks then Later(socks[c].changes) else 0;
      if c !in socks {
        socks := socks[c := Sock(key, netns, 0, 0, 0, 0, true)];
      }
      socks := socks[c := socks[c].(gen := UNSET)];
      socks := socks[c := socks[c].(idx := UNSET)];
      socks := socks[c := socks[c].(changes := changes)];
    }

    // ---- setsockopt ----

    /** What every call does first. */
    method EnterCall(c: Cookie, rid: Option<u32>) returns (entered: bool, created: bool)
      requires Formed(State())
      modifies `conf, `slots
      ensures entered <==> Enter(old(State()), c, rid).Entered?
      ensures if entered then State() == Enter(old(State()), c, rid).s && created == Enter(old(State()), c, rid).created
              else State() == old(State())
    {
      hide Formed;
      created := false;
      if c !in socks {
        return false, false;
      }
      var k := socks[c].key;
      if k !in conf {
        if rid.None? {
          return false, false;
        }
        conf, slots := conf[k := NewConf(0, 0)], slots[k := EmptySlots()];
        created := true;
        conf := conf[k := conf[k].(randomId := rid.value)];
        conf := conf[k := conf[k].(netns := socks[c].netns)];
      }
      entered := conf[k].netns == socks[c].netns;
    }

    method SetsockoptWorkingGen(c: Cookie, gen: u32, rid: Option<u32>, full: bool) returns (err: Errno)
      requires Formed(State())
      modifies `conf, `slots, `queue
      ensures Reply(State(), err) == SetWorkingGen(old(State()), c, gen, rid, full)
      ensures old(Ready(DoSetWorkingGen(c, gen, rid, full))) ==> Valid()
    {
      hide QueueFormed, TablesFormed, SocksFormed, Shaped, Enter, Inv, Enabled;
      StepKeeps(State(), DoSetWorkingGen(c, gen, rid, full));
      var entered, _ := EnterCall(c, rid);
      if !entered {
        return EBADF;
      }
      var k, app := socks[c].key, socks[c].app % MAX_APPS;
      if full {
        return EAGAIN;
      }
      conf := conf[k := conf[k].(workingGen := conf[k].workingGen[app := gen])];
      queue := queue + [WorkingMsg(k, app, gen)];
      return OK;
    }

    method SetsockoptSocketGen(c: Cookie, gen: u32, rid: Option<u32>, full: bool) returns (err: Errno)
      requires Formed(State())
      modifies `conf, `slots, `queue, `socks
      ensures Reply(State(), err) == SetSocketGen(old(State()), c, gen, rid, full)
      ensures old(Ready(DoSetSocketGen(c, gen, rid, full))) ==> Valid()
    {
      hide QueueFormed, TablesFormed, SocksFormed, Shaped, Enter, Inv, Enabled;
      SocketGenKeeps(State(), c, gen, rid, full);
      var entered, _ := EnterCall(c, rid);
      if !entered {
        return EBADF;
      }
      if socks[c].gen != gen || socks[c].idx == UNSET {
        if full {
          return EAGAIN;
        }
        socks := socks[c := socks[c].(gen := gen, changes := socks[c].changes + 1)];
        queue := queue + [RegisterMsg(socks[c].key, c, gen, socks[c].app)];
      }
      return OK;
    }

    method SetsockoptDissector(c: Cookie, d: Dissector, rid: Option<u32>, full: bool) returns (err: Errno)
      requires Formed(State())
      modifies `conf, `slots, `queue
      ensures Reply(State(), err) == SetDissector(old(State()), c, d, rid, full)
      ensures old(Ready(DoSetDissector(c, d, rid, full))) ==> Valid()
    {
      hide QueueFormed, TablesFormed, SocksFormed, Shaped, Enter, SameDissector, Accepts, Kind, Verbose, Inv, Enabled;
      DissectorKeeps(State(), c, d, rid, full);
      var entered, created := EnterCall(c, rid);
      if !entered {
        return EBADF;
      }
      var k := socks[c].key;
      if !created {
        if !SameDissector(conf[k].dis, d) {
          return EPERM;
        }
        conf := conf[k := conf[k].(verbose := Verbose(d.typ))];
        return OK;
      }
      if !Accepts(d) {
        CreatedIsNew(old(State()), c, rid);
        conf, slots := conf - {k}, slots - {k};
        return EPERM;
      }
      if full {
        return EAGAIN;
      }
      WriteDissector(k, d);
      queue := queue + [DissectorMsg(k)];
      return OK;
    }

    method WriteDissector(k: Key, d: Dissector)
      requires k in conf
      modifies `conf
      ensures conf == old(conf)[k := old(conf)[k].(dis := d.(typ := Kind(d.typ)), verbose := Verbose(d.typ))]
    {
      hide Kind, Verbose;
      conf := conf[k := conf[k].(dis := d)];
      conf := conf[k := conf[k].(verbose := Verbose(d.typ))];
      conf := conf[k := conf[k].(dis := conf[k].dis.(typ := Kind(d.typ)))];
    }

    method SetsockoptSocketApp(c: Cookie, app: u32, rid: Option<u32>) returns (err: Errno)
      requires Formed(State())
      modifies `conf, `slots, `socks
      ensures Reply(State(), err) == SetSocketApp(old(State()), c, app, rid)
      ensures old(Ready(DoSetSocketApp(c, app, rid))) ==> Valid()
    {
      hide QueueFormed, TablesFormed, SocksFormed, Shaped, Enter, Inv, Enabled;
      StepKeeps(State(), DoSetSocketApp(c, app, rid));
      var entered, _ := EnterCall(c, rid);
      if !entered {
        return EBADF;
      }
      if socks[c].app != app {
        if socks[c].gen != UNSET || socks[c].idx != UNSET {
          return EEXIST;
        }
        if app >= conf[socks[c].key].dis.maxApps {
          return EOVERFLOW;
        }
        socks := socks[c := socks[c].(app := app)];
      }
      return OK;
    }

    // ---- getsockopt ----

    /** UDP_GRM_SOCKET_GEN: generation, index, and the udpgrm cookie that leads back to the socket. */
    method GetsockoptSocketGen(c: Cookie) returns (r: Option<(u32, u32, u16)>)
      requires Formed(State())
      ensures r.Some? <==> c in socks
      ensures r.Some? ==> r.value.0 == socks[c].gen && r.value.1 == socks[c].idx
      ensures r.Some? && socks[c].key in conf ==> r.value.2 == ReportedCookie(State(), c)
      ensures r.Some? && socks[c].key !in conf ==>
        r.value.2 == Pack(ToWrkGen(0, socks[c].app, socks[c].gen), socks[c].idx)
    {
      hide QueueFormed, SocksFormed, Shaped, JobFormed, TablesFormed, ToWrkGen, Pack;
      if c !in socks {
        return None;
      }
      var s := socks[c];
      var maxApps := if s.key in conf then conf[s.key].dis.maxApps else 0;
      var v := new u8[4](_ => 0);
      PackBytes(ToWrkGen(maxApps, s.app, s.gen), s.idx, v);
      var lo: nat, hi: nat := v[0], v[1];
      return Some((s.gen, s.idx, lo + 256 * hi));
    }

    // ---- flows ----

    /** METRIC_INC of a tx counter; `s` is the state but for the group's counters, which are at `t`. */
    method MetricTx(k: Key, m: TxMetric, ghost s: System, ghost t: Tx)
      requires k in s.conf && State() == WithTx(s, k, t)
      modifies `conf
      ensures State() == WithTx(s, k, IncTx(t, m))
    {
      conf := conf[k := conf[k].(tx := IncTx(conf[k].tx, m))];
    }

    /** flow_assure. */
    method AssureFlow(k: Key, c: Cookie, h: u32, now: u64, later: u64, insertFails: bool) returns (assured: bool)
      requires Formed(State()) && k in conf
      modifies `conf, `flows, `clock
      ensures State() == FlowAssure(old(State()), k, c, h, now, later, insertFails)
      ensures var o := TxOutcomeOf(old(flows), TimeoutNs(old(conf)[k].dis), c, h, now, insertFails);
        assured <==> !o.CreateError? && !o.UpdateConflict?
    {
      hide Formed, TimeoutNs, WithTx, IncTx, CountTx, Age, FlowAssure;
      ghost var s, t := State().(clock := later), conf[k].tx;
      var timeout := TimeoutNs(conf[k].dis);
      clock := later;
      WithSame(s, k);
      AssureByParts(old(State()), k, c, h, now, later, insertFails);
      MetricTx(k, TxTotal, s, t);
      t := IncTx(t, TxTotal);
      FlowsOfWithTx(s, k, t);
      if h !in flows {
        if insertFails {
          MetricTx(k, TxCreateError, s, t);
          return false;
        }
        flows := flows[h := Flow(now, c)];
        MoveFlows(s, k, t, flows);
        MetricTx(k, TxCreateOk, s.(flows := flows), t);
      } else if Age(now, flows[h].lastTx) <= timeout {
        if flows[h].cookie != c {
          MetricTx(k, TxUpdateConflict, s, t);
          return false;
        }
        MetricTx(k, TxUpdateOk, s, t);
        t := IncTx(t, TxUpdateOk);
        FlowsOfWithTx(s, k, t);
        flows := flows[h := flows[h].(lastTx := now)];
        assert flows == old(flows)[h := Flow(now, c)];
        MoveFlows(s, k, t, flows);
      } else {
        MetricTx(k, TxCreateOk, s, t);
        MetricTx(k, TxCreateFromExpired, s, IncTx(t, TxCreateOk));
        t := IncTx(IncTx(t, TxCreateOk), TxCreateFromExpired);
        FlowsOfWithTx(s, k, t);
        flows := flows[h := flows[h].(lastTx := later)];
        flows := flows[h := flows[h].(cookie := c)];
        assert flows == old(flows)[h := Flow(later, c)];
        MoveFlows(s, k, t, flows);
      }
      return true;
    }

    method SetsockoptFlowAssure(c: Cookie, h: Option<u32>, rid: Option<u32>, now: u64, later: u64, insertFails: bool)
      returns (err: Errno)
      requires Formed(State())
      modifies `conf, `slots, `flows, `clock
      ensures Reply(State(), err) == AssureCall(old(State()), c, h, rid, now, later, insertFails)
      ensures old(Ready(DoAssure(c, h, rid, now, later, insertFails))) ==> Valid()
    {
      hide Formed, Enter, Kind, FlowAssure, TxOutcomeOf, Inv, Enabled;
      StepKeeps(State(), DoAssure(c, h, rid, now, later, insertFails));
      var entered, _ := EnterCall(c, rid);
      if !entered {
        return EBADF;
      }
      var k := socks[c].key;
      if Kind(conf[k].dis.typ) != DISSECTOR_FLOW || h.None? {
        return EPERM;
      }
      var assured := AssureFlow(k, c, h.value, now, later, insertFails);
      return if assured then OK else EEXIST;
    }

    method UdpSendmsg(c: Cookie, h: u32, now: u64, later: u64, insertFails: bool)
      requires Formed(State())
      modifies `conf, `flows, `clock
      ensures State() == SendMsg(old(State()), c, h, now, later, insertFails)
      ensures old(Ready(DoSend(c, h, now, later, insertFails))) ==> Valid()
    {
      hide Formed, Kind, FlowAssure, Inv, Enabled;
      StepKeeps(State(), DoSend(c, h, now, later, insertFails));
      if c in socks && socks[c].key in conf && Kind(conf[socks[c].key].dis.typ) == DISSECTOR_FLOW {
        var _ := AssureFlow(socks[c].key, c, h, now, later, insertFails);
      }
    }

    // ---- the packet program ----

    /** METRIC_INC of an rx counter; `s` is the state but for the group's counters, which are at `r`. */
    method MetricRx(k: Key, m: RxMetric, ghost s: System, ghost r: Rx)
      requires k in s.conf && State() == WithRx(s, k, r)
      modifies `conf
      ensures State() == WithRx(s, k, IncRx(r, m))
    {
      conf := conf[k := conf[k].(rx := IncRx(conf[k].rx, m))];
    }

    /** The second stage with a flow hash. */
    method SecondStageByHash(k: Key, h: u32, now: u64, ghost s: System, ghost rx: Rx) returns (second: Second)
      requires Formed(s) && k in s.conf && State() == WithRx(s, k, rx)
      modifies `conf
      ensures second == SecondByHash(s, k, h, now)
      ensures State() == WithRx(s, k, CountSecond(rx, second))
    {
      hide Formed, LiveSet, TimeoutNs, SelectSocket, WithRx, IncRx;
      RxIsApart(s, k, rx);
      var entry, timeout := if h in flows then Some(flows[h]) else None, TimeoutNs(conf[k].dis);
      MetricRx(k, RxDissectedOk, s, rx);
      ghost var r := IncRx(rx, RxDissectedOk);
      RxIsApart(s, k, r);
      if entry.Some? && Age(now, entry.value.lastTx) <= timeout {
        var chosen := SkSelectReuseport(k, entry.value.cookie, s);
        match chosen {
          case Chosen =>
            MetricRx(k, RxFlowOk, s, r);
            second := FlowOk(entry.value.cookie);
          case OtherGroup =>
            MetricRx(k, RxRgConflict, s, r);
            second := RgConflict;
          case Missing =>
            MetricRx(k, RxOtherError, s, r);
            second := OtherError;
        }
      } else {
        MetricRx(k, RxNewUnseen, s, r);
        if entry.Some? {
          MetricRx(k, RxHadExpired, s, IncRx(r, RxNewUnseen));
        }
        second := Unseen(entry.Some?, false);
      }
    }

    /** The second stage with a socket cookie. */
    method SecondStageByCookie(k: Key, c: Cookie, ghost s: System, ghost rx: Rx) returns (second: Second)
      requires k in s.conf && State() == WithRx(s, k, rx)
      modifies `conf
      ensures second == SecondByCookie(s, k, c)
      ensures State() == WithRx(s, k, CountSecond(rx, second))
    {
      hide LiveSet, SelectSocket, WithRx, IncRx;
      MetricRx(k, RxDissectedOk, s, rx);
      ghost var r := IncRx(rx, RxDissectedOk);
      RxIsApart(s, k, r);
      var chosen := SkSelectReuseport(k, c, s);
      if chosen.Chosen? {
        MetricRx(k, RxFlowOk, s, r);
        second := FlowOk(c);
      } else if chosen.OtherGroup? {
        MetricRx(k, RxRgConflict, s, r);
        second := RgConflict;
      } else if c == NO_COOKIE || c == 0 || c == BAD_CHECKSUM {
        MetricRx(k, RxNewUnseen, s, r);
        if c == BAD_CHECKSUM {
          MetricRx(k, RxBadCookie, s, IncRx(r, RxNewUnseen));
        }
        second := Unseen(false, c == BAD_CHECKSUM);
      } else {
        MetricRx(k, RxOtherError, s, r);
        second := OtherError;
      }
    }

    /** The third stage. */
    method ThirdStage(k: Key, app: u32, mdHash: u32, ghost s: System, ghost rx: Rx) returns (third: Third)
      requires Formed(s) && k in s.conf && State() == WithRx(s, k, rx)
      modifies `conf
      ensures third == ThirdOf(s, k, app, mdHash)
      ensures State() == WithRx(s, k, CountThird(rx, third))
    {
      hide Formed, LiveSet, SelectSocket, BpfMod, ToWrkGen, WithRx, IncRx, NewFlowTarget;
      RxIsApart(s, k, rx);
      SizesOf(s, k);
      var g := conf[k];
      var row := ToWrkGen(g.dis.maxApps, app, g.workingGen[app % MAX_APPS]) % MAX_GENS;
      var maxIdx := slots[k].maxIdx[row];
      var c := slots[k].cookies[row][BpfMod(mdHash, maxIdx) % MAX_SOCKETS_IN_GEN];
      TargetIs(s, k, app, mdHash);
      MetricRx(k, RxNewFlow, s, rx);
      ghost var r := IncRx(rx, RxNewFlow);
      RxIsApart(s, k, r);
      var chosen := SkSelectReuseport(k, c, s);
      if chosen.Chosen? {
        MetricRx(k, RxDispatchOk, s, r);
        third := DispatchOk(c);
      } else {
        MetricRx(k, RxDispatchError, s, r);
        third := DispatchError;
      }
    }

    /** bpf_sk_select_reuseport. */
    method SkSelectReuseport(k: Key, c: Cookie, ghost s: System) returns (r: Select)
      requires s.socks == socks && s.hashed == hashed && s.fds == tubular.fds
      ensures r == SelectSocket(s, k, c)
    {
      SameLive(s, State());
      return SelectSocket(State(), k, c);
    }

    /** The first two stages; `stop` when the packet goes no further. */
    method FirstStages(k: Key, p: Packet, now: u64, ghost s: System, ghost rx: Rx)
      returns (stop: bool, second: Second, app: u32)
      requires Formed(s) && k in s.conf && State() == WithRx(s, k, IncRx(rx, RxProcessed))
      modifies `conf
      ensures var path := PathOf(s, k, p, now);
        if stop then ChosenBy(path) == None && State() == WithRx(s, k, CountRx(rx, path))
        else
          && path == Join(s, k, second, app, p.mdHash) && (second.Unseen? ==> !(second.expired && second.badCookie))
          && State() == WithRx(s, k, CountSecond(IncRx(rx, RxProcessed), second))
    {
      hide Formed, Kind, SecondByHash, SecondByCookie, ThirdOf, DissectCbpf, CookieSought, CountRx, CountSecond, IncRx,
        WithRx;
      ghost var r := IncRx(rx, RxProcessed);
      RxIsApart(s, k, r);
      ErrorsCount(rx);
      OneReasonOnly(s, k, now);
      SizesOf(s, k);
      var dis := conf[k].dis;
      var kind := Kind(dis.typ);
      stop, second, app := false, Unseen(false, false), 0;
      if kind == DISSECTOR_FLOW {
        if p.flow.None? {
          MetricRx(k, RxTooShort, s, r);
          stop := true;
        } else {
          second := SecondStageByHash(k, p.flow.value, now, s, r);
        }
      } else if kind == DISSECTOR_CBPF || kind == DISSECTOR_BESPOKE {
        var d := DissectCbpf(dis.maxApps, p.ran);
        if d.DissectError? {
          MetricRx(k, if d.code == IERR_LOAD then RxTooShort else RxCbpfProgError, s, r);
          stop := true;
        } else {
          var c := SoughtIn(k, d, s);
          second := SecondStageByCookie(k, c, s, r);
          app := if d.NewFlow? then d.app else 0;
        }
      } else if kind == DISSECTOR_NOOP {
        MetricRx(k, RxDissectedOk, s, r);
        MetricRx(k, RxNewUnseen, s, IncRx(r, RxDissectedOk));
        NoopCounts(r);
      } else {
        MetricRx(k, RxInternalStateError, s, r);
        stop := true;
      }
    }

    /** udpgrm_reuseport_prog: the socket that the packet is given to, None to leave the choice to the kernel. */
    method ReuseportProg(k: Key, p: Packet, now: u64) returns (chosen: Option<Cookie>)
      requires Formed(State())
      modifies `conf, `clock
      ensures State() == Receive(old(State()), k, p, now)
      ensures k in old(conf) ==> chosen == ChosenBy(PathOf(old(State()), k, p, now))
      ensures old(Ready(DoReceive(k, p, now))) ==> Valid()
    {
      hide Inv, Enabled, Receive, Formed, PathOf, ThirdOf, CountRx, CountSecond, CountThird, IncRx, WithRx;
      StepKeeps(State(), DoReceive(k, p, now));
      NoGroupNoChange(State(), k, p, now);
      if k !in conf {
        return None;
      }
      ghost var s, rx := State().(clock := now), conf[k].rx;
      ClockDoesNotSteer(State(), k, p, now);
      clock := now;
      WithSame(s, k);
      MetricRx(k, RxProcessed, s, rx);
      var stop, second, app := FirstStages(k, p, now, s, rx);
      if stop {
        return None;
      }
      StagesCount(rx, second, app, ThirdOf(s, k, app, p.mdHash));
      if second.FlowOk? {
        return Some(second.c);
      }
      var third := ThirdStage(k, app, p.mdHash, s, CountSecond(IncRx(rx, RxProcessed), second));
      return if third.DispatchOk? then Some(third.c) else None;
    }

    /** The socket cookie that the program's result leads to. */
    method SoughtIn(k: Key, d: Dissected, ghost s: System) returns (c: Cookie)
      requires Formed(s) && k in s.conf && k in slots && slots == s.slots && !d.DissectError?
      ensures c == CookieSought(s, k, d)
    {
      hide QueueFormed, SocksFormed, Shaped, ConfsFormed, JobFormed, Unpack;
      match d
      case NewFlow(_) =>
        return NO_COOKIE;
      case HasCookie(grm) =>
        var unpacked := Unpack(grm);
        if unpacked.None? {
          return BAD_CHECKSUM;
        }
        return slots[k].cookies[unpacked.value.0 % MAX_GENS][unpacked.value.1 % MAX_SOCKETS_IN_GEN];
    }

    // ---- the daemon ----

    /** udpgrm_cb_update_map with a cookie message: first the cookie, then the announced length. */
    method CbUpdateMap()
      requires Formed(State()) && job.Job? && job.at == Preserved
      modifies `slots, `job
      ensures State() == WriteLength(WriteCookie(old(State())))
      ensures old(Valid()) ==> Valid()
    {
      hide Inv, QueueFormed, SocksFormed, Shaped, ConfsFormed;
      UpdateKeeps(State());
      var k := job.key;
      FormedWriteCookie(State());
      slots, job := slots[k := SetSlot(slots[k], job.row, job.free, job.cookie)], job.(at := CookieSet);
      slots, job := slots[k := SetLength(slots[k], job.row, job.len)], job.(at := MaxSet);
    }

    /** The socket goes into the sockhash, unless there is no room. */
    method InsertSockhash()
      requires Formed(State()) && job.Job? && job.at == Found
      modifies `hashed, `job
      ensures State() == InsertHash(old(State()))
      ensures old(Valid()) ==> Valid()
    {
      hide Inv, Formed;
      InsertKeeps(State());
      if job.free < 0 {
        job := job.(at := IndexSet);
      } else {
        hashed, job := hashed + {job.cookie}, job.(at := Hashed);
      }
    }

    method PreserveFd(now: u64)
      requires Inv(State()) && job.Job? && job.at == Hashed
      modifies this, tubular
      ensures State() == KeepFd(old(State()), now) && Valid()
    {
      hide Core, Kept, Formed, Preserve, Replaced, Labelled, Conserved;
      ghost var s := State();
      FormedOf(s);
      InvKeep(s, now);
      KeepClosesNothing(s, now);
      ReadyToKeep(s);
      var g := conf[job.key];
      var closeFd := tubular.MaybePreserveFd(Labelled(g.dis), g.randomId, job.row, job.len, job.free, job.fd, now);
      assert s.job.row % MAX_GENS == s.job.row;
      if !closeFd {
        clock := now;
      }
      job := job.(kept := job.kept || !closeFd, at := Preserved);
    }

    method WriteSocketIndex()
      requires Formed(State()) && job.Job? && job.at == MaxSet
      modifies `socks, `job
      ensures State() == WriteIndex(old(State()))
      ensures old(Valid()) ==> Valid()
    {
      hide Inv, Shaped, QueueFormed, ConfsFormed, TablesFormed;
      IndexKeeps(State());
      socks, job := socks[job.cookie := socks[job.cookie].(idx := job.free)], job.(at := IndexSet);
    }

    method EndRegistration()
      requires Inv(State()) && job.Job? && job.at == IndexSet
      modifies this, tubular
      ensures State() == Finish(old(State())) && Valid()
    {
      hide Kept, Formed, Named, Covering, SlotOwned;
      ghost var s := State();
      FormedOf(s);
      InvFinish(s);
      assert s.fds - {} == s.fds;
      if !job.kept {
        tubular.Close(job.fd);
      }
      job := Idle;
    }

    /** The head of the queue is taken. For a registration, `fd` is the descriptor that was obtained. */
    method TakeNext(fd: Option<int>)
      requires Inv(State()) && Enabled(State(), DoTakeMessage(fd))
      modifies this, tubular
      ensures State() == TakeMessage(old(State()), fd) && Valid()
    {
      hide Core, Kept, Shaped, QueueFormed, SocksFormed, ConfsFormed, TablesFormed, LiveSet, FreePos, GenLen, Register,
        Registered, ToWrkGen, Conserved;
      ghost var s := State();
      InvTake(s, fd);
      HeadFormed(s);
      InvPop(s);
      var m := queue[0];
      queue := queue[1..];
      ghost var s1 := State();
      assert s1 == PopMessage(s);
      FormedOf(s1);
      if m.RegisterMsg? {
        if fd.None? {
          return;
        }
        StartLive(s1, m, fd.value);
        SizesOf(s1, m.key);
        tubular.fds := tubular.fds[fd.value := m.cookie];
        SameLive(StartRegistration(s1, m, fd.value), State());
        var row := ToWrkGen(conf[m.key].dis.maxApps, m.app, m.gen) % MAX_GENS;
        var _, free, len := CookiesFindEmpty(slots[m.key].cookies, row, LiveSet(State()), m.cookie);
        assert row % MAX_GENS == row;
        job := Job(m.key, m.cookie, m.gen, m.app, fd.value, row, free, len, false, Found);
      } else if m.WorkingMsg? && Labelled(conf[m.key].dis) {
        IdleConserved(s1);
        tubular.MaybeRegister(conf[m.key].randomId, m.gen % MAX_GENS, tubular.fds.Keys);
      }
    }

    /** From the sockhash to the index. */
    method PutIntoTable(now: u64)
      requires Inv(State()) && job.Job? && job.at == Hashed
      modifies this, tubular
      ensures Valid() && job.Job? && job.at == IndexSet && RunJob(State(), now) == RunJob(old(State()), now)
    {
      hide Core, Kept, Formed, InsertHash, KeepFd, WriteCookie, WriteLength, WriteIndex, Finish, RunJob;
      FormedOf(State());
      AtNext(State(), now);
      RunOn(State(), now);
      PreserveFd(now);
      AtNext(State(), now);
      RunOn(State(), now);
      ghost var written := WriteCookie(State());
      AtNext(written, now);
      RunOn(written, now);
      CbUpdateMap();
      AtNext(State(), now);
      RunOn(State(), now);
      WriteSocketIndex();
    }

    /** handle_msg, when nothing else runs meanwhile. */
    method HandleMsg(fd: Option<int>, now: u64)
      requires Inv(State()) && Enabled(State(), DoTakeMessage(fd))
      modifies this, tubular
      ensures Inv(TakeMessage(old(State()), fd)) && State() == RunJob(TakeMessage(old(State()), fd), now) && Valid()
    {
      hide Core, Kept, Formed, Enabled, TakeMessage, InsertHash, KeepFd, WriteCookie, WriteLength, WriteIndex, Finish,
        RunJob;
      InvTake(State(), fd);
      TakenIsFound(State(), fd);
      TakeNext(fd);
      if job.Job? {
        AtNext(State(), now);
        RunOn(State(), now);
        InsertSockhash();
        if job.at == Hashed {
          PutIntoTable(now);
        }
        FormedOf(State());
        RunOn(State(), now);
        EndRegistration();
      }
      RunIdle(State(), now);
    }
  }

  /** What the step machine keeps, the hooks keep. */
  lemma StepKeeps(s: System, e: Step)
    ensures Inv(s) ==> Formed(s)
    ensures Inv(s) && Enabled(s, e) ==> Inv(Next(s, e))
  {
    if Inv(s) && Enabled(s, e) {
      InvStep(s, e);
    }
  }

  lemma DissectorKeeps(s: System, c: Cookie, d: Dissector, rid: Option<u32>, full: bool)
    requires Formed(s)
    ensures Inv(s) && Enabled(s, DoSetDissector(c, d, rid, full)) ==> Inv(SetDissector(s, c, d, rid, full).s)
  {
    hide Inv, Formed, Enabled, SetDissector;
    StepKeeps(s, DoSetDissector(c, d, rid, full));
  }

  lemma SocketGenKeeps(s: System, c: Cookie, gen: u32, rid: Option<u32>, full: bool)
    requires Formed(s)
    ensures Inv(s) && Enabled(s, DoSetSocketGen(c, gen, rid, full)) ==> Inv(SetSocketGen(s, c, gen, rid, full).s)
  {
    hide Inv, Formed, Enabled, SetSocketGen;
    StepKeeps(s, DoSetSocketGen(c, gen, rid, full));
  }

  lemma InsertKeeps(s: System)
    requires Formed(s) && s.job.Job? && s.job.at == Found
    ensures Inv(s) ==> Inv(InsertHash(s))
  {
    hide Formed, Core, Kept, InsertHash;
    if Inv(s) {
      InvInsert(s);
    }
  }

  lemma UpdateKeeps(s: System)
    requires Formed(s) && s.job.Job? && s.job.at == Preserved
    ensures Formed(WriteCookie(s)) && WriteCookie(s).job.Job? && WriteCookie(s).job.at == CookieSet
    ensures Inv(s) ==> Inv(WriteLength(WriteCookie(s)))
  {
    hide QueueFormed, SocksFormed, Shaped, ConfsFormed, Core, Kept, WriteLength;
    FormedWriteCookie(s);
    if Inv(s) {
      InvWriteCookie(s);
      InvWriteLength(WriteCookie(s));
    }
  }

  lemma IndexKeeps(s: System)
    requires Formed(s) && s.job.Job? && s.job.at == MaxSet
    ensures Inv(s) ==> Inv(WriteIndex(s))
  {
    hide Formed, Core, Kept, WriteIndex;
    if Inv(s) {
      InvWriteIndex(s);
    }
  }

  lemma NoGroupNoChange(s: System, k: Key, p: Packet, now: u64)
    requires Formed(s)
    ensures k !in s.conf ==> Receive(s, k, p, now) == s
  {
  }

  /** The registration in progress carried through to its end. */
  ghost function RunJob(s: System, now: u64): (r: System)
    requires Inv(s)
    ensures Inv(r) && r.job == Idle
    decreases Rank(s.job)
  {
    hide Core, Kept, Formed, Advance;
    FormedOf(s);
    if s.job == Idle then s else
    InvAdvance(s, now);
    RankFalls(s, now);
    RunJob(Advance(s, now), now)
  }

  function Rank(j: Job): nat {
    if j == Idle then 0 else
    match j.at
    case IndexSet => 1
    case MaxSet => 2
    case CookieSet => 3
    case Preserved => 4
    case Hashed => 5
    case Found => 6
  }

  lemma RankFalls(s: System, now: u64)
    requires Inv(s) && s.job.Job?
    ensures Formed(s) && Rank(Advance(s, now).job) < Rank(s.job)
  {
    hide Core, Kept, Formed, InsertHash, KeepFd, WriteCookie, WriteLength, WriteIndex;
    FormedOf(s);
    if s.job.at != IndexSet {
      AtNext(s, now);
    }
  }

  lemma RunIdle(s: System, now: u64)
    requires Inv(s) && s.job == Idle
    ensures RunJob(s, now) == s
  {
    hide Core, Kept;
  }

  lemma RunOn(s: System, now: u64)
    requires Inv(s) && s.job.Job?
    ensures Inv(Advance(s, now)) && RunJob(s, now) == RunJob(Advance(s, now), now)
    ensures Rank(Advance(s, now).job) < Rank(s.job)
  {
    hide Core, Kept, Formed, Advance;
    FormedOf(s);
    InvAdvance(s, now);
    RankFalls(s, now);
  }

  lemma AtNext(s: System, now: u64)
    requires Inv(s) && s.job.Job? && s.job.at != IndexSet
    ensures Formed(s)
    ensures var j := Advance(s, now).job;
      && j.Job?
      && j.at == After(s.job)
  {
    hide Kept, Named, Covering, SlotOwned, Shaped, QueueFormed, SocksFormed, ConfsFormed, TablesFormed, Preserve,
      Replaced, SetSlot, SetLength;
  }

  lemma ReadyToKeep(s: System)
    requires Inv(s) && s.job.Job? && s.job.at == Hashed
    ensures Shaped(s.tub) && s.job.key in s.conf && s.job.row < MAX_GENS && 0 <= s.job.free < MAX_SOCKETS_IN_GEN
    ensures !s.job.kept
  {
    hide Named, Covering, SlotOwned, QueueFormed, SocksFormed, ConfsFormed, TablesFormed, Shaped, Conserved, Holds;
  }

  lemma HeadFormed(s: System)
    requires Inv(s) && s.queue != []
    ensures Formed(s) && s.queue[0].key in s.conf && (s.queue[0].RegisterMsg? ==> s.queue[0].cookie in s.socks)
    ensures MsgFormed(s.queue[0], s.conf.Keys, s.socks)
  {
    hide Kept, Named, Covering, SlotOwned, Shaped, SocksFormed, ConfsFormed, TablesFormed;
  }

  lemma StartLive(s: System, m: Msg, fd: int)
    requires Inv(s) && s.job == Idle && m.RegisterMsg? && MsgFormed(m, s.conf.Keys, s.socks)
    requires fd > 0 && fd !in s.fds && s.socks[m.cookie].appOpen
    ensures LiveSet(StartRegistration(s, m, fd)) == LiveSet(s)
  {
    hide Core, Kept, Formed, LiveSet;
    FormedOf(s);
    CoreStart(s, m, fd);
  }

  lemma IdleConserved(s: System)
    requires Inv(s) && s.job == Idle
    ensures Conserved(s.tub, s.fds.Keys)
  {
    hide Core, Conserved, Holds;
    assert s.fds.Keys - {} == s.fds.Keys;
  }

  lemma TakenIsFound(s: System, fd: Option<int>)
    requires Inv(s) && Enabled(s, DoTakeMessage(fd))
    ensures TakeMessage(s, fd).job == Idle || (TakeMessage(s, fd).job.Job? && TakeMessage(s, fd).job.at == Found)
  {
    hide Kept, Named, Covering, SlotOwned, Shaped, SocksFormed, ConfsFormed, TablesFormed, LiveSet, Register,
      Registered;
    HeadFormed(s);
  }

  /** The socket that a packet ends up with. */
  function ChosenBy(path: Path): Option<Cookie> {
    if path.Existing? then Some(path.c)
    else if path.Fresh? && path.third.DispatchOk? then Some(path.third.c) else None
  }

  /** Counters are apart from everything else. */
  lemma RxIsApart(s: System, k: Key, r: Rx)
    requires k in s.conf
    ensures var s' := WithRx(s, k, r);
      && k in s'.conf && s'.conf[k] == s.conf[k].(rx := r) && s'.socks == s.socks && s'.hashed == s.hashed &&
        s'.fds == s.fds
      && s'.slots == s.slots && s'.flows == s.flows
  {
  }

  lemma FlowsOfWithTx(s: System, k: Key, t: Tx)
    requires k in s.conf
    ensures WithTx(s, k, t).flows == s.flows
  {
  }

  lemma MoveFlows(s: System, k: Key, t: Tx, flows: map<u32, Flow>)
    requires k in s.conf
    ensures WithTx(s, k, t).(flows := flows) == WithTx(s.(flows := flows), k, t)
  {
  }

  /** flow_assure in terms of its metrics. */
  lemma AssureByParts(s: System, k: Key, c: Cookie, h: u32, now: u64, later: u64, insertFails: bool)
    requires Formed(s) && k in s.conf
    ensures var o := TxOutcomeOf(s.flows, TimeoutNs(s.conf[k].dis), c, h, now, insertFails);
      && FlowAssure(s, k, c, h, now, later, insertFails) ==
           WithTx(s.(clock := later, flows := FlowsAfter(s.flows, o, c, h, now, later)), k, CountTx(s.conf[k].tx, o))
      && CountTx(s.conf[k].tx, o) ==
           var t := IncTx(s.conf[k].tx, TxTotal);
           match o
           case CreateOk => IncTx(t, TxCreateOk)
           case CreateFromExpired => IncTx(IncTx(t, TxCreateOk), TxCreateFromExpired)
           case CreateError => IncTx(t, TxCreateError)
           case UpdateOk => IncTx(t, TxUpdateOk)
           case UpdateConflict => IncTx(t, TxUpdateConflict)
  {
    hide Formed, TxOutcomeOf, FlowsAfter, TimeoutNs;
  }

  lemma SizesOf(s: System, k: Key)
    requires Formed(s) && k in s.conf
    ensures k in s.slots && |s.slots[k].maxIdx| == MAX_GENS && |s.slots[k].cookies| == MAX_GENS
    ensures forall g :: 0 <= g < MAX_GENS ==> |s.slots[k].cookies[g]| == MAX_SOCKETS_IN_GEN
    ensures |s.conf[k].workingGen| == MAX_APPS && s.conf[k].dis.maxApps <= MAX_APPS
  {
    hide QueueFormed, SocksFormed, Shaped, JobFormed;
  }

  lemma TargetIs(s: System, k: Key, app: u32, mdHash: u32)
    requires Formed(s) && k in s.conf
    ensures var g := s.conf[k];
      && |g.workingGen| == MAX_APPS && g.dis.maxApps <= MAX_APPS && k in s.slots && |s.slots[k].maxIdx| == MAX_GENS
      && var row := ToWrkGen(g.dis.maxApps, app, g.workingGen[app % MAX_APPS]) % MAX_GENS;
         && |s.slots[k].cookies| == MAX_GENS && |s.slots[k].cookies[row]| == MAX_SOCKETS_IN_GEN
         && NewFlowTarget(s, k, app, mdHash) ==
           s.slots[k].cookies[row][BpfMod(mdHash, s.slots[k].maxIdx[row]) % MAX_SOCKETS_IN_GEN]
  {
    hide QueueFormed, SocksFormed, Shaped, JobFormed, ToWrkGen, BpfMod;
  }

  lemma CreatedIsNew(s: System, c: Cookie, rid: Option<u32>)
    requires Formed(s) && Enter(s, c, rid).Entered? && Enter(s, c, rid).created
    ensures var k, s1 := s.socks[c].key, Enter(s, c, rid).s;
      s1.conf - {k} == s.conf && s1.slots - {k} == s.slots && s1 == s.(conf := s1.conf, slots := s1.slots)
  {
    hide QueueFormed, TablesFormed, SocksFormed, Shaped, ConfsFormed, JobFormed;
  }

  lemma FormedClock(s: System, now: u64)
    requires Formed(s)
    ensures Formed(s.(clock := now))
  {
    hide QueueFormed, TablesFormed, SocksFormed, Shaped, ConfsFormed, JobFormed;
  }

  lemma ErrorsCount(r: Rx)
    ensures IncRx(IncRx(r, RxProcessed), RxTooShort) == CountRx(r, TooShort)
    ensures IncRx(IncRx(r, RxProcessed), RxCbpfProgError) == CountRx(r, ProgError)
    ensures IncRx(IncRx(r, RxProcessed), RxInternalStateError) == CountRx(r, InternalError)
  {
  }

  lemma NoopCounts(r: Rx)
    ensures IncRx(IncRx(r, RxDissectedOk), RxNewUnseen) == CountSecond(r, Unseen(false, false))
  {
  }

  lemma ClockDoesNotSteer(s: System, k: Key, p: Packet, now: u64)
    requires Formed(s) && k in s.conf
    ensures Formed(s.(clock := now)) && PathOf(s.(clock := now), k, p, now) == PathOf(s, k, p, now)
    ensures Receive(s, k, p, now) == WithRx(s.(clock := now), k, CountRx(s.conf[k].rx, PathOf(s, k, p, now)))
  {
    hide Formed, CountRx, Kind, DissectCbpf, SecondByHash, SecondByCookie, CookieSought, ThirdOf;
    FormedClock(s, now);
    var s' := s.(clock := now);
    SecondIgnoresClock(s, k, now);
    forall app ensures ThirdOf(s', k, app, p.mdHash) == ThirdOf(s, k, app, p.mdHash) {
      ThirdIgnoresClock(s, k, app, p.mdHash, now);
    }
  }

  lemma SecondIgnoresClock(s: System, k: Key, now: u64)
    requires Formed(s) && k in s.conf && Formed(s.(clock := now))
    ensures forall h :: SecondByHash(s.(clock := now), k, h, now) == SecondByHash(s, k, h, now)
    ensures forall c :: SecondByCookie(s.(clock := now), k, c) == SecondByCookie(s, k, c)
    ensures forall d: Dissected :: !d.DissectError? ==> CookieSought(s.(clock := now), k, d) == CookieSought(s, k, d)
  {
    hide Shaped, QueueFormed, SocksFormed, ConfsFormed, JobFormed, LiveSet, TimeoutNs, Unpack;
    SameLive(s, s.(clock := now));
  }

  lemma ThirdIgnoresClock(s: System, k: Key, app: u32, mdHash: u32, now: u64)
    requires Formed(s) && k in s.conf && Formed(s.(clock := now))
    ensures ThirdOf(s.(clock := now), k, app, mdHash) == ThirdOf(s, k, app, mdHash)
  {
    hide Shaped, QueueFormed, SocksFormed, JobFormed, LiveSet, ToWrkGen, BpfMod;
    SameLive(s, s.(clock := now));
  }

  lemma OneReasonOnly(s: System, k: Key, now: u64)
    requires Formed(s) && k in s.conf
    ensures forall h :: SecondByHash(s, k, h, now).Unseen? ==> !SecondByHash(s, k, h, now).badCookie
    ensures forall c :: SecondByCookie(s, k, c).Unseen? ==> !SecondByCookie(s, k, c).expired
  {
    hide Formed, LiveSet, SelectSocket;
  }
}
