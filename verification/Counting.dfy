/** Which counters a packet or a send moves, in terms of sockets, slots and entries. */
module Counting {
  import opened Words
  import opened GrmCookie
  import opened Allocator
  import opened Tubular
  import opened Steering
  import opened Invariants
  import opened Routing
  import opened Stickiness
  import opened Calls

  // ---- packets ----

  /** A new flow: it counts as such, and as dispatched or not. */
  function NewFlowCounted(r: Rx, third: Third): Rx {
    if third.DispatchOk? then r.(newFlow := r.newFlow + 1, dispatchOk := r.dispatchOk + 1)
    else r.(newFlow := r.newFlow + 1, dispatchError := r.dispatchError + 1)
  }

  /** A packet that was taken apart. */
  function Dissects(r: Rx): Rx {
    r.(processed := r.processed + 1, dissected := r.dissected + 1)
  }

  /** The socket that a flow entry or a slot names can be selected for group `k`, for another group, or not at all. */
  predicate LivesIn(s: System, c: Cookie, k: Key) {
    c in LiveSet(s) && s.socks[c].key == k
  }

  predicate LivesElsewhere(s: System, c: Cookie, k: Key) {
    c in LiveSet(s) && s.socks[c].key != k
  }

  /** A FLOW group, packet by packet. An unreadable packet counts as too short. One of a fresh entry counts as flow_ok
      if the entry's socket lives in the group, as rg_conflict if it lives in another group, and as other_error if it
      does not live. Any other counts as unseen, and as had_expired if there is an entry. All but the first two are new
      flows. */
  lemma FlowPacketCounts(s: System, k: Key, p: Packet, now: u64)
    requires Formed(s) && k in s.conf && Kind(s.conf[k].dis.typ) == DISSECTOR_FLOW && FlowsPast(s) && s.clock <= now
    ensures var r, third := s.conf[k].rx, ThirdOf(s, k, 0, p.mdHash);
      Receive(s, k, p, now).conf[k].rx ==
        if p.flow.None? then r.(processed := r.processed + 1, tooShort := r.tooShort + 1)
        else
          var h, d := p.flow.value, Dissects(r);
          if h !in s.flows then NewFlowCounted(d.(newUnseen := d.newUnseen + 1), third)
          else if !Within(now - s.flows[h].lastTx, s.conf[k].dis)
          then NewFlowCounted(d.(newUnseen := d.newUnseen + 1, hadExpired := d.hadExpired + 1), third)
          else if LivesIn(s, s.flows[h].cookie, k) then d.(flowOk := d.flowOk + 1)
          else if LivesElsewhere(s, s.flows[h].cookie, k) then NewFlowCounted(d.(rgConflict := d.rgConflict + 1), third)
          else NewFlowCounted(d.(otherError := d.otherError + 1), third)
  {
    hide Formed, LiveSet, Kind, ThirdOf, TimeoutNs, SecondByCookie, CookieSought, Within;
    if p.flow.Some? && p.flow.value in s.flows {
      var t := s.flows[p.flow.value].lastTx;
      assert Age(now, t) == now - t;
      WithinTimeout(now - t, s.conf[k].dis);
    }
  }

  /** What a program's return value, a signed 32-bit number, asks for: 0 to 0xffff is a cookie, -2^31 plus the number of
      an application of the group a new flow of it, and everything else a new flow of application 0. */
  predicate IsCookie(ran: Ran) {
    ran.code == 0 && 0 <= ran.retval <= 0xffff
  }

  function AppAsked(maxApps: u32, ran: Ran): u32 {
    if ran.code == 0 && 0 <= ran.retval + 0x8000_0000 < maxApps then ran.retval + 0x8000_0000 else 0
  }

  lemma DissectExactly(maxApps: u32, ran: Ran)
    requires maxApps <= MAX_APPS && -0x8000_0000 <= ran.retval < 0x8000_0000
    ensures DissectCbpf(maxApps, ran) ==
      if IsCookie(ran) then HasCookie(ran.retval)
      else if ran.code == 0 || ran.code == -6 then NewFlow(AppAsked(maxApps, ran))
      else DissectError(ran.code)
  {
    var app := (ran.retval - 0x8000_0000) % TWO32;
    assert app == if ran.retval < 0 then ran.retval + 0x8000_0000 else ran.retval + 0x8000_0000;
  }

  /** The slot that a cookie names, None when its checksum is wrong. */
  function SlotNamed(s: System, k: Key, grm: u16): Option<Cookie>
    requires Formed(s) && k in s.conf
  {
    match Unpack(grm)
    case None => None
    case Some((gen, idx)) => Some(s.slots[k].cookies[gen % 32][idx % 256])
  }

  /** A group that decides by program, packet by packet, in every reachable state. A failed load counts as too short,
      any other failure as a program error. A cookie counts as flow_ok if its slot names a live socket, as other_error
      if its slot names a dead one, and as unseen if the slot is empty or the checksum wrong, in which case also as
      bad_cookie; a packet that asks for a new flow counts as unseen. There is never a conflict with another group. */
  lemma ProgramPacketCounts(s: System, k: Key, p: Packet, now: u64)
    requires Core(s) && k in s.conf && ByProgram(s.conf[k].dis) && -0x8000_0000 <= p.ran.retval < 0x8000_0000
    ensures var r, d := s.conf[k].rx, Dissects(s.conf[k].rx);
      var third := ThirdOf(s, k, AppAsked(s.conf[k].dis.maxApps, p.ran), p.mdHash);
      Receive(s, k, p, now).conf[k].rx ==
        if p.ran.code == -2 then r.(processed := r.processed + 1, tooShort := r.tooShort + 1)
        else if p.ran.code != 0 && p.ran.code != -6
        then r.(processed := r.processed + 1, progError := r.progError + 1)
        else if !IsCookie(p.ran) then NewFlowCounted(d.(newUnseen := d.newUnseen + 1), third)
        else
          var slot := SlotNamed(s, k, p.ran.retval);
          if slot == None
          then NewFlowCounted(d.(newUnseen := d.newUnseen + 1, badCookie := d.badCookie + 1), third)
          else if slot.value == 0 then NewFlowCounted(d.(newUnseen := d.newUnseen + 1), third)
          else if slot.value in LiveSet(s) then d.(flowOk := d.flowOk + 1)
          else NewFlowCounted(d.(otherError := d.otherError + 1), third)
  {
    hide Shaped, QueueFormed, JobFormed, Covering, SlotOwned, FdsFormed, LiveSet, Kind, ThirdOf, SecondByHash, Unpack,
      DissectCbpf, AppAsked;
    DissectExactly(s.conf[k].dis.maxApps, p.ran);
    ReservedAreDead(s);
    CookieAsksNone(s.conf[k].dis.maxApps, p.ran);
  }

  lemma CookieAsksNone(maxApps: u32, ran: Ran)
    requires maxApps <= MAX_APPS
    ensures IsCookie(ran) ==> AppAsked(maxApps, ran) == 0
  {
  }

  /** The reserved values name no socket. */
  lemma ReservedAreDead(s: System)
    requires Formed(s)
    ensures NO_COOKIE !in LiveSet(s) && BAD_CHECKSUM !in LiveSet(s) && 0 !in LiveSet(s)
  {
  }

  /** A NOOP group: every packet is a new flow of application 0. */
  lemma NoopPacketCounts(s: System, k: Key, p: Packet, now: u64)
    requires Formed(s) && k in s.conf && Kind(s.conf[k].dis.typ) == DISSECTOR_NOOP
    ensures var d := Dissects(s.conf[k].rx);
      Receive(s, k, p, now).conf[k].rx ==
        NewFlowCounted(d.(newUnseen := d.newUnseen + 1), ThirdOf(s, k, 0, p.mdHash))
  {
    hide Formed, Kind, ThirdOf, SecondByHash, SecondByCookie, CookieSought;
  }

  // ---- sends ----

  /** The counters of the sender's group before a call; a group that the call makes starts at zero. */
  function TxBefore(s: System, c: Cookie): Tx
    requires c in s.socks
  {
    if s.socks[c].key in s.conf then s.conf[s.socks[c].key].tx else Tx(0, 0, 0, 0, 0, 0)
  }

  /** Every send and every assure in a FLOW group counts once in the total and once by what became of it: refused for
      want of room, refused by another socket's fresh entry, a new entry, a refreshed one, or a new one in the place of
      an expired one. */
  lemma SendCounts(s: System, e: Step)
    requires Inv(s) && Enabled(s, e) && FlowsPast(s) && Formed(s) && Assures(s, e).Some?
    ensures var t, s' := Assures(s, e).value, Next(s, e);
      && t.c in s.socks && s.socks[t.c].key in s'.conf
      && var u := TxBefore(s, t.c).(total := TxBefore(s, t.c).total + 1);
         s'.conf[s.socks[t.c].key].tx ==
           if t.h !in s.flows then
             if t.insertFails then u.(createError := u.createError + 1) else u.(createOk := u.createOk + 1)
           else if !FindsFresh(s, t)
           then u.(createOk := u.createOk + 1, createFromExpired := u.createFromExpired + 1)
           else if s.flows[t.h].cookie == t.c then u.(updateOk := u.updateOk + 1)
           else u.(updateConflict := u.updateConflict + 1)
  {
    hide Core, Kept, Formed, SenderDis, Within, Age, Kind, AssureCall, SendMsg, TimeoutNs;
    AgeIs(s, e);
    var t := Assures(s, e).value;
    AssuredBy(s, e);
    TxOf(s, e);
    if t.h in s.flows {
      WithinTimeout(t.now - s.flows[t.h].lastTx, SenderDis(s, t.c));
    }
  }

  lemma AssuredBy(s: System, e: Step)
    requires Formed(s) && Assures(s, e).Some?
    ensures Assures(s, e).value.c in s.socks && (e.DoSend? || e.DoAssure?)
  {
    hide Formed, Kind, SenderDis;
    if e.DoAssure? {
      EnterExactly(s, e.c, e.rid);
    }
  }

  lemma TxOf(s: System, e: Step)
    requires Formed(s) && Enabled(s, e) && Assures(s, e).Some? && Assures(s, e).value.c in s.socks
    ensures var t, s' := Assures(s, e).value, Next(s, e);
      && s.socks[t.c].key in s'.conf
      && s'.conf[s.socks[t.c].key].tx == CountTx(TxBefore(s, t.c), TouchOutcome(s, t))
  {
    hide Formed, Kind, TxOutcomeOf, CountTx, TimeoutNs, FlowsAfter, Enter, GroupFor;
    if e.DoAssure? {
      EnterExactly(s, e.c, e.rid);
      GroupTx(s, e.c, e.rid);
    }
  }

  lemma GroupTx(s: System, c: Cookie, rid: Option<u32>)
    requires Formed(s) && Admitted(s, c, rid)
    ensures GroupFor(s, c, rid).tx == TxBefore(s, c) && GroupFor(s, c, rid).dis == SenderDis(s, c)
  {
    hide Formed;
  }
}
