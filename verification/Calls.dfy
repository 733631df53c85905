/** What each call answers, and what it changes. */
module Calls {
  import opened Words
  import opened GrmCookie
  import opened Allocator
  import opened Tubular
  import opened Steering

  // ---- who may call, and on what ----

  /** The caller is bound, and its group is in its network namespace or there is room for a new group. */
  predicate Admitted(s: System, c: Cookie, rid: Option<u32>) {
    c in s.socks &&
      if s.socks[c].key in s.conf then s.conf[s.socks[c].key].netns == s.socks[c].netns else rid.Some?
  }

  /** The group that an admitted call works on: its own, or a new one without dissector, all working generations 0. */
  function GroupFor(s: System, c: Cookie, rid: Option<u32>): (g: Conf)
    requires Formed(s) && Admitted(s, c, rid)
    ensures |g.workingGen| == 4 && g.dis.maxApps <= MAX_APPS
  {
    hide Shaped, QueueFormed, SocksFormed, TablesFormed, JobFormed;
    var sock := s.socks[c];
    if sock.key in s.conf then s.conf[sock.key]
    else Conf(sock.netns, rid.value, false, Dissector(0, 0, 0, 0, [], 0, []), [0, 0, 0, 0], ZeroRx, ZeroTx)
  }

  /** The state in which an admitted call has its group. */
  function WithGroup(s: System, c: Cookie, rid: Option<u32>): System
    requires Formed(s) && Admitted(s, c, rid)
  {
    var k := s.socks[c].key;
    if k in s.conf then s else s.(conf := s.conf[k := GroupFor(s, c, rid)], slots := s.slots[k := EmptySlots()])
  }

  lemma EnterExactly(s: System, c: Cookie, rid: Option<u32>)
    requires Formed(s)
    ensures Enter(s, c, rid) ==
      if Admitted(s, c, rid) then Entered(WithGroup(s, c, rid), s.socks[c].key !in s.conf) else Refused
    ensures Admitted(s, c, rid) ==>
      var k, s1 := s.socks[c].key, WithGroup(s, c, rid);
      Formed(s1) && s1.socks == s.socks && k in s1.conf && s1.conf[k] == GroupFor(s, c, rid)
  {
    hide Shaped, QueueFormed, SocksFormed, TablesFormed, JobFormed;
  }

  // ---- UDP_GRM_WORKING_GEN ----

  /** Four working generations with one of them replaced. */
  function Replace(w: seq<u32>, a: nat, gen: u32): seq<u32>
    requires |w| == 4 && a < 4
  {
    w[..a] + [gen] + w[a + 1..]
  }

  /** An admitted call that finds room in the ring answers OK, puts the generation into the entry of the caller's
      application, leaves the three other entries, and queues the offer to Tubular. In every other case no working
      generation moves. */
  lemma WorkingGenExactly(s: System, c: Cookie, gen: u32, rid: Option<u32>, full: bool)
    requires Formed(s)
    ensures SetWorkingGen(s, c, gen, rid, full) ==
      if !Admitted(s, c, rid) then Reply(s, EBADF)
      else if full then Reply(WithGroup(s, c, rid), EAGAIN)
      else
        var k, a, g, s1 := s.socks[c].key, s.socks[c].app % 4, GroupFor(s, c, rid), WithGroup(s, c, rid);
        Reply(s1.(conf := s1.conf[k := g.(workingGen := Replace(g.workingGen, a, gen))],
                  queue := s.queue + [WorkingMsg(k, a, gen)]), OK)
  {
    hide Formed, Enter, Admitted, GroupFor;
    EnterExactly(s, c, rid);
    if Admitted(s, c, rid) {
      var w, a := GroupFor(s, c, rid).workingGen, s.socks[c].app % 4;
      assert w[a := gen] == Replace(w, a, gen);
    }
  }

  /** New flows follow the call: after an OK, the flows of the caller's application are dispatched from the row in which
      the sockets of that application and generation register. */
  lemma NewFlowsFollow(s: System, c: Cookie, gen: u32, rid: Option<u32>, full: bool, d: Cookie)
    requires Formed(s) && c in s.socks && s.socks[c].app < 4
    requires var r := SetWorkingGen(s, c, gen, rid, full);
      && r.err == OK && Formed(r.s) && d in r.s.socks
      && r.s.socks[d].key == s.socks[c].key && r.s.socks[d].app == s.socks[c].app && r.s.socks[d].gen == gen
    ensures var s', k := SetWorkingGen(s, c, gen, rid, full).s, s.socks[c].key;
      k in s'.conf && WorkingRow(s', k, s.socks[c].app) == RowOf(s', d)
  {
    hide Formed, Enter, Admitted, GroupFor, SetWorkingGen, ToWrkGen;
    WorkingGenExactly(s, c, gen, rid, full);
    SizesFor(SetWorkingGen(s, c, gen, rid, full).s, s.socks[c].key);
  }

  lemma SizesFor(s: System, k: Key)
    requires Formed(s) && k in s.conf
    ensures |s.conf[k].workingGen| == 4 && s.conf[k].dis.maxApps <= MAX_APPS
  {
    hide Shaped, QueueFormed, SocksFormed, TablesFormed, JobFormed;
  }

  // ---- UDP_GRM_SOCKET_GEN ----

  /** A generation is asked for when it is new to the socket or the socket has no index. */
  predicate Asks(k: Sock, gen: u32) {
    k.gen != gen || k.idx == 0xffff_ffff
  }

  /** A generation that is asked for is written into the socket's storage, with a request in the ring, if there is room;
      otherwise nothing changes, and only a full ring is an error. */
  lemma SocketGenExactly(s: System, c: Cookie, gen: u32, rid: Option<u32>, full: bool)
    requires Formed(s)
    ensures SetSocketGen(s, c, gen, rid, full) ==
      if !Admitted(s, c, rid) then Reply(s, EBADF)
      else if !Asks(s.socks[c], gen) then Reply(WithGroup(s, c, rid), OK)
      else if full then Reply(WithGroup(s, c, rid), EAGAIN)
      else
        var k := s.socks[c];
        Reply(WithGroup(s, c, rid).(
                socks := s.socks[c := Sock(k.key, k.netns, gen, k.idx, k.app, k.changes + 1, k.appOpen)],
                queue := s.queue + [RegisterMsg(k.key, c, gen, k.app)]), OK)
  {
    hide Formed, Enter, Admitted, GroupFor;
    EnterExactly(s, c, rid);
  }

  // ---- UDP_GRM_SOCKET_APP ----

  predicate Settled(k: Sock) {
    k.gen != 0xffff_ffff || k.idx != 0xffff_ffff
  }

  /** Error by error: EEXIST exactly when the call would change the application of a socket that has a generation or an
      index, whatever the number; EOVERFLOW exactly when it would give a socket without either a number that its group
      does not have. It changes the application in the one remaining case. */
  lemma SocketAppExactly(s: System, c: Cookie, app: u32, rid: Option<u32>)
    requires Formed(s)
    ensures var r := SetSocketApp(s, c, app, rid);
      && (r.err == EBADF <==> !Admitted(s, c, rid))
      && (r.err == EEXIST <==> Admitted(s, c, rid) && s.socks[c].app != app && Settled(s.socks[c]))
      && (r.err == EOVERFLOW <==>
            && Admitted(s, c, rid) && s.socks[c].app != app && !Settled(s.socks[c])
            && GroupFor(s, c, rid).dis.maxApps <= app)
      && r.err in {OK, EBADF, EEXIST, EOVERFLOW}
    ensures var r := SetSocketApp(s, c, app, rid);
      r.s ==
        if r.err == EBADF then s
        else if r.err == OK then WithGroup(s, c, rid).(socks := s.socks[c := s.socks[c].(app := app)])
        else WithGroup(s, c, rid)
  {
    hide Formed, Enter, Admitted, GroupFor;
    EnterExactly(s, c, rid);
    if Admitted(s, c, rid) {
      assert s.socks[c := s.socks[c].(app := s.socks[c].app)] == s.socks;
    }
  }

  // ---- UDP_GRM_DISSECTOR ----

  /** The verbose flag, the highest of the sixteen low bits of the type. */
  predicate Loud(typ: u32) {
    typ % 0x1_0000 >= 0x8000
  }

  function Quiet(typ: u32): u32 {
    if Loud(typ) then typ - 0x8000 else typ
  }

  lemma KindIsQuiet(typ: u32)
    ensures Kind(typ) == Quiet(typ) && (Verbose(typ) <==> Loud(typ))
  {
    var hi, lo := typ / 0x1_0000, typ % 0x1_0000;
    assert typ == 0x8000 * (2 * hi) + lo;
    HalfWord(2 * hi, lo, typ);
  }

  lemma HalfWord(a: nat, lo: nat, n: nat)
    requires lo < 0x1_0000 && n == 0x8000 * a + lo && a % 2 == 0
    ensures lo < 0x8000 ==> n % 0x8000 == lo && n / 0x8000 == a
    ensures lo >= 0x8000 ==> n % 0x8000 == lo - 0x8000 && n / 0x8000 == a + 1
  {
    if lo < 0x8000 {
      RemainderOfSum(a, 0x8000, lo);
    } else {
      RemainderOfSum(a + 1, 0x8000, lo - 0x8000);
    }
  }

  /** Types 0 (FLOW) and 4 (NOOP) take no program, no applications and no digest; type 1 (classic BPF) takes 1 to 64
      instructions, at most 4 applications and no digest; type 3 (BESPOKE) takes anything; there are no others. */
  predicate Acceptable(d: Dissector) {
    var t := Quiet(d.typ);
    || ((t == 0 || t == 4) && d.filterLen == d.maxApps == d.digest == 0)
    || (t == 1 && 1 <= d.filterLen <= 64 && d.maxApps <= 4 && d.digest == 0)
    || t == 3
  }

  /** On an existing group the call compares, up to the verbose flag, and takes that flag over; on a new one it stores
      an acceptable dissector without the flag and announces it, unless the ring is full. */
  lemma DissectorExactly(s: System, c: Cookie, d: Dissector, rid: Option<u32>, full: bool)
    requires Formed(s)
    ensures SetDissector(s, c, d, rid, full) ==
      if !Admitted(s, c, rid) then Reply(s, EBADF)
      else
        var k, g := s.socks[c].key, GroupFor(s, c, rid);
        if k in s.conf then
          if Quiet(g.dis.typ) == Quiet(d.typ) && g.dis.(typ := 0) == d.(typ := 0)
          then Reply(s.(conf := s.conf[k := g.(verbose := Loud(d.typ))]), OK)
          else Reply(s, EPERM)
        else if !Acceptable(d) then Reply(s, EPERM)
        else if full then Reply(WithGroup(s, c, rid), EAGAIN)
        else
          Reply(WithGroup(s, c, rid).(
                  conf := s.conf[k := g.(dis := d.(typ := Quiet(d.typ)), verbose := Loud(d.typ))],
                  queue := s.queue + [DissectorMsg(k)]), OK)
  {
    hide Formed, Enter, Admitted, GroupFor, Kind, Verbose, Quiet, Loud;
    EnterExactly(s, c, rid);
    KindIsQuiet(d.typ);
    if Admitted(s, c, rid) {
      var k, g := s.socks[c].key, GroupFor(s, c, rid);
      KindIsQuiet(g.dis.typ);
      if k !in s.conf {
        assert s.conf[k := g][k := g.(dis := d.(typ := Quiet(d.typ)), verbose := Loud(d.typ))] ==
          s.conf[k := g.(dis := d.(typ := Quiet(d.typ)), verbose := Loud(d.typ))];
      }
    }
  }

  // ---- UDP_GRM_FLOW_ASSURE ----

  /** The errors that do not depend on the flow table: a caller that is not admitted, a group that is not a FLOW group,
      an address of an unknown family. */
  lemma AssureErrors(s: System, c: Cookie, h: Option<u32>, rid: Option<u32>, now: u64, later: u64, insertFails: bool)
    requires Formed(s)
    ensures var r := AssureCall(s, c, h, rid, now, later, insertFails);
      && (r.err == EBADF <==> !Admitted(s, c, rid)) && (r.err == EBADF ==> r.s == s)
      && (r.err == EPERM <==> Admitted(s, c, rid) && (Quiet(GroupFor(s, c, rid).dis.typ) != 0 || h.None?))
      && (r.err == EPERM ==> r.s == WithGroup(s, c, rid)) && r.err in {OK, EBADF, EPERM, EEXIST}
  {
    hide Formed, Enter, Admitted, GroupFor, Kind, Verbose, Quiet, Loud, FlowAssure, TxOutcomeOf;
    EnterExactly(s, c, rid);
    if Admitted(s, c, rid) {
      KindIsQuiet(GroupFor(s, c, rid).dis.typ);
    }
  }
}
