/** No new flow is lost while an application moves from one generation to the next. */
module Handover {
  import opened Words
  import opened GrmCookie
  import opened Allocator
  import opened Tubular
  import opened Steering
  import opened Invariants
  import opened Routing
  import opened Isolation
  import opened Polling

  // ---- when is every new flow dispatched? ----

  /** The slots that new flows of a row are spread over. */
  function Spread(maxIdx: nat): nat {
    if maxIdx == 0 then MAX_SOCKETS_IN_GEN else maxIdx
  }

  /** The slot of the working row that a hash selects. */
  function SlotFor(mdHash: u32, maxIdx: nat): (i: nat)
    requires maxIdx <= MAX_SOCKETS_IN_GEN
    ensures i < Spread(maxIdx)
  {
    BpfMod(mdHash, maxIdx) % MAX_SOCKETS_IN_GEN
  }

  lemma EverySlotIsSelected(i: u32, maxIdx: nat)
    requires maxIdx <= MAX_SOCKETS_IN_GEN && i < Spread(maxIdx)
    ensures SlotFor(i, maxIdx) == i
  {
    SmallRemainder(i, maxIdx);
  }

  lemma SmallRemainder(i: nat, n: nat)
    ensures i < n ==> i % n == i
  {
    if i < n {
      assert i == n * 0 + i;
    }
  }

  lemma DispatchAt(s: System, k: Key, app: u32, mdHash: u32)
    requires Core(s) && k in s.conf
    ensures var row := WorkingRow(s, k, app);
      s.slots[k].maxIdx[row] <= MAX_SOCKETS_IN_GEN && |s.slots[k].cookies[row]| == MAX_SOCKETS_IN_GEN &&
      (ThirdOf(s, k, app, mdHash).DispatchOk? <==>
        s.slots[k].cookies[row][SlotFor(mdHash, s.slots[k].maxIdx[row])] in LiveSet(s))
  {
    hide Shaped, QueueFormed, Covering, SlotOwned, WorkingRow, BpfMod, FdsFormed;
  }

  /** Every new flow of an application is dispatched, whatever its hash, exactly when every slot of
      the working row below the announced length names a live socket of the group. */
  lemma DispatchExactly(s: System, k: Key, app: u32)
    requires Core(s) && k in s.conf
    ensures var row := WorkingRow(s, k, app);
      (forall mdHash: u32 :: ThirdOf(s, k, app, mdHash).DispatchOk?) <==>
      (forall i :: 0 <= i < Spread(s.slots[k].maxIdx[row]) ==> s.slots[k].cookies[row][i] in LiveSet(s))
  {
    hide Shaped, QueueFormed, SocksFormed, LiveSet, Covering, SlotOwned, WorkingRow, ThirdOf, Named, FdsFormed, SlotFor,
      BpfMod;
    var row := WorkingRow(s, k, app);
    var max, cells := s.slots[k].maxIdx[row], s.slots[k].cookies[row];
    forall mdHash: u32 ensures ThirdOf(s, k, app, mdHash).DispatchOk? <==> cells[SlotFor(mdHash, max)] in LiveSet(s) {
      DispatchAt(s, k, app, mdHash);
    }
    forall i | 0 <= i < Spread(max) && forall h: u32 :: ThirdOf(s, k, app, h).DispatchOk?
      ensures cells[i] in LiveSet(s)
    {
      var h: u32 := i;
      EverySlotIsSelected(h, max);
      assert ThirdOf(s, k, app, h).DispatchOk?;
    }
  }

  // ---- which slot does a hash select? ----

  /** For every hash and every length: write the hash as q times the length plus i, with i below the length (256 for a
      row that was never announced); the flow goes to the socket in slot i of the working row, if that is live. */
  lemma HashPicksSlot(s: System, k: Key, app: u32, mdHash: u32, q: nat, i: nat)
    requires Core(s) && k in s.conf
    requires var max := s.slots[k].maxIdx[WorkingRow(s, k, app)];
      var n := if max == 0 then 256 else max;
      i < n && mdHash == q * n + i
    ensures var c := s.slots[k].cookies[WorkingRow(s, k, app)][i];
      ThirdOf(s, k, app, mdHash) == if c in LiveSet(s) then DispatchOk(c) else DispatchError
  {
    hide Shaped, QueueFormed, Covering, SlotOwned, WorkingRow, BpfMod, FdsFormed, LiveSet;
    var max := s.slots[k].maxIdx[WorkingRow(s, k, app)];
    SlotOfSum(q, if max == 0 then 256 else max, i, mdHash);
  }

  lemma SlotOfSum(q: nat, n: nat, i: nat, mdHash: u32)
    requires i < n <= MAX_SOCKETS_IN_GEN && mdHash == q * n + i
    ensures BpfMod(mdHash, n) % MAX_SOCKETS_IN_GEN == i
    ensures n == MAX_SOCKETS_IN_GEN ==> BpfMod(mdHash, 0) % MAX_SOCKETS_IN_GEN == i
  {
    RemainderOfSum(q, n, i);
    SmallRemainder(i, MAX_SOCKETS_IN_GEN);
  }

  /** How many of the hashes below `m` select slot `i`. */
  ghost function Share(maxIdx: nat, i: nat, m: nat): nat
    requires maxIdx <= MAX_SOCKETS_IN_GEN && m <= TWO32
  {
    if m == 0 then 0 else Share(maxIdx, i, m - 1) + if SlotFor(m - 1, maxIdx) == i then 1 else 0
  }

  lemma {:induction false} ShareIs(maxIdx: nat, i: nat, m: nat, q: nat, r: nat)
    requires maxIdx <= MAX_SOCKETS_IN_GEN && m <= TWO32 && i < Spread(maxIdx)
    requires m == q * Spread(maxIdx) + r && r < Spread(maxIdx)
    ensures Share(maxIdx, i, m) == q + if i < r then 1 else 0
    decreases m
  {
    hide SlotFor;
    var n := Spread(maxIdx);
    if m > 0 {
      var q', r' := if r > 0 then q else q - 1, if r > 0 then r - 1 else n - 1;
      if r == 0 {
        assert q > 0 && (q - 1) * n == q * n - n;
      }
      ShareIs(maxIdx, i, m - 1, q', r');
      SlotOfHash(maxIdx, m - 1, q', r');
    } else {
      assert q > 0 ==> q * n >= n;
    }
  }

  lemma SlotOfHash(maxIdx: nat, mdHash: u32, q: nat, i: nat)
    requires maxIdx <= MAX_SOCKETS_IN_GEN && i < Spread(maxIdx) && mdHash == q * Spread(maxIdx) + i
    ensures SlotFor(mdHash, maxIdx) == i
  {
    SlotOfSum(q, Spread(maxIdx), i, mdHash);
  }

  /** Flows are spread evenly: over all 32-bit hashes, the shares of any two slots differ by at most one. */
  lemma SpreadEvenly(maxIdx: nat, i: nat, j: nat)
    requires maxIdx <= MAX_SOCKETS_IN_GEN && i < Spread(maxIdx) && j < Spread(maxIdx)
    ensures -1 <= Share(maxIdx, i, TWO32) - Share(maxIdx, j, TWO32) <= 1
    ensures Share(maxIdx, i, TWO32) >= TWO32 / Spread(maxIdx)
  {
    hide Share;
    var n := Spread(maxIdx);
    var q, r := TWO32 / n, TWO32 % n;
    assert TWO32 == q * n + r;
    ShareIs(maxIdx, i, TWO32, q, r);
    ShareIs(maxIdx, j, TWO32, q, r);
  }

  // ---- rows that are filled from empty ----

  /** The registered sockets that their application has open. */
  ghost function OpenSet(s: System): (open: set<Cookie>)
    ensures forall c :: c in open <==> c in s.hashed && c in s.socks && s.socks[c].appOpen
  {
    set c | c in s.hashed && c in s.socks && s.socks[c].appOpen
  }

  predicate Here(j: Job, k: Key, r: nat) {
    j.Job? && j.key == k && j.row == r
  }

  /** The first `n` slots of a row name open sockets and no other slot lives. */
  ghost predicate PrefixLive(row: Row, n: nat, live: set<Cookie>, open: set<Cookie>) {
    && n <= |row|
    && (forall i :: 0 <= i < n ==> row[i] in open)
    && (forall i :: n <= i < |row| ==> row[i] !in live)
  }

  /** The announced length of a row whose first `n` slots live: it is `n`, except around the writes of
      the registration in progress, and unknown before the first registration has announced it. */
  ghost predicate Announced(maxIdx: nat, n: nat, j: Job, here: bool, held: bool) {
    if !here then 1 <= maxIdx == n
    else if !j.Job? then false
    else if j.free < 0 || j.at == MaxSet || j.at == IndexSet then
      1 <= maxIdx == n
    else if j.at == CookieSet then
      n == j.free + 1 == j.len && (j.free == 0 || maxIdx == j.free)
    else
      n == j.free && j.len == n + 1 && held && (n == 0 || maxIdx == n)
  }

  ghost predicate JobOpen(j: Job, socks: map<Cookie, Sock>) {
    j.Job? && j.cookie in socks && socks[j.cookie].appOpen
  }

  /** Row `r` of group `k` was empty when its first registration began, and no socket of it has been
      closed since: `n` slots are filled. */
  ghost predicate FilledTo(s: System, k: Key, r: nat, n: nat)
    requires Formed(s)
  {
    && k in s.slots && r < MAX_GENS
    && PrefixLive(s.slots[k].cookies[r], n, LiveSet(s), OpenSet(s))
    && Announced(s.slots[k].maxIdx[r], n, s.job, Here(s.job, k, r), JobOpen(s.job, s.socks))
  }

  /** The first registration of the row has announced it. */
  predicate Open(n: nat, j: Job, here: bool) {
    n >= 1 && !(here && j.Job? && j.at == CookieSet && j.free == 0)
  }

  /** A filled and announced row loses no packet. */
  lemma FilledDispatches(s: System, k: Key, app: u32, n: nat, mdHash: u32)
    requires Inv(s) && k in s.conf && FilledTo(s, k, WorkingRow(s, k, app), n)
    requires Open(n, s.job, Here(s.job, k, WorkingRow(s, k, app)))
    ensures ThirdOf(s, k, app, mdHash).DispatchOk?
  {
    var row := WorkingRow(s, k, app);
    DispatchAt(s, k, app, mdHash);
    var i := SlotFor(mdHash, s.slots[k].maxIdx[row]);
    hide Shaped, QueueFormed, SocksFormed, ConfsFormed, Covering, SlotOwned, Named, Kept, WorkingRow, ThirdOf, BpfMod;
    assert s.slots[k].cookies[row][i] in OpenSet(s);
  }

  // ---- how filled rows move ----

  /** Socket `c` occupies a slot of the row, or is about to. */
  ghost predicate Touches(s: System, k: Key, r: nat, c: Cookie)
    requires Formed(s)
  {
    (k in s.slots && r < MAX_GENS && c in s.slots[k].cookies[r]) || (Here(s.job, k, r) && s.job.cookie == c)
  }

  /** Open sockets stay open, except for the one that is closed. */
  lemma OpenStays(s: System, e: Step, s': System, c: Cookie)
    requires Formed(s) && Enabled(s, e) && SocketsStep(s, e, s') && JobStep(s, e, s') && c in OpenSet(s)
    requires !(e.DoClose? && e.c == c)
    ensures c in OpenSet(s')
  {
    hide Shaped, QueueFormed, SocksFormed, TablesFormed, ConfsFormed, LiveSet, ToWrkGen;
  }

  lemma JobOpenStays(s: System, e: Step, s': System)
    requires Formed(s) && Enabled(s, e) && SocketsStep(s, e, s') && JobStep(s, e, s')
    requires s.job.Job? && s'.job.Job? && !(e.DoClose? && e.c == s.job.cookie)
    ensures JobOpen(s.job, s.socks) ==> JobOpen(s'.job, s'.socks)
    ensures e.DoAdvance? || s'.job == s.job
  {
    hide Shaped, QueueFormed, SocksFormed, TablesFormed, ConfsFormed, LiveSet, ToWrkGen;
  }

  /** A dead slot stays dead while it is not rewritten. */
  lemma DeadSlotStays(s: System, s': System, k: Key, g: nat, i: nat)
    requires Inv(s) && k in s.slots && g < MAX_GENS && i < MAX_SOCKETS_IN_GEN && LiveStep(s, s')
    requires s.slots[k].cookies[g][i] !in LiveSet(s)
    ensures s.slots[k].cookies[g][i] !in LiveSet(s')
  {
    hide Shaped, QueueFormed, ConfsFormed, Covering, SlotOwned, Kept;
    var c := s.slots[k].cookies[g][i];
    assert s.job.Job? ==> Live(s, s.job.cookie) && s.job.cookie != 0;
  }

  /** Steps that do not write the row. */
  lemma FilledElsewhere(s: System, e: Step, s': System, k: Key, r: nat, n: nat)
    requires Inv(s) && Inv(s') && FilledTo(s, k, r, n)
    requires !(e.DoAdvance? && Here(s.job, k, r)) && (Here(s'.job, k, r) ==> Here(s.job, k, r))
    requires e.DoClose? ==> !Touches(s, k, r, e.c)
    requires Enabled(s, e) && Frame(s, e, s')
    ensures FilledTo(s', k, r, n)
    ensures Here(s.job, k, r) <==> Here(s'.job, k, r)
    ensures Here(s.job, k, r) ==> s'.job == s.job
  {
    hide Core, Kept, Formed, Enabled, Frame, LiveSet, OpenSet, SocketsStep, WorkingStep, LiveStep, Announced, JobOpen;
    FormedOf(s);
    FormedOf(s');
    RowLength(s, k, r);
    FrameParts(s, e, s');
    JobFrame(s, e, s');
    HereStays(s, e, s', k, r);
    RowStaysUnless(s, e, s', k, r);
    var row := s.slots[k].cookies[r];
    forall i | 0 <= i < n ensures row[i] in OpenSet(s') {
      assert row[i] in row;
      OpenStays(s, e, s', row[i]);
    }
    forall i | n <= i < |row| ensures row[i] !in LiveSet(s') {
      DeadSlotStays(s, s', k, r, i);
    }
    if Here(s.job, k, r) {
      JobOpenStays(s, e, s');
      AnnouncedOpen(s.slots[k].maxIdx[r], n, s.job, true, JobOpen(s.job, s.socks), JobOpen(s'.job, s'.socks));
    } else {
      AnnouncedAway(s.slots[k].maxIdx[r], n, s.job, JobOpen(s.job, s.socks), s'.job, JobOpen(s'.job, s'.socks));
    }
  }

  lemma HereStays(s: System, e: Step, s': System, k: Key, r: nat)
    requires Formed(s) && JobStep(s, e, s') && !(e.DoAdvance? && Here(s.job, k, r))
    requires (Here(s'.job, k, r) ==> Here(s.job, k, r))
    requires Enabled(s, e)
    ensures Here(s.job, k, r) ==> s'.job == s.job
  {
    hide Formed, ToWrkGen;
  }

  lemma AnnouncedOpen(maxIdx: nat, n: nat, j: Job, here: bool, held: bool, held': bool)
    requires Announced(maxIdx, n, j, here, held) && (held ==> held')
    ensures Announced(maxIdx, n, j, here, held')
  {
  }

  lemma AnnouncedAway(maxIdx: nat, n: nat, j: Job, held: bool, j': Job, held': bool)
    requires Announced(maxIdx, n, j, false, held)
    ensures Announced(maxIdx, n, j', false, held')
  {
  }

  lemma RowLength(s: System, k: Key, r: nat)
    requires Formed(s) && k in s.slots && r < MAX_GENS
    ensures |s.slots[k].cookies| == |s.slots[k].maxIdx| == MAX_GENS && |s.slots[k].cookies[r]| == MAX_SOCKETS_IN_GEN
  {
  }

  /** What a registration that has just started knows about its row. */
  lemma StartFacts(s: System, e: Step, s': System)
    requires Inv(s) && s.job == Idle && s'.job.Job? && Enabled(s, e) && Frame(s, e, s')
    ensures var j := s'.job;
      && j.key in s.slots && j.row < MAX_GENS && s'.slots == s.slots && s'.hashed == s.hashed && s'.socks == s.socks
      && j.at == Found && JobOpen(j, s'.socks)
      && j.free == FreePos(s.slots[j.key].cookies[j.row], LiveSet(s)) &&
        j.len == GenLen(s.slots[j.key].cookies[j.row], LiveSet(s))
      && LiveSet(s') <= LiveSet(s)
  {
    hide SocketsStep, WorkingStep, HookFrame, LiveSet, Shaped, SocksFormed, ConfsFormed, Named, Covering, SlotOwned,
      Kept, ToWrkGen;
    StepIsTake(s, e, s');
    assert MsgFormed(s.queue[0], s.conf.Keys, s.socks);
    SameLive(s, PopMessage(s));
  }

  lemma StepIsTake(s: System, e: Step, s': System)
    requires Formed(s) && s.job == Idle && s'.job.Job? && Enabled(s, e) && Frame(s, e, s')
    ensures e.DoTakeMessage? && s.queue[0].RegisterMsg? && e.fd.Some?
  {
    hide Formed, SocketsStep, WorkingStep, LiveStep, GroupStep, SockStep, QueueStep, StartRegistration, PopMessage;
  }

  /** The row of the registration that starts is filled from the bottom. */
  lemma FilledStart(s: System, e: Step, s': System, n: nat)
    requires Inv(s) && Inv(s') && s.job == Idle && s'.job.Job? && s'.job.key in s.slots && s'.job.row < MAX_GENS
    requires PrefixLive(s.slots[s'.job.key].cookies[s'.job.row], n, LiveSet(s), OpenSet(s))
    requires n == 0 || s.slots[s'.job.key].maxIdx[s'.job.row] == n
    requires Enabled(s, e) && Frame(s, e, s')
    ensures FilledTo(s', s'.job.key, s'.job.row, n)
  {
    hide Core, Kept, Formed, Frame, Enabled, LiveSet, OpenSet, FreePos, GenLen;
    FormedOf(s);
    FormedOf(s');
    StartFacts(s, e, s');
    OpenLives(s);
    SameOpen(s, s');
    RowLength(s, s'.job.key, s'.job.row);
    var row, live := s.slots[s'.job.key].cookies[s'.job.row], LiveSet(s);
    if n < |row| {
      PrefixGrows(row, live, n);
    } else {
      FreePosUnique(row, live, -1);
    }
  }

  lemma OpenLives(s: System)
    ensures OpenSet(s) <= LiveSet(s)
  {
  }

  lemma SameOpen(s: System, s': System)
    requires s'.socks == s.socks && s'.hashed == s.hashed
    ensures OpenSet(s') == OpenSet(s)
  {
  }

  /** How many slots are filled after the next write of the registration. */
  function FilledNext(j: Job, n: nat): nat
    requires j.Job?
  {
    if j.at == Preserved then n + 1 else n
  }

  lemma AnnouncedNext(maxIdx: nat, n: nat, j: Job, held: bool, j': Job, held': bool)
    requires j.Job? && -1 <= j.free && Announced(maxIdx, n, j, true, held) && (j'.Job? && held ==> held')
    requires j.free < 0 ==> j.at == Found || j.at == IndexSet
    requires (j' == Idle && j.at == IndexSet) || (j'.Job? && j' == j.(at := After(j), kept := j'.kept))
    ensures var maxIdx' := if j.at == CookieSet then j.len else maxIdx;
      Announced(maxIdx', FilledNext(j, n), j', Here(j', j.key, j.row), held')
    ensures Open(n, j, true) ==> Open(FilledNext(j, n), j', Here(j', j.key, j.row))
  {
  }

  lemma PrefixNext(row: Row, row': Row, n: nat, j: Job, live: set<Cookie>, open: set<Cookie>, live': set<Cookie>,
      open': set<Cookie>)
    requires j.Job? && |row| == |row'| && PrefixLive(row, n, live, open)
    requires forall c :: c in row && c in open ==> c in open'
    requires forall c :: c in row && c !in live ==> c !in live'
    requires if j.at == Preserved then 0 <= j.free < |row| && n == j.free && row' == row[j.free := j.cookie] &&
      j.cookie in open' else row' == row
    ensures PrefixLive(row', FilledNext(j, n), live', open')
  {
    assert forall i :: 0 <= i < |row| ==> row[i] in row;
  }

  /** The writes of a registration, seen by the row it fills. */
  lemma FilledAdvance(s: System, e: Step, s': System, n: nat)
    requires Inv(s) && Inv(s') && s.job.Job? && e.DoAdvance? && FilledTo(s, s.job.key, s.job.row, n)
    requires Enabled(s, e) && Frame(s, e, s')
    ensures FilledTo(s', s.job.key, s.job.row, FilledNext(s.job, n))
    ensures Open(n, s.job, true) ==> Open(FilledNext(s.job, n), s'.job, Here(s'.job, s.job.key, s.job.row))
  {
    var k, r := s.job.key, s.job.row;
    hide Core, Kept, Formed, Frame, Enabled, LiveSet, OpenSet, SlotsFormed, SocketsStep, WorkingStep, LiveStep, JobStep,
      PrefixLive, Announced, JobOpen;
    FormedOf(s);
    FormedOf(s');
    RowLength(s, k, r);
    FrameParts(s, e, s');
    JobFrame(s, e, s');
    AdvanceRow(s, e, s');
    RowLength(s', k, r);
    RowOpenStays(s, e, s', k, r);
    JobMoves(s, e, s');
    AnnouncedNext(s.slots[k].maxIdx[r], n, s.job, JobOpen(s.job, s.socks), s'.job, JobOpen(s'.job, s'.socks));
    if s.job.at == Preserved {
      PreservedIsNext(s, k, r, n);
      JobIsOpen(s, e, s');
    }
    PrefixNext(s.slots[k].cookies[r], s'.slots[k].cookies[r], n, s.job, LiveSet(s), OpenSet(s), LiveSet(s'),
      OpenSet(s'));
  }

  lemma PreservedIsNext(s: System, k: Key, r: nat, n: nat)
    requires Formed(s) && FilledTo(s, k, r, n) && Here(s.job, k, r) && s.job.at == Preserved && s.job.free >= 0
    ensures n == s.job.free && JobOpen(s.job, s.socks)
  {
    hide Formed, LiveSet, OpenSet;
  }

  /** The open sockets of a row stay open and its dead slots stay dead. */
  lemma RowOpenStays(s: System, e: Step, s': System, k: Key, r: nat)
    requires Inv(s) && k in s.slots && r < MAX_GENS && !e.DoClose?
    requires Enabled(s, e) && SocketsStep(s, e, s') && LiveStep(s, s') && JobStep(s, e, s')
    ensures forall c :: c in s.slots[k].cookies[r] && c in OpenSet(s) ==> c in OpenSet(s')
    ensures forall c :: c in s.slots[k].cookies[r] && c !in LiveSet(s) ==> c !in LiveSet(s')
  {
    hide Core, Kept, Formed, Enabled, LiveSet, OpenSet, SlotsFormed, SocketsStep, LiveStep, JobStep;
    FormedOf(s);
    RowLength(s, k, r);
    forall c | c in s.slots[k].cookies[r] && c in OpenSet(s) ensures c in OpenSet(s') {
      OpenStays(s, e, s', c);
    }
    forall c | c in s.slots[k].cookies[r] && c !in LiveSet(s) ensures c !in LiveSet(s') {
      var i :| 0 <= i < MAX_SOCKETS_IN_GEN && s.slots[k].cookies[r][i] == c;
      DeadSlotStays(s, s', k, r, i);
    }
  }

  lemma JobMoves(s: System, e: Step, s': System)
    requires Formed(s) && Enabled(s, e) && SocketsStep(s, e, s') && JobStep(s, e, s') && s.job.Job? && e.DoAdvance?
    ensures (s'.job == Idle && s.job.at == IndexSet) ||
      (s'.job.Job? && s'.job == s.job.(at := After(s.job), kept := s'.job.kept))
    ensures s'.job.Job? && JobOpen(s.job, s.socks) ==> JobOpen(s'.job, s'.socks)
    ensures -1 <= s.job.free && (s.job.free < 0 ==> s.job.at == Found || s.job.at == IndexSet)
  {
    hide Shaped, QueueFormed, SocksFormed, TablesFormed, ConfsFormed, LiveSet, ToWrkGen;
  }

  /** The row that the daemon works on changes by its cookie and its length writes only. */
  lemma AdvanceRow(s: System, e: Step, s': System)
    requires Inv(s) && s.job.Job? && e.DoAdvance? && Enabled(s, e) && Frame(s, e, s')
    ensures var j := s.job;
      && j.key in s.slots && j.key in s'.slots && SlotsFormed(s.slots[j.key]) && SlotsFormed(s'.slots[j.key]) &&
        j.row < MAX_GENS
      && -1 <= j.free < MAX_SOCKETS_IN_GEN && (j.free < 0 ==> j.at == Found || j.at == IndexSet)
      && s'.slots[j.key].cookies[j.row] ==
           (if j.at == Preserved then s.slots[j.key].cookies[j.row][j.free := j.cookie]
             else s.slots[j.key].cookies[j.row])
      && s'.slots[j.key].maxIdx[j.row] == if j.at == CookieSet then j.len else s.slots[j.key].maxIdx[j.row]
  {
    hide SocketsStep, WorkingStep, LiveStep, Shaped, QueueFormed, SocksFormed, ConfsFormed, Kept, Named, Covering,
      SlotOwned, LiveSet;
  }

  lemma JobIsOpen(s: System, e: Step, s': System)
    requires Inv(s) && s.job.Job? && JobOpen(s.job, s.socks) && s.job.at == Preserved && e.DoAdvance? && Enabled(s, e)
    requires SocketsStep(s, e, s') && JobStep(s, e, s')
    ensures s.job.cookie in OpenSet(s')
  {
    hide Shaped, QueueFormed, SocksFormed, ConfsFormed, TablesFormed, Kept, Named, Covering, SlotOwned, LiveSet,
      ToWrkGen;
  }

  /** A filled row stays filled, whatever step is taken, unless a socket of it is closed. */
  lemma FilledStep(s: System, e: Step, s': System, k: Key, r: nat, n: nat) returns (m: nat)
    requires Inv(s) && Inv(s') && FilledTo(s, k, r, n)
    requires e.DoClose? ==> !Touches(s, k, r, e.c)
    requires Enabled(s, e) && Frame(s, e, s')
    ensures FilledTo(s', k, r, m)
    ensures Open(n, s.job, Here(s.job, k, r)) ==> Open(m, s'.job, Here(s'.job, k, r))
  {
    hide Core, Kept, Formed, Enabled, Frame, LiveSet, OpenSet, PrefixLive, JobOpen;
    m := n;
    if e.DoAdvance? && Here(s.job, k, r) {
      m := FilledNext(s.job, n);
      FilledAdvance(s, e, s', n);
    } else if Here(s'.job, k, r) && !Here(s.job, k, r) {
      FormedOf(s);
      OnlyIdleStarts(s, e, s', k, r);
      FilledStart(s, e, s', n);
      StartFacts(s, e, s');
    } else {
      FilledElsewhere(s, e, s', k, r, n);
    }
  }

  /** The daemon comes to a row only from idleness. */
  lemma OnlyIdleStarts(s: System, e: Step, s': System, k: Key, r: nat)
    requires Inv(s) && Here(s'.job, k, r) && !Here(s.job, k, r)
    requires Enabled(s, e) && Frame(s, e, s')
    ensures s.job == Idle
  {
    hide Core, Kept, Formed, Frame, LiveSet, ToWrkGen;
    FormedOf(s);
    JobFrame(s, e, s');
  }

  // ---- the hand-over, over runs ----

  /** Step `i` begins a registration into row (k, r), none of whose slots names a live socket. */
  ghost predicate StartsEmpty(s: System, s': System, k: Key, r: nat)
    requires Formed(s)
  {
    && s.job == Idle && Here(s'.job, k, r) && k in s.slots && r < MAX_GENS
    && forall i :: 0 <= i < MAX_SOCKETS_IN_GEN ==> s.slots[k].cookies[r][i] !in LiveSet(s)
  }

  /** Row (k, r) was empty when step `i` began to register a socket into it, and none of its sockets
      was closed between then and state `n`. */
  ghost predicate FilledSince(tr: seq<System>, es: seq<Step>, i: nat, n: nat, k: Key, r: nat) {
    && i < n < |tr| == |es| + 1
    && (forall j :: 0 <= j < |tr| ==> Formed(tr[j]))
    && StartsEmpty(tr[i], tr[i + 1], k, r)
    && (forall j :: i < j < n && es[j].DoClose? ==> !Touches(tr[j], k, r, es[j].c))
  }

  /** Socket `d` of the row sees its index: it asked for a generation once and has an index. */
  ghost predicate Confirmed(s: System, k: Key, r: nat, d: Cookie)
    requires Formed(s)
  {
    d in LiveSet(s) && AskedAndSaw(s.socks, d) && k in s.conf && s.socks[d].key == k && RowOf(s, d) == r
  }

  lemma {:induction false} RowFilled(tr: seq<System>, es: seq<Step>, i: nat, n: nat, k: Key, r: nat) returns (cnt: nat)
    requires IsRun(tr, es) && Inv(tr[0]) && FilledSince(tr, es, i, n, k, r)
    ensures Inv(tr[n]) && FilledTo(tr[n], k, r, cnt)
    decreases n
  {
    hide Formed, Core, Kept, Next, Enabled, Frame, LiveSet, FilledTo, Touches;
    RunFrame(tr, es, n - 1);
    if n == i + 1 {
      EmptyIsFilled(tr[i], k, r);
      FilledStart(tr[i], es[i], tr[n], 0);
      cnt := 0;
    } else {
      var c0 := RowFilled(tr, es, i, n - 1, k, r);
      cnt := FilledStep(tr[n - 1], es[n - 1], tr[n], k, r, c0);
    }
  }

  lemma EmptyIsFilled(s: System, k: Key, r: nat)
    requires Formed(s) && k in s.slots && r < MAX_GENS
    requires forall i :: 0 <= i < MAX_SOCKETS_IN_GEN ==> s.slots[k].cookies[r][i] !in LiveSet(s)
    ensures PrefixLive(s.slots[k].cookies[r], 0, LiveSet(s), OpenSet(s))
  {
    hide LiveSet, OpenSet, Shaped, QueueFormed, SocksFormed, ConfsFormed;
  }

  /** One confirmed socket is enough: the row has been announced. */
  lemma ConfirmedOpen(s: System, k: Key, r: nat, n: nat, d: Cookie)
    requires Inv(s) && FirstAsk(s.socks, s.queue, s.job) && FirstSlot(s) && FilledTo(s, k, r, n)
    requires Confirmed(s, k, r, d)
    ensures Open(n, s.job, Here(s.job, k, r))
  {
    hide Core, Kept, Formed, FirstAsk, FirstSlot, LiveSet, OpenSet, RowOf, Asked;
    PolledIndexMeansPlaced(s, d);
    FormedOf(s);
    RowLength(s, k, r);
    var i := s.socks[d].idx;
    assert s.slots[k].cookies[r][i] == d && i < n;
    if Here(s.job, k, r) {
      WrittenSlot(s);
    }
  }

  lemma WrittenSlot(s: System)
    requires Inv(s) && s.job.Job?
    ensures s.job.key in s.slots && SlotsFormed(s.slots[s.job.key]) && s.job.row < MAX_GENS
    ensures s.job.free < MAX_SOCKETS_IN_GEN
    ensures s.job.at == CookieSet && s.job.free >= 0 ==>
      s.slots[s.job.key].cookies[s.job.row][s.job.free] == s.job.cookie
  {
    hide Shaped, QueueFormed, SocksFormed, ConfsFormed, Kept, Named, Covering, LiveSet;
  }

  /** The rules of a hand-over for application `a` of group `k` at step `j`: no socket of the working row
      is closed, and the working row moves only to a row that was filled from empty and has a confirmed
      socket. */
  ghost predicate Disciplined(tr: seq<System>, es: seq<Step>, j: nat, k: Key, a: u32) {
    && j < |es| && |tr| == |es| + 1 && Formed(tr[j]) && Formed(tr[j + 1]) && k in tr[j].conf && k in tr[j + 1].conf
    && (es[j].DoClose? ==> !Touches(tr[j], k, WorkingRow(tr[j], k, a), es[j].c))
    && (WorkingRow(tr[j + 1], k, a) != WorkingRow(tr[j], k, a) ==> Prepared(tr, es, j, k, WorkingRow(tr[j + 1], k, a)))
  }

  ghost predicate Prepared(tr: seq<System>, es: seq<Step>, j: nat, k: Key, r: nat) {
    exists i, d :: FilledSince(tr, es, i, j, k, r) && Confirmed(tr[j], k, r, d)
  }

  lemma PreparedOpen(tr: seq<System>, es: seq<Step>, j: nat, k: Key, r: nat) returns (cnt: nat)
    requires IsRun(tr, es) && tr[0] == Boot && Prepared(tr, es, j, k, r)
    ensures j < |tr| && Inv(tr[j]) && FilledTo(tr[j], k, r, cnt) && Open(cnt, tr[j].job, Here(tr[j].job, k, r))
  {
    hide Formed, Core, Kept, Next, Enabled, LiveSet, FilledTo, FirstAsk, FirstSlot, RowRight, Confirmed;
    var i, d :| FilledSince(tr, es, i, j, k, r) && Confirmed(tr[j], k, r, d);
    InvBoot();
    cnt := RowFilled(tr, es, i, j, k, r);
    RunFirst(tr, es, j);
    ConfirmedOpen(tr[j], k, r, cnt, d);
  }

  /** A hand-over that keeps the rules loses nothing: from the first prepared working row on, the working
      row is filled and announced in every state of the run. */
  lemma {:induction false} WorkingRowFilled(tr: seq<System>, es: seq<Step>, m: nat, n: nat, k: Key, a: u32)
    returns (cnt: nat)
    requires IsRun(tr, es) && tr[0] == Boot && m <= n < |tr| && Formed(tr[m]) && k in tr[m].conf
    requires Prepared(tr, es, m, k, WorkingRow(tr[m], k, a))
    requires forall j :: m <= j < n ==> Disciplined(tr, es, j, k, a)
    ensures Inv(tr[n]) && k in tr[n].conf && FilledTo(tr[n], k, WorkingRow(tr[n], k, a), cnt)
    ensures Open(cnt, tr[n].job, Here(tr[n].job, k, WorkingRow(tr[n], k, a)))
    decreases n
  {
    hide Formed, Core, Kept, Next, Enabled, Frame, FilledTo, Prepared, Touches, WorkingRow;
    if n == m {
      cnt := PreparedOpen(tr, es, m, k, WorkingRow(tr[m], k, a));
    } else {
      InvBoot();
      RunFrame(tr, es, n - 1);
      assert Disciplined(tr, es, n - 1, k, a);
      var row := WorkingRow(tr[n], k, a);
      var c0 := WorkingRowFilled(tr, es, m, n - 1, k, a);
      if row != WorkingRow(tr[n - 1], k, a) {
        c0 := PreparedOpen(tr, es, n - 1, k, row);
        WorkingMovesByCall(tr[n - 1], es[n - 1], tr[n], k, a);
      }
      cnt := FilledStep(tr[n - 1], es[n - 1], tr[n], k, row, c0);
    }
  }

  lemma WorkingMovesByCall(s: System, e: Step, s': System, k: Key, a: u32)
    requires Formed(s) && Formed(s') && k in s.conf && k in s'.conf && WorkingRow(s', k, a) != WorkingRow(s, k, a)
    requires Enabled(s, e) && Frame(s, e, s')
    ensures e.DoSetWorkingGen?
  {
    hide Shaped, QueueFormed, SocksFormed, TablesFormed, JobFormed, ToWrkGen, SocketsStep, LiveStep, HookFrame,
      DaemonFrame, Enabled;
    DissectorStays(s, e, s', k);
  }

  /** Zero loss: whatever a packet's hash, and between whichever writes of the daemon it arrives, a new flow
      of the application is dispatched to a live socket of the group, and of that application if no call ever changed
      the application of a socket that owned something. */
  lemma ZeroLoss(tr: seq<System>, es: seq<Step>, m: nat, n: nat, k: Key, a: u32, p: Packet, now: u64)
    requires IsRun(tr, es) && tr[0] == Boot && m <= n < |tr| && Formed(tr[m]) && k in tr[m].conf
    requires Prepared(tr, es, m, k, WorkingRow(tr[m], k, a))
    requires forall j :: m <= j < n ==> Disciplined(tr, es, j, k, a)
    ensures Formed(tr[n]) && k in tr[n].conf
    ensures var path := PathOf(tr[n], k, p, now);
      path.Fresh? && path.app == a ==>
        && path.third.DispatchOk? && path.third.c in LiveSet(tr[n]) && tr[n].socks[path.third.c].key == k
        && (TameRun(tr, es) && ValidApp(tr[n].conf[k].dis.maxApps, a) ==> tr[n].socks[path.third.c].app == a)
    ensures var path := PathOf(tr[n], k, p, now);
      path.Fresh? && path.app == a ==> CountRx(tr[n].conf[k].rx, path).dispatchError == tr[n].conf[k].rx.dispatchError
  {
    hide Formed, Core, Kept, Next, Enabled, FilledTo, Prepared, WorkingRow, Isolated, Disciplined, TameRun, LiveSet,
      PathOf, ThirdOf;
    var cnt := WorkingRowFilled(tr, es, m, n, k, a);
    FormedOf(tr[n]);
    PathThird(tr[n], k, p, now);
    FilledDispatches(tr[n], k, a, cnt, p.mdHash);
    ChosenOf(tr[n], k, a, p.mdHash);
    if TameRun(tr, es) && ValidApp(tr[n].conf[k].dis.maxApps, a) {
      RunIsolated(tr, es, n);
      AppReached(tr[n], k, a, p.mdHash);
    }
  }

  lemma PathThird(s: System, k: Key, p: Packet, now: u64)
    requires Formed(s) && k in s.conf
    ensures var path := PathOf(s, k, p, now); path.Fresh? ==> path.third == ThirdOf(s, k, path.app, p.mdHash)
  {
    hide Formed, ThirdOf, SecondByHash, SecondByCookie, CookieSought, Kind;
  }

  lemma ChosenOf(s: System, k: Key, a: u32, mdHash: u32)
    requires Formed(s) && k in s.conf
    ensures var third := ThirdOf(s, k, a, mdHash); third.DispatchOk? ==>
      third.c in LiveSet(s) && s.socks[third.c].key == k
  {
    hide NewFlowTarget, Shaped, QueueFormed, SocksFormed, TablesFormed;
  }
}
