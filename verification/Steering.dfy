/** The steering protocol as a state machine: applications, kernel hooks, daemon and packets.
    One step is one hook call, one packet, one close, or one write of the daemon. */
module Steering {
  import opened Words
  import opened GrmCookie
  import opened Allocator
  import opened Tubular

  type Key = nat

  const DISSECTOR_FLOW: u32 := 0
  const DISSECTOR_CBPF: u32 := 1
  const DISSECTOR_BESPOKE: u32 := 3
  const DISSECTOR_NOOP: u32 := 4
  const FLOW_DEFAULT_TIMEOUT_SEC: u32 := 125
  const SECOND: nat := 1_000_000_000

  const IERR_OK: int := 0
  const IERR_LOAD: int := -2
  const IERR_BADRETURNVALUE: int := -6

  // ---- configuration ----

  datatype Dissector = Dissector(
    typ: u32, timeoutSec: u32, maxApps: u32, digest: u32, tag: seq<u8>, filterLen: u32, body: seq<u8>)

  const EmptyDissector := Dissector(0, 0, 0, 0, [], 0, [])

  /** DISSECTOR_TYPE: the type without the verbose bit, bit 15. */
  function Kind(typ: u32): u32 {
    typ / 0x1_0000 * 0x1_0000 + typ % 0x8000
  }

  predicate Verbose(typ: u32) {
    typ / 0x8000 % 2 == 1
  }

  /** dissector_cmp: all bytes agree, the verbose bit aside. */
  predicate SameDissector(a: Dissector, b: Dissector) {
    Kind(a.typ) == Kind(b.typ) && a.(typ := 0) == b.(typ := 0)
  }

  /** The check of a group's first dissector. A BESPOKE one is never refused. */
  predicate Accepts(d: Dissector) {
    var kind := Kind(d.typ);
    if kind == DISSECTOR_FLOW || kind == DISSECTOR_NOOP then
      d.filterLen == 0 && d.maxApps == 0 && d.digest == 0
    else if kind == DISSECTOR_CBPF then
      1 <= d.filterLen <= MAX_INSTR && d.maxApps <= MAX_APPS && d.digest == 0
    else kind == DISSECTOR_BESPOKE
  }

  predicate Labelled(d: Dissector) {
    |d.tag| > 0 && d.tag[0] != 0
  }

  function TimeoutNs(d: Dissector): nat {
    (if d.timeoutSec == 0 then FLOW_DEFAULT_TIMEOUT_SEC else d.timeoutSec) * SECOND
  }

  // ---- state ----

  datatype Rx = Rx(
    processed: nat, internalError: nat, progError: nat, tooShort: nat, dissected: nat,
    flowOk: nat, rgConflict: nat, otherError: nat, newUnseen: nat, hadExpired: nat, badCookie: nat,
    newFlow: nat, dispatchOk: nat, dispatchError: nat)

  datatype Tx = Tx(
    total: nat, createOk: nat, createFromExpired: nat, createError: nat, updateOk: nat, updateConflict: nat)

  const ZeroRx := Rx(0, 0, 0, 0, 0, 0, 0, 0, 0, 0, 0, 0, 0, 0)
  const ZeroTx := Tx(0, 0, 0, 0, 0, 0)

  /** A reuseport group without its slot table. */
  datatype Conf = Conf(
    netns: nat, randomId: u32, verbose: bool, dis: Dissector, workingGen: seq<u32>, rx: Rx, tx: Tx)

  /** The slot table of a reuseport group. */
  datatype Slots = Slots(maxIdx: seq<nat>, cookies: seq<Row>)

  /** Per-socket storage. `changes` counts the generation requests and, from the first request on, the binds;
      `appOpen` says that the application still has a descriptor. */
  datatype Sock = Sock(key: Key, netns: nat, gen: u32, idx: u32, app: u32, changes: nat, appOpen: bool)

  datatype Msg =
    | RegisterMsg(key: Key, cookie: Cookie, gen: u32, app: u32)
    | WorkingMsg(key: Key, app: u32, gen: u32)
    | DissectorMsg(key: Key)

  /** The last write of the registration in progress. */
  datatype Stage = Found | Hashed | Preserved | CookieSet | MaxSet | IndexSet

  /** What the daemon is doing. `free` is -1 when the row is full; `kept` says that the table
      for Tubular took the descriptor over. */
  datatype Job =
    | Idle
    | Job(key: Key, cookie: Cookie, gen: u32, app: u32, fd: int, row: nat, free: int, len: nat,
          kept: bool, at: Stage)

  datatype Flow = Flow(lastTx: u64, cookie: Cookie)

  datatype System = System(
    socks: map<Cookie, Sock>, hashed: set<Cookie>, conf: map<Key, Conf>, slots: map<Key, Slots>,
    queue: seq<Msg>, job: Job, fds: map<int, Cookie>, tub: Table, flows: map<u32, Flow>, clock: u64)

  const Boot := System(map[], {}, map[], map[], [], Idle, map[], map[], map[], 0)

  ghost predicate SlotsFormed(t: Slots) {
    && |t.maxIdx| == MAX_GENS && |t.cookies| == MAX_GENS
    && (forall g :: 0 <= g < MAX_GENS ==> t.maxIdx[g] <= MAX_SOCKETS_IN_GEN)
    && (forall g :: 0 <= g < MAX_GENS ==> |t.cookies[g]| == MAX_SOCKETS_IN_GEN)
  }

  ghost predicate ConfFormed(g: Conf) {
    |g.workingGen| == MAX_APPS && g.dis.maxApps <= MAX_APPS
  }

  ghost predicate ConfsFormed(conf: map<Key, Conf>) {
    forall k :: k in conf ==> ConfFormed(conf[k])
  }

  ghost predicate TablesFormed(slots: map<Key, Slots>) {
    forall k :: k in slots ==> SlotsFormed(slots[k])
  }

  ghost predicate SocksFormed(socks: map<Cookie, Sock>) {
    forall c :: c in socks ==> 0 < c < TWO64 - 2
  }

  ghost predicate MsgFormed(m: Msg, keys: set<Key>, socks: map<Cookie, Sock>) {
    m.key in keys && (m.RegisterMsg? ==> m.cookie in socks && socks[m.cookie].key == m.key)
  }

  ghost predicate QueueFormed(queue: seq<Msg>, keys: set<Key>, socks: map<Cookie, Sock>) {
    forall i :: 0 <= i < |queue| ==> MsgFormed(queue[i], keys, socks)
  }

  ghost predicate JobFormed(j: Job, keys: set<Key>, socks: map<Cookie, Sock>) {
    j.Job? ==>
      && j.key in keys && j.cookie in socks && socks[j.cookie].key == j.key
      && j.row < MAX_GENS && -1 <= j.free < j.len <= MAX_SOCKETS_IN_GEN
      && (j.free < 0 ==> j.at == Found || j.at == IndexSet)
  }

  /** The shape that every reachable state has. */
  ghost predicate Formed(s: System) {
    && s.conf.Keys == s.slots.Keys
    && ConfsFormed(s.conf)
    && TablesFormed(s.slots)
    && SocksFormed(s.socks)
    && s.hashed <= s.socks.Keys
    && QueueFormed(s.queue, s.conf.Keys, s.socks)
    && JobFormed(s.job, s.conf.Keys, s.socks)
    && Shaped(s.tub)
  }

  // ---- liveness and socket selection ----

  /** A socket lives while the application or the daemon has a descriptor for it. */
  predicate Live(s: System, c: Cookie) {
    c in s.socks && (s.socks[c].appOpen || exists fd :: fd in s.fds && s.fds[fd] == c)
  }

  /** The sockhash: the registered sockets that live. */
  function LiveSet(s: System): (live: set<Cookie>)
    ensures forall c :: c in live <==> c in s.hashed && Live(s, c)
  {
    set c | c in s.hashed && Live(s, c)
  }

  datatype Select = Chosen | OtherGroup | Missing

  /** bpf_sk_select_reuseport on behalf of group `k`. */
  function SelectSocket(s: System, k: Key, c: Cookie): Select {
    if c !in LiveSet(s) then Missing else if s.socks[c].key == k then Chosen else OtherGroup
  }

  // ---- bind and close ----

  /** The number of changes after a bind. */
  function Later(changes: nat): nat {
    if changes == 0 then 0 else changes + 1
  }

  /** The bind hook: storage is created once, generation and index are reset every time. */
  function Bind(s: System, c: Cookie, key: Key, netns: nat): System {
    if c in s.socks then
      s.(socks := s.socks[c := s.socks[c].(gen := UNSET, idx := UNSET, changes := Later(s.socks[c].changes))])
    else
      s.(socks := s.socks[c := Sock(key, netns, UNSET, UNSET, 0, 0, true)])
  }

  /** The application closes its last descriptor of a socket. */
  function Close(s: System, c: Cookie): System
    requires c in s.socks
  {
    s.(socks := s.socks[c := s.socks[c].(appOpen := false)])
  }

  // ---- setsockopt ----

  datatype Errno = OK | EBADF | EAGAIN | EPERM | EEXIST | EOVERFLOW

  datatype Reply = Reply(s: System, err: Errno)

  datatype Entry = Refused | Entered(s: System, created: bool)

  function NewConf(netns: nat, randomId: u32): Conf {
    Conf(netns, randomId, false, EmptyDissector, [0, 0, 0, 0], ZeroRx, ZeroTx)
  }

  function EmptySlots(): (t: Slots)
    ensures SlotsFormed(t)
    ensures forall g, i :: 0 <= g < MAX_GENS && 0 <= i < MAX_SOCKETS_IN_GEN ==> t.cookies[g][i] == 0
  {
    Slots(seq(MAX_GENS, _ => 0), seq(MAX_GENS, _ => seq(MAX_SOCKETS_IN_GEN, _ => 0)))
  }

  /** What every call does first: find the socket's storage, find or create the group, compare
      the network namespaces. `rid` is the new group's random id, None when the map is full. */
  function Enter(s: System, c: Cookie, rid: Option<u32>): (e: Entry)
    requires Formed(s)
    ensures e.Entered? ==> Formed(e.s) && c in e.s.socks && e.s.socks[c].key in e.s.conf
  {
    hide Shaped;
    if c !in s.socks then Refused else
    var sock := s.socks[c];
    if sock.key in s.conf then
      if s.conf[sock.key].netns == sock.netns then Entered(s, false) else Refused
    else if rid.None? then Refused
    else Entered(s.(conf := s.conf[sock.key := NewConf(sock.netns, rid.value)],
                    slots := s.slots[sock.key := EmptySlots()]), true)
  }

  /** UDP_GRM_WORKING_GEN. `full` says that the message ring has no room. */
  function SetWorkingGen(s: System, c: Cookie, gen: u32, rid: Option<u32>, full: bool): Reply
    requires Formed(s)
  {
    match Enter(s, c, rid)
    case Refused => Reply(s, EBADF)
    case Entered(s1, _) =>
      if full then Reply(s1, EAGAIN) else
      var k, app := s1.socks[c].key, s1.socks[c].app % MAX_APPS;
      var g := s1.conf[k];
      Reply(s1.(conf := s1.conf[k := g.(workingGen := g.workingGen[app := gen])],
                queue := s1.queue + [WorkingMsg(k, app, gen)]), OK)
  }

  /** UDP_GRM_SOCKET_GEN: a new generation, or a first index, is asked for by message. */
  function SetSocketGen(s: System, c: Cookie, gen: u32, rid: Option<u32>, full: bool): Reply
    requires Formed(s)
  {
    match Enter(s, c, rid)
    case Refused => Reply(s, EBADF)
    case Entered(s1, _) =>
      var sock := s1.socks[c];
      if sock.gen == gen && sock.idx != UNSET then Reply(s1, OK)
      else if full then Reply(s1, EAGAIN)
      else Reply(s1.(socks := s1.socks[c := sock.(gen := gen, changes := sock.changes + 1)],
                     queue := s1.queue + [RegisterMsg(sock.key, c, gen, sock.app)]), OK)
  }

  /** UDP_GRM_DISSECTOR: accepted once, later only compared. */
  function SetDissector(s: System, c: Cookie, d: Dissector, rid: Option<u32>, full: bool): Reply
    requires Formed(s)
  {
    match Enter(s, c, rid)
    case Refused => Reply(s, EBADF)
    case Entered(s1, created) =>
      var k := s1.socks[c].key;
      var g := s1.conf[k];
      if !created then
        if SameDissector(g.dis, d) then Reply(s1.(conf := s1.conf[k := g.(verbose := Verbose(d.typ))]), OK)
        else Reply(s1, EPERM)
      else if !Accepts(d) then Reply(s, EPERM)
      else if full then Reply(s1, EAGAIN)
      else Reply(s1.(conf := s1.conf[k := g.(dis := d.(typ := Kind(d.typ)), verbose := Verbose(d.typ))],
                     queue := s1.queue + [DissectorMsg(k)]), OK)
  }

  /** The socket's group exists and lies in the socket's network namespace. */
  predicate Reaches(s: System, c: Cookie) {
    c in s.socks && s.socks[c].key in s.conf && s.conf[s.socks[c].key].netns == s.socks[c].netns
  }

  /** UDP_GRM_SOCKET_APP would change the application of socket `c`. */
  predicate AppChange(s: System, c: Cookie, app: u32) {
    && Reaches(s, c) && s.socks[c].app != app && s.socks[c].gen == UNSET && s.socks[c].idx == UNSET
    && app < s.conf[s.socks[c].key].dis.maxApps
  }

  /** UDP_GRM_SOCKET_APP: only before the socket has a generation or an index. */
  function SetSocketApp(s: System, c: Cookie, app: u32, rid: Option<u32>): Reply
    requires Formed(s)
  {
    match Enter(s, c, rid)
    case Refused => Reply(s, EBADF)
    case Entered(s1, _) =>
      var sock := s1.socks[c];
      if sock.app == app then Reply(s1, OK)
      else if sock.gen != UNSET || sock.idx != UNSET then Reply(s1, EEXIST)
      else if app >= s1.conf[sock.key].dis.maxApps then Reply(s1, EOVERFLOW)
      else Reply(s1.(socks := s1.socks[c := sock.(app := app)]), OK)
  }

  /** The row that a socket's generation falls into. */
  function RowOf(s: System, c: Cookie): (row: nat)
    requires Formed(s) && c in s.socks && s.socks[c].key in s.conf
    ensures row < MAX_GENS
  {
    ToWrkGen(s.conf[s.socks[c].key].dis.maxApps, s.socks[c].app, s.socks[c].gen) % MAX_GENS
  }

  /** The udpgrm cookie that getsockopt UDP_GRM_SOCKET_GEN reports. */
  function ReportedCookie(s: System, c: Cookie): u16
    requires Formed(s) && c in s.socks && s.socks[c].key in s.conf
  {
    Pack(ToWrkGen(s.conf[s.socks[c].key].dis.maxApps, s.socks[c].app, s.socks[c].gen), s.socks[c].idx)
  }

  // ---- the flow table ----

  datatype TxOutcome = CreateOk | CreateFromExpired | CreateError | UpdateOk | UpdateConflict

  /** A clock difference in unsigned 64-bit arithmetic. */
  function Age(now: u64, then_: u64): nat {
    (now - then_) % TWO64
  }

  /** What flow_assure by socket `c` finds under hash `h`. `insertFails` is the outcome of inserting a new entry. */
  function TxOutcomeOf(flows: map<u32, Flow>, timeout: nat, c: Cookie, h: u32, now: u64, insertFails: bool): TxOutcome {
    if h !in flows then (if insertFails then CreateError else CreateOk)
    else if Age(now, flows[h].lastTx) > timeout then CreateFromExpired
    else if flows[h].cookie == c then UpdateOk else UpdateConflict
  }

  /** The flow table afterwards. `now` and `later` are the two clock readings. */
  function FlowsAfter(flows: map<u32, Flow>, o: TxOutcome, c: Cookie, h: u32, now: u64, later: u64): map<u32, Flow> {
    match o
    case CreateError => flows
    case UpdateConflict => flows
    case CreateFromExpired => flows[h := Flow(later, c)]
    case _ => flows[h := Flow(now, c)]
  }

  function CountTx(t: Tx, o: TxOutcome): Tx {
    var u := t.(total := t.total + 1);
    match o
    case CreateOk => u.(createOk := u.createOk + 1)
    case CreateFromExpired => u.(createOk := u.createOk + 1, createFromExpired := u.createFromExpired + 1)
    case CreateError => u.(createError := u.createError + 1)
    case UpdateOk => u.(updateOk := u.updateOk + 1)
    case UpdateConflict => u.(updateConflict := u.updateConflict + 1)
  }

  /** flow_assure by socket `c` of group `k`. */
  function FlowAssure(s: System, k: Key, c: Cookie, h: u32, now: u64, later: u64, insertFails: bool): System
    requires Formed(s) && k in s.conf
  {
    var o := TxOutcomeOf(s.flows, TimeoutNs(s.conf[k].dis), c, h, now, insertFails);
    s.(conf := s.conf[k := s.conf[k].(tx := CountTx(s.conf[k].tx, o))], clock := later,
       flows := FlowsAfter(s.flows, o, c, h, now, later))
  }

  /** UDP_GRM_FLOW_ASSURE. `h` is the hash of the address, None for an unknown family. */
  function AssureCall(s: System, c: Cookie, h: Option<u32>, rid: Option<u32>, now: u64, later: u64,
      insertFails: bool): Reply
    requires Formed(s)
  {
    match Enter(s, c, rid)
    case Refused => Reply(s, EBADF)
    case Entered(s1, _) =>
      var k := s1.socks[c].key;
      if Kind(s1.conf[k].dis.typ) != DISSECTOR_FLOW || h.None? then Reply(s1, EPERM) else
      var o := TxOutcomeOf(s1.flows, TimeoutNs(s1.conf[k].dis), c, h.value, now, insertFails);
      Reply(FlowAssure(s1, k, c, h.value, now, later, insertFails),
            if o.CreateError? || o.UpdateConflict? then EEXIST else OK)
  }

  /** The sendmsg hook: never refuses, and does nothing outside a FLOW group. */
  function SendMsg(s: System, c: Cookie, h: u32, now: u64, later: u64, insertFails: bool): System
    requires Formed(s)
  {
    if c in s.socks && s.socks[c].key in s.conf && Kind(s.conf[s.socks[c].key].dis.typ) == DISSECTOR_FLOW
    then FlowAssure(s, s.socks[c].key, c, h, now, later, insertFails)
    else s
  }

  // ---- the packet program ----

  /** The result of the group's cBPF or bespoke program on a packet. */
  datatype Ran = Ran(code: int, retval: int)

  /** What a packet brings: the kernel's hash, the flow hash (None when it cannot be read), and
      the program's result. */
  datatype Packet = Packet(mdHash: u32, flow: Option<u32>, ran: Ran)

  datatype Dissected = DissectError(code: int) | NewFlow(app: u32) | HasCookie(grm: u16)

  /** dissector_cbpf: a return value is an application number, a cookie, or "new flow". */
  function DissectCbpf(maxApps: u32, ran: Ran): Dissected {
    if ran.code != IERR_OK then
      (if ran.code == IERR_BADRETURNVALUE then NewFlow(0) else DissectError(ran.code))
    else
      var app := (ran.retval - 0x8000_0000) % TWO32;
      if app < maxApps then NewFlow(app)
      else if ran.retval < 0 || ran.retval > 0xffff then NewFlow(0)
      else HasCookie(ran.retval)
  }

  const NO_COOKIE: u64 := TWO64 - 1
  const BAD_CHECKSUM: u64 := TWO64 - 2

  datatype Second = FlowOk(c: Cookie) | RgConflict | OtherError | Unseen(expired: bool, badCookie: bool)
  datatype Third = DispatchOk(c: Cookie) | DispatchError

  /** The way of a packet through the three stages. */
  datatype Path =
    | InternalError | TooShort | ProgError
    | Existing(c: Cookie)
    | Fresh(second: Second, app: u32, third: Third)

  function SecondByHash(s: System, k: Key, h: u32, now: u64): Second
    requires Formed(s) && k in s.conf
  {
    if h in s.flows && Age(now, s.flows[h].lastTx) <= TimeoutNs(s.conf[k].dis) then
      match SelectSocket(s, k, s.flows[h].cookie)
      case Chosen => FlowOk(s.flows[h].cookie)
      case OtherGroup => RgConflict
      case Missing => OtherError
    else Unseen(h in s.flows, false)
  }

  /** The socket cookie that a program result leads to. */
  function CookieSought(s: System, k: Key, d: Dissected): Cookie
    requires Formed(s) && k in s.conf && !d.DissectError?
  {
    match d
    case NewFlow(_) => NO_COOKIE
    case HasCookie(grm) =>
      match Unpack(grm)
      case None => BAD_CHECKSUM
      case Some((gen, idx)) => s.slots[k].cookies[gen % MAX_GENS][idx % MAX_SOCKETS_IN_GEN]
  }

  function SecondByCookie(s: System, k: Key, c: Cookie): Second {
    match SelectSocket(s, k, c)
    case Chosen => FlowOk(c)
    case OtherGroup => RgConflict
    case Missing =>
      if c == NO_COOKIE || c == 0 || c == BAD_CHECKSUM then Unseen(false, c == BAD_CHECKSUM) else OtherError
  }

  /** The working row of an application. */
  function WorkingRow(s: System, k: Key, app: u32): (row: nat)
    requires Formed(s) && k in s.conf
    ensures row < MAX_GENS
  {
    ToWrkGen(s.conf[k].dis.maxApps, app, s.conf[k].workingGen[app % MAX_APPS]) % MAX_GENS
  }

  /** eBPF modulo: x % 0 is x. */
  function BpfMod(x: nat, y: nat): nat {
    if y == 0 then x else x % y
  }

  /** The socket cookie that a new flow of application `app` is sent to. */
  function NewFlowTarget(s: System, k: Key, app: u32, mdHash: u32): Cookie
    requires Formed(s) && k in s.conf
  {
    var row := WorkingRow(s, k, app);
    s.slots[k].cookies[row][BpfMod(mdHash, s.slots[k].maxIdx[row]) % MAX_SOCKETS_IN_GEN]
  }

  function ThirdOf(s: System, k: Key, app: u32, mdHash: u32): Third
    requires Formed(s) && k in s.conf
  {
    var c := NewFlowTarget(s, k, app, mdHash);
    if SelectSocket(s, k, c) == Chosen then DispatchOk(c) else DispatchError
  }

  function Join(s: System, k: Key, second: Second, app: u32, mdHash: u32): Path
    requires Formed(s) && k in s.conf
  {
    if second.FlowOk? then Existing(second.c) else Fresh(second, app, ThirdOf(s, k, app, mdHash))
  }

  /** The whole packet program, without its counters. */
  function PathOf(s: System, k: Key, p: Packet, now: u64): Path
    requires Formed(s) && k in s.conf
  {
    var kind := Kind(s.conf[k].dis.typ);
    if kind == DISSECTOR_FLOW then
      if p.flow.None? then TooShort else Join(s, k, SecondByHash(s, k, p.flow.value, now), 0, p.mdHash)
    else if kind == DISSECTOR_CBPF || kind == DISSECTOR_BESPOKE then
      var d := DissectCbpf(s.conf[k].dis.maxApps, p.ran);
      if d.DissectError? then (if d.code == IERR_LOAD then TooShort else ProgError)
      else Join(s, k, SecondByCookie(s, k, CookieSought(s, k, d)), if d.NewFlow? then d.app else 0, p.mdHash)
    else if kind == DISSECTOR_NOOP then
      Join(s, k, Unseen(false, false), 0, p.mdHash)
    else InternalError
  }

  function B(b: bool): nat { if b then 1 else 0 }

  /** The counters after one packet that took `path`. */
  function CountRx(r: Rx, path: Path): Rx {
    var isNew := path.Fresh?;
    Rx(processed := r.processed + 1,
       internalError := r.internalError + B(path.InternalError?),
       progError := r.progError + B(path.ProgError?),
       tooShort := r.tooShort + B(path.TooShort?),
       dissected := r.dissected + B(path.Existing? || isNew),
       flowOk := r.flowOk + B(path.Existing?),
       rgConflict := r.rgConflict + B(isNew && path.second.RgConflict?),
       otherError := r.otherError + B(isNew && path.second.OtherError?),
       newUnseen := r.newUnseen + B(isNew && path.second.Unseen?),
       hadExpired := r.hadExpired + B(isNew && path.second.Unseen? && path.second.expired),
       badCookie := r.badCookie + B(isNew && path.second.Unseen? && path.second.badCookie),
       newFlow := r.newFlow + B(isNew),
       dispatchOk := r.dispatchOk + B(isNew && path.third.DispatchOk?),
       dispatchError := r.dispatchError + B(isNew && path.third.DispatchError?))
  }

  function Receive(s: System, k: Key, p: Packet, now: u64): System
    requires Formed(s)
  {
    if k !in s.conf then s else
    s.(conf := s.conf[k := s.conf[k].(rx := CountRx(s.conf[k].rx, PathOf(s, k, p, now)))], clock := now)
  }

  // ---- the daemon ----

  function CloseFds(s: System, gone: set<int>): System {
    s.(fds := s.fds - gone)
  }

  /** A registration starts: the daemon holds descriptor `fd` of the socket, and has scanned the
      row for a free slot. */
  function StartRegistration(s: System, m: Msg, fd: int): System
    requires Formed(s) && m.RegisterMsg? && m.key in s.conf
  {
    var row := ToWrkGen(s.conf[m.key].dis.maxApps, m.app, m.gen) % MAX_GENS;
    var cookies := s.slots[m.key].cookies[row];
    s.(fds := s.fds[fd := m.cookie],
       job := Job(m.key, m.cookie, m.gen, m.app, fd, row, FreePos(cookies, LiveSet(s)), GenLen(cookies, LiveSet(s)),
                  false, Found))
  }

  /** A working-generation message: the row is offered to Tubular and its descriptors closed. */
  function OfferRow(s: System, m: Msg): System
    requires Formed(s) && m.WorkingMsg? && m.key in s.conf
  {
    if !Labelled(s.conf[m.key].dis) then s else
    var rid, row := s.conf[m.key].randomId, m.gen % MAX_GENS;
    CloseFds(s.(tub := Register(s.tub, rid, row)), Registered(s.tub, rid, row))
  }

  function PopMessage(s: System): (s': System)
    requires Formed(s) && s.queue != []
    ensures Formed(s') && s'.conf == s.conf
  {
    hide Shaped, ConfsFormed, TablesFormed;
    assert forall i :: 0 <= i < |s.queue[1..]| ==> s.queue[1..][i] == s.queue[i + 1];
    s.(queue := s.queue[1..])
  }

  /** The daemon takes the next message. For a registration `fd` is the descriptor it obtained,
      None when the process or the socket is gone. */
  function TakeMessage(s: System, fd: Option<int>): System
    requires Formed(s) && s.job == Idle && s.queue != []
  {
    var m := s.queue[0];
    assert MsgFormed(m, s.conf.Keys, s.socks);
    if m.RegisterMsg? && fd.Some? then StartRegistration(PopMessage(s), m, fd.value)
    else if m.WorkingMsg? then OfferRow(PopMessage(s), m)
    else PopMessage(s)
  }

  /** The stage that follows. */
  function After(j: Job): Stage
    requires j.Job?
  {
    match j.at
    case Found => if j.free < 0 then IndexSet else Hashed
    case Hashed => Preserved
    case Preserved => CookieSet
    case CookieSet => MaxSet
    case _ => IndexSet
  }

  function SetSlot(t: Slots, row: nat, i: nat, c: Cookie): (r: Slots)
    requires SlotsFormed(t) && row < MAX_GENS && i < MAX_SOCKETS_IN_GEN
    ensures SlotsFormed(r) && r.maxIdx == t.maxIdx
    ensures forall g, j :: 0 <= g < MAX_GENS && 0 <= j < MAX_SOCKETS_IN_GEN ==>
      r.cookies[g][j] == if g == row && j == i then c else t.cookies[g][j]
  {
    var cells: Row := t.cookies[row][i := c];
    t.(cookies := t.cookies[row := cells])
  }

  function SetLength(t: Slots, row: nat, len: nat): (r: Slots)
    requires SlotsFormed(t) && row < MAX_GENS && len <= MAX_SOCKETS_IN_GEN
    ensures SlotsFormed(r) && r.cookies == t.cookies
  {
    t.(maxIdx := t.maxIdx[row := len])
  }

  /** The socket goes into the sockhash, unless the row is full. */
  function InsertHash(s: System): System
    requires Formed(s) && s.job.Job? && s.job.at == Found
  {
    if s.job.free < 0 then s.(job := s.job.(at := IndexSet))
    else s.(hashed := s.hashed + {s.job.cookie}, job := s.job.(at := Hashed))
  }

  /** The descriptor of a labelled group is kept for Tubular. */
  function KeepFd(s: System, now: u64): System
    requires Formed(s) && s.job.Job? && s.job.at == Hashed
  {
    var j := s.job;
    if !Labelled(s.conf[j.key].dis) then s.(job := j.(at := Preserved)) else
    var rid := s.conf[j.key].randomId;
    CloseFds(s.(tub := Preserve(s.tub, rid, j.row, j.len, j.free, j.fd, now),
                job := j.(kept := true, at := Preserved), clock := now),
             Replaced(s.tub, rid, j.row, j.free))
  }

  function WriteCookie(s: System): System
    requires Formed(s) && s.job.Job? && s.job.at == Preserved
  {
    var j := s.job;
    s.(slots := s.slots[j.key := SetSlot(s.slots[j.key], j.row, j.free, j.cookie)], job := j.(at := CookieSet))
  }

  function WriteLength(s: System): System
    requires Formed(s) && s.job.Job? && s.job.at == CookieSet
  {
    var j := s.job;
    s.(slots := s.slots[j.key := SetLength(s.slots[j.key], j.row, j.len)], job := j.(at := MaxSet))
  }

  function WriteIndex(s: System): System
    requires Formed(s) && s.job.Job? && s.job.at == MaxSet
  {
    var j := s.job;
    s.(socks := s.socks[j.cookie := s.socks[j.cookie].(idx := j.free)], job := j.(at := IndexSet))
  }

  /** The descriptor is closed, unless it was kept. */
  function Finish(s: System): System
    requires Formed(s) && s.job.Job? && s.job.at == IndexSet
  {
    CloseFds(s.(job := Idle), if s.job.kept then {} else {s.job.fd})
  }

  /** The next write of the registration in progress. */
  function Advance(s: System, now: u64): System
    requires Formed(s) && s.job.Job?
  {
    match s.job.at
    case Found => InsertHash(s)
    case Hashed => KeepFd(s, now)
    case Preserved => WriteCookie(s)
    case CookieSet => WriteLength(s)
    case MaxSet => WriteIndex(s)
    case IndexSet => Finish(s)
  }

  /** The periodic clean-up, between two messages. */
  function CleanupStale(s: System, now: u64): System
    requires Formed(s) && s.job == Idle
  {
    CloseFds(s.(tub := Cleanup(s.tub, now), clock := now), CleanedUp(s.tub, now))
  }

  // ---- steps ----

  datatype Step =
    | DoBind(c: Cookie, key: Key, netns: nat)
    | DoClose(c: Cookie)
    | DoSetWorkingGen(c: Cookie, gen: u32, rid: Option<u32>, full: bool)
    | DoSetSocketGen(c: Cookie, gen: u32, rid: Option<u32>, full: bool)
    | DoSetDissector(c: Cookie, dis: Dissector, rid: Option<u32>, full: bool)
    | DoSetSocketApp(c: Cookie, app: u32, rid: Option<u32>)
    | DoAssure(c: Cookie, h: Option<u32>, rid: Option<u32>, now: u64, later: u64, insertFails: bool)
    | DoSend(c: Cookie, hash: u32, now: u64, later: u64, insertFails: bool)
    | DoReceive(key: Key, packet: Packet, now: u64)
    | DoTakeMessage(fd: Option<int>)
    | DoAdvance(now: u64)
    | DoCleanup(now: u64)
    | DoEvict(hash: u32)

  /** The environment's side: cookies are unique and in range, clocks do not run backwards, a
      descriptor number is free when it is handed out and belongs to a socket the application
      has open, random ids of groups differ, and a BESPOKE dissector keeps the application limit. */
  ghost predicate Enabled(s: System, e: Step)
    requires Formed(s)
  {
    match e
    case DoBind(c, _, _) => 0 < c < TWO64 - 2
    case DoClose(c) => c in s.socks && s.socks[c].appOpen
    case DoSetWorkingGen(_, _, rid, _) => FreshId(s, rid)
    case DoSetSocketGen(_, _, rid, _) => FreshId(s, rid)
    case DoSetDissector(_, d, rid, _) => FreshId(s, rid) && (Kind(d.typ) == DISSECTOR_BESPOKE ==> d.maxApps <= MAX_APPS)
    case DoSetSocketApp(_, _, rid) => FreshId(s, rid)
    case DoAssure(_, _, rid, now, later, _) => FreshId(s, rid) && s.clock <= now <= later
    case DoSend(_, _, now, later, _) => s.clock <= now <= later
    case DoReceive(_, _, now) => s.clock <= now
    case DoTakeMessage(fd) =>
      && s.job == Idle && s.queue != []
      && (fd.Some? && s.queue[0].RegisterMsg? ==>
            && fd.value > 0 && fd.value !in s.fds
            && s.queue[0].cookie in s.socks && s.socks[s.queue[0].cookie].appOpen)
    case DoAdvance(now) => s.job.Job? && s.clock <= now
    case DoCleanup(now) => s.job == Idle && s.clock <= now
    case DoEvict(_) => true
  }

  ghost predicate FreshId(s: System, rid: Option<u32>) {
    rid.Some? ==> rid.value !in s.tub && forall k :: k in s.conf ==> s.conf[k].randomId != rid.value
  }

  function Next(s: System, e: Step): System
    requires Formed(s) && Enabled(s, e)
  {
    match e
    case DoBind(c, key, netns) => Bind(s, c, key, netns)
    case DoClose(c) => Close(s, c)
    case DoSetWorkingGen(c, gen, rid, full) => SetWorkingGen(s, c, gen, rid, full).s
    case DoSetSocketGen(c, gen, rid, full) => SetSocketGen(s, c, gen, rid, full).s
    case DoSetDissector(c, d, rid, full) => SetDissector(s, c, d, rid, full).s
    case DoSetSocketApp(c, app, rid) => SetSocketApp(s, c, app, rid).s
    case DoAssure(c, h, rid, now, later, insertFails) => AssureCall(s, c, h, rid, now, later, insertFails).s
    case DoSend(c, h, now, later, insertFails) => SendMsg(s, c, h, now, later, insertFails)
    case DoReceive(key, packet, now) => Receive(s, key, packet, now)
    case DoTakeMessage(fd) => TakeMessage(s, fd)
    case DoAdvance(now) => Advance(s, now)
    case DoCleanup(now) => CleanupStale(s, now)
    case DoEvict(hash) => s.(flows := s.flows - {hash})
  }
}
