# udpgrm: a verified model

udpgrm steers every UDP packet of a REUSEPORT group to one of its sockets. This project models its three hard parts in
Dafny and proves what they promise.

**The steering protocol.** Applications, kernel hooks, one daemon thread and packets share socket storage, group storage,
a sockhash, a message ring, a flow table and the descriptors kept for Tubular. `Steering` is the protocol as a step
machine: one step is one hook call, one packet, one close, one eviction, one message taken, or one single write of the
daemon, so packets and calls fall between any two writes of a registration. `Invariants` is what every step keeps.
`Calls` and `Counting` say, case by case, what every call answers and changes and which counters every packet and every
send moves. `Routing`, `Isolation`, `Polling`, `Handover`, `Stickiness` and `Groups` are theorems about whole runs, and
`Scenarios` has concrete runs: one that meets their hypotheses, one on which a hand-over really happens, and one on which
isolation is lost. `Runtime` and `TubularStore` are the same code in its own imperative form, classes whose methods
change the shared maps in place and close descriptors in loops, each method proved to end in the state that the step
machine prescribes and to keep its invariant (`Udpgrm.Valid`). `Registration` is what one message amounts to when the
daemon handles it alone.

**The classic BPF interpreter.** `Interpreter` has an ordinary jump machine over decoded instructions, and the program
that counts through all indices and skips forward, with registers and memory changed in place. `Instructions` says what
each opcode computes, in numbers, and joins programs with routing.

**The QUIC Initial decoder.** `Aes`, `Sha256`, `QuicKeys`, `QuicCtr`, `QuicHeader` and `ClientHello` hold, next to each
other, what FIPS 197, FIPS 180-4, RFC 2104, RFC 8446, SP 800-38D, RFC 9000 and RFC 9001 define and what the in-place
program does. `QuicScratch` is the scratch area whose members share memory: a method that uses one member may leave
anything in the others. `Bespoke` and `QuicEndToEnd` join everything: the packet a client builds, and the application it
is steered to. `Connections` is about the packets that follow: what is answered to a DCID, and the socket it leads to.
AES and SHA-256 are concrete throughout; `HashExample` is the published example of SHA-256, round by round.

`Words`, `Bits`, `Bytes`, `GrmCookie`, `Allocator` and `Tubular` are shared definitions.

## How to read the step machine

A run is a sequence of states and steps (`Routing.IsRun`); theorems about runs hold for every run from the empty system
`Boot`, or from any state that satisfies the invariant `Inv`. A socket is live while its application or the daemon has a
descriptor for it, and then only while it is in the sockhash can it be selected. `Steering.Enabled` holds what the
environment is trusted with:

- socket cookies are unique, not 0, and not one of the two reserved values; clocks do not run backwards;
- a descriptor number is positive and not in use when the daemon obtains it, and its socket is still open;
- random ids of groups differ from each other and from the ids in the table kept for Tubular;
- a BESPOKE dissector asks for at most four applications;
- the daemon is one thread over a first-in first-out ring; its read and write of a socket's storage are one step, and so
  is its scan of one row;
- `bpf_sk_select_reuseport` succeeds exactly for live sockets of the group, answers -EBADF for live sockets of another
  group, and fails otherwise; remainders by zero give the dividend, as in eBPF;
- a full ring, a full map, a failed insertion, an eviction and a vanished process are outcomes that any step may have.

`Sock.changes` is a history variable: the generation requests of a socket and, from the first request on, its binds. It
is 1 for a socket that asked for a generation once and was not bound again.

## Where the code does not do what one would expect

Each of these is kept as it is in the code and stated as a theorem.

- A first `UDP_GRM_DISSECTOR` call that finds the ring full fails, and still leaves a group behind (`Groups.FullRingLocksOut`).
- Nothing limits the applications of a BESPOKE dissector; from 33 on the row computation has a remainder by zero (`Groups.BespokeLimit`).
- `UDP_GRM_SOCKET_APP` looks at generation and index, not at what the socket owns. Applications stay apart over a step
  exactly when the step is not a successful call that changes the application of a socket named by a slot, by a queued
  request or by the registration in progress (`Isolation.IsolatedExactly`, over runs `Isolation.RunIsolatedExactly`). A
  second bind, which resets generation and index, and a request for generation 0xffffffff open the way to such a call;
  applications that do neither are safe (`Isolation.OrderlyRunIsTame`). `Scenarios.IsolationCanBeLost` is a run that
  ends with a slot of application 0 naming a socket of application 1.
- The cookie that getsockopt reports leads to its socket exactly when the slot it names holds the socket and the socket is
  live (`Routing.ReachesExactly`). While a move to another generation is pending the old index is still shown
  (`Polling.MoveKeepsOldIndex`), and a move into a full row is never seen (`Polling.FullRowChangesNothing`).
- Descriptor 0 in the table is never closed, and a row announced too short loses descriptors (`Tubular.PreserveConserves`).
- A rival takes over a flow entry by the timeout of its own group, not of the entry's (`Stickiness.RivalRefused`).
- A working-generation message offers row generation modulo 32 to Tubular, whatever the application. With two or more
  applications that is the row of the application's sockets only if the generation falls into the application's share of
  the rows (`Registration.OfferedRowExactly`); generation 0 of the second of two is a case where it does not
  (`Registration.AnotherRowOffered`).
- A server name fewer than 150 bytes before the end of the buffer is not extracted (`ClientHello.HelloRoundTrip`).
- The comparison with a configured host name is equality of names exactly for names of at most 61 bytes with zeros up to
  byte 61 (`QuicEndToEnd.EqualityExactly`). A name of 62 bytes answers to its first 61 (`QuicEndToEnd.LongNameIsCutOff`),
  one with further bytes after its NUL does not answer to itself (`QuicEndToEnd.UncleanAnswer`), and a client's name
  longer than 61 bytes counts by its first 61 (`QuicEndToEnd.MatchIsEquality`).

Where comments and code disagree the model follows the code: the header copy takes 192 bytes, not 256
(ebpf/ebpf_quic.c:529-558); `sha256_hmac` gives the key back unchanged (ebpf/ebpf_sha256.c:128-164); `tx_total` counts
`UDP_GRM_FLOW_ASSURE` calls as well as sendmsg calls (ebpf/ebpf.c:665-696); the load `LDX W LEN` writes A
(ebpf/ebpf_inter.c:194-199).

## Model

| member | source | states |
|---|---|---|
| `GrmCookie.RowBelongsToApp` | include/udpgrm_internal.h:169-176 | for up to four applications every row is below 32 and lies in the range of the application it was computed for |
| `GrmCookie.RowIs` | include/udpgrm_internal.h:168-176 | the row in numbers: generation modulo 32, 16, 10 or 8 past the same number times the application |
| `GrmCookie.RowsCollide` | include/udpgrm_internal.h:168-176 | two requests share a row exactly when application and generation modulo the slot size agree |
| `GrmCookie.PackBytes` | include/udpgrm_internal.h:208-219 | the four bytes written are the packed cookie, low byte first, two bytes zero |
| `GrmCookie.PackLayout` | include/udpgrm_internal.h:208-219 | five bits of generation, three of checksum, eight of index |
| `GrmCookie.ChecksumParities` | include/udpgrm_internal.h:183-190 | each bit of the checksum is the parity of named bits of generation and index, the third inverted |
| `GrmCookie.PackIsNotZero` | include/udpgrm_internal.h:183-219 | no packed cookie is 0 |
| `GrmCookie.UnpackPack` | include/udpgrm_internal.h:192-219 | unpacking a packed cookie gives back generation modulo 32 and index modulo 256 |
| `GrmCookie.UnpackIffPacked` | include/udpgrm_internal.h:183-206 | the cookies that unpack to a slot are exactly that slot's packed one |
| `GrmCookie.PackInjective` | include/udpgrm_internal.h:183-219 | different slots have different cookies |
| `Allocator.CookiesFindEmpty` | src/uspace.c:20-50 | the 256-step loop returns the lowest slot that names no live socket, -1 when all are live, a length that covers that slot and every live slot and no more, and the first slot of the same socket |
| `Allocator.PrefixGrows` | src/uspace.c:29-49 | a row filled from the bottom stays filled from the bottom, and its announced length is the number of live slots |
| `Tubular.PreserveConserves` | src/tubular.c:189-204 | taking a descriptor over closes exactly the one it overwrites, and keeps every descriptor in exactly one announced cell if and only if it is not descriptor 0 and the new length covers the row |
| `Tubular.CloseRowConserves` | src/tubular.c:206-217 | closing a row closes exactly the descriptors it holds and disturbs no other cell |
| `Tubular.MaybeDeleteConserves` | src/tubular.c:154-165 | freeing a group without announced rows loses no descriptor |
| `Tubular.RegisterConserves` | src/tubular.c:219-247 | offering a row and closing it keeps the table conserved |
| `Tubular.RegisterHolds` | src/tubular.c:219-247 | offering a row takes exactly its cells out of the table, and the group goes exactly when no other row of it is announced |
| `Tubular.CleanupConserves` | src/tubular.c:169-187 | the stale clean-up closes exactly the descriptors of stale groups |
| `Tubular.TenSeconds` | src/tubular.c:169-204 | after a descriptor was taken over, every clean-up spares the group for ten seconds, and the first one after them closes it |
| `TubularStore.TubularList.LookupOrAdd` | src/tubular.c:141-152 | a group's table is created blank, once |
| `TubularStore.TubularList.MaybePreserveFd` | src/tubular.c:190-204 | in place: table and open descriptors become what the specification says; the caller closes exactly if the group has no label |
| `TubularStore.TubularList.CloseWg` | src/tubular.c:206-217 | the closing loop closes each descriptor of the row while it is open, once, and resets the row |
| `TubularStore.TubularList.MaybeDelete` | src/tubular.c:154-165 | the group goes exactly when no row is announced |
| `TubularStore.TubularList.MaybeRegister` | src/tubular.c:220-247 | the row's descriptors are closed and the group perhaps freed, whatever Tubular answered |
| `TubularStore.TubularList.DropGroup` | src/tubular.c:177-184 | all rows of a stale group are closed, no descriptor twice, and the group goes |
| `TubularStore.TubularList.CleanupStale` | src/tubular.c:169-187 | in any order of the list, exactly the stale groups go and exactly their descriptors are closed |
| `Invariants.InvStep` | src/udpgrm.c:135-271 | every step keeps: slots are empty or name registered sockets of their group, every live slot is announced except during one registration's last write, the slot being filled is dead until written, and every descriptor is in hand or in one announced cell backed by the slot of the same coordinates |
| `Invariants.RowIsCovered` | src/udpgrm.c:164-198 | a held descriptor keeps its socket alive, so the length being announced covers every held cell of the row and the cell being filled holds nothing |
| `Invariants.KeepClosesNothing` | src/tubular.c:189-204 | in every reachable state handing a descriptor over closes nothing |
| `Invariants.HookStep` | ebpf/ebpf.c:416-723 | a hook call, a packet or an eviction changes at most the caller's group, the caller's storage and one message, never slots, sockhash, descriptors or another group |
| `Invariants.SocketsFrame` | ebpf/ebpf.c:543-578 | what each step does to socket records and to the ring, exactly |
| `Invariants.WorkingFrame` | ebpf/ebpf.c:511-541 | working generations change by their own call and only by it: exactly when it reaches its group and the ring has room, the entry of the caller's application becomes the generation asked for |
| `Invariants.LiveFrame` | src/udpgrm.c:178-194 | only the sockhash insert adds a selectable socket, and it adds one that lives |
| `Calls.EnterExactly` | ebpf/ebpf.c:475-509 | a call is admitted exactly when the caller is bound and its group is in its namespace, or can be made; a new group is blank |
| `Calls.WorkingGenExactly` | ebpf/ebpf.c:511-541 | an admitted call with room in the ring answers OK and replaces the entry of the caller's application, the other three staying; otherwise EBADF or EAGAIN and no working generation moves |
| `Calls.NewFlowsFollow` | ebpf/ebpf.c:360-372 | after an OK, new flows of that application are dispatched from the row in which sockets of that application and generation register |
| `Calls.SocketGenExactly` | ebpf/ebpf.c:543-578 | a request is queued, and the generation written, exactly when it is new or the socket has no index, and there is room |
| `Calls.SocketAppExactly` | ebpf/ebpf.c:698-713 | EBADF, EEXIST and EOVERFLOW each exactly when, and the application changes in the one remaining case |
| `Calls.DissectorExactly` | ebpf/ebpf.c:580-663 | every answer and every new state, in terms of type numbers and limits |
| `Calls.AssureErrors` | ebpf/ebpf.c:665-696 | EBADF and EPERM exactly when, with no flow touched |
| `Routing.RunInv` | src/udpgrm.c:112-271 | the invariant holds in every state of every run |
| `Routing.LiveSlotsAnnounced` | src/uspace.c:20-50 | in every reachable state every live slot is below its row's length, except between two writes of the one registration in progress, and lengths are at most 256 |
| `Routing.RegistrationTakesLowestDead` | src/udpgrm.c:164-178 | a registration gets the lowest dead slot, and none exactly when all 256 are live |
| `Routing.ClosesOnlyOpen` | src/tubular.c:154-247 | every step closes only open descriptors, and overwriting a cell closes none |
| `Routing.Ledger` | src/udpgrm.c:149-252 | every step: open descriptors afterwards are those before, plus the one obtained, minus those closed; the obtained one was not open, the closed ones were |
| `Routing.NoneLost` | src/udpgrm.c:149-252 | over every run, descriptors obtained are descriptors closed plus descriptors open |
| `Routing.DescriptorsConserved` | src/tubular.c:154-247 | in every reachable state an open descriptor is in hand or in exactly one cell, never both, and that cell is below its row's announced length |
| `Routing.SlotStays` | ebpf/ebpf.c:1010-1013 | while a socket lives, no step gives a slot that names it to another socket |
| `Routing.PlacedStays` | src/udpgrm.c:164-228 | a served, live socket keeps slot, row and cookie through every step that is not its own new request or bind |
| `Routing.ReachesExactly` | ebpf/ebpf.c:206-324 | a packet whose program returns the cookie that getsockopt reports for a socket reaches that socket if and only if the slot named by row and index modulo 256 holds it and it is live, placed or not |
| `Routing.RoutedToOwner` | ebpf/ebpf.c:215-311 | so for a served, live socket, and the packet counts as flow_ok |
| `Routing.CookieRouting` | ebpf/ebpf.c:206-324 | the same over every run, whatever other sockets, generations and the daemon do meanwhile |
| `Routing.CookiesDiffer` | ebpf/ebpf.c:776-796 | two served sockets of a group never report the same cookie |
| `Isolation.IsolatedStays` | ebpf/ebpf.c:698-713 | every tame step keeps applications apart: application numbers valid, requests carrying their socket's number, slots in rows of their socket's application |
| `Isolation.SlotsCallExactly` | ebpf/ebpf.c:698-713 | the application call keeps every slot in a row of its socket's application exactly when it changes no application or no slot names the socket |
| `Isolation.RequestsCallExactly` | ebpf/ebpf.c:698-713 | and keeps requests and sockets in agreement exactly when it changes no application or no request of the socket is under way |
| `Isolation.IsolatedExactly` | ebpf/ebpf.c:698-713 | a step from an isolated state leads to an isolated state if and only if it is tame: not a call that changes the application of a socket that owns a slot or a request |
| `Isolation.RunIsolated` | ebpf/ebpf.c:511-578 | so in every state of every tame run, second binds included |
| `Isolation.RunIsolatedExactly` | ebpf/ebpf.c:511-713 | over runs from the start: all states up to n are isolated if and only if all steps before n are tame |
| `Isolation.OrderlyRunIsTame` | ebpf/ebpf.c:543-578 | a run in which no socket with a request is bound again and nobody asks for generation 0xffffffff is tame |
| `Isolation.DispatchStaysInApp` | ebpf/ebpf.c:360-389 | a new flow dispatched for application a reaches a live socket of application a and of this group |
| `Isolation.OtherAppsDoNotInterfere` | ebpf/ebpf.c:360-372 | registrations and working-generation changes of other applications leave the choice for application a as it was |
| `Isolation.RebindBreaksIsolation` | ebpf/ebpf.c:698-713 | in every isolated state with a slot in use: a second bind of its socket makes the application call succeed, and the slot then lies in a foreign row |
| `Polling.ServedRequestIsPlaced` | src/udpgrm.c:196-228 | the index write serves the socket's latest request: the slot that its generation and index name is its own |
| `Polling.PolledIndexMeansPlaced` | ebpf/ebpf.c:776-796 | a live socket that asked once and sees an index owns the slot it names, with nothing under way |
| `Polling.RunFirst` | ebpf/ebpf.c:543-578 | what polling relies on holds in every state of every run, with no condition on the applications |
| `Polling.PolledCookieRoutes` | ebpf/ebpf.c:776-796 | in every run from the start: once a socket that asked once sees an index, every packet with the cookie it then reads reaches it for as long as it lives and is left alone |
| `Polling.PolledCookiesDiffer` | ebpf/ebpf.c:776-796 | and two such sockets of a group read different cookies |
| `Polling.MoveKeepsOldIndex` | ebpf/ebpf.c:543-578 | a socket that asks for another generation still shows its old index while the request is pending |
| `Polling.FullRowChangesNothing` | src/udpgrm.c:175-196 | a registration into a full row changes neither table nor index and only closes its descriptor |
| `Handover.DispatchExactly` | ebpf/ebpf.c:360-389 | every new flow of an application is dispatched, whatever its hash, exactly when every slot below the working row's length (all 256 if that is 0) names a live socket |
| `Handover.HashPicksSlot` | ebpf/ebpf.c:360-389 | a hash q * n + i with i below the working row's length n selects slot i, whatever q: the flow goes to that slot's socket if it lives and is not dispatched otherwise |
| `Handover.SpreadEvenly` | ebpf/ebpf.c:369-371 | over all 2^32 hashes the shares of any two slots differ by at most one |
| `Handover.FilledStep` | src/udpgrm.c:164-228 | a row filled from empty stays filled and announced through every step that closes none of its sockets |
| `Handover.RowFilled` | src/udpgrm.c:164-228 | so it is at every later state of a run |
| `Handover.ConfirmedOpen` | ebpf/ebpf.c:776-796 | one socket that sees its index is enough to know that the row is announced |
| `Handover.ZeroLoss` | README.md:375-405 | zero-loss hand-over over runs: if the working row moves only to rows filled from empty with a confirmed socket, and no socket of the working row is closed, every new flow is dispatched to a live socket of the group, between any two writes of the daemon, and dispatch errors never count up; in tame runs that socket is of the flow's application |
| `Scenarios.HandoverCanStart` | README.md:375-405 | a concrete run of eleven steps, from the empty system, in a group with a classic-BPF dissector for two applications, after which the hypotheses of the zero-loss theorem hold |
| `Scenarios.HandoverHappens` | README.md:375-405 | a run from the empty system that keeps every rule of the zero-loss theorem and whose last step moves the working row; every new flow then goes to the successor |
| `Scenarios.RegistrationRoutes` | src/udpgrm.c:135-252 | after that run the polling theorem applies: packets with the cookie that the socket reads reach it |
| `Scenarios.IsolationCanBeLost` | ebpf/ebpf.c:698-713 | two more steps, a second bind and an application call, lead to a state that is not isolated; every step but the last is tame |
| `Stickiness.FlowsFrame` | ebpf/ebpf.c:887-941 | what each step does to the flow table and the clock, exactly |
| `Stickiness.RivalStealsExactly` | ebpf/ebpf.c:910-938 | another socket takes an entry over exactly when it has expired by the sender's timeout; otherwise nothing changes and a conflict counts |
| `Stickiness.TouchExactly` | ebpf/ebpf.c:887-941 | what a send or an assure does to the table and answers, with the timeout in nanoseconds: refused, new entry, refreshed entry, or entry taken over |
| `Stickiness.EntryRoutesExactly` | ebpf/ebpf.c:255-303 | a packet reaches the entry's live socket exactly within 10^9 ns times the configured seconds, 125 * 10^9 ns when none are configured; one nanosecond later it counts as expired and as a new flow |
| `Stickiness.EntryKept` | ebpf/ebpf.c:887-941 | over runs, while senders find the entry fresh and nobody evicts it, it names its socket with the time of that socket's last refresh |
| `Stickiness.FlowSticks` | ebpf/ebpf.c:255-303 | and a packet of the flow reaches that socket and counts as flow_ok exactly within that time of the last refresh, and counts as had_expired after it |
| `Stickiness.RivalRefused` | ebpf/ebpf.c:665-696 | a rival is refused, and its assure answered EEXIST, exactly within the timeout of its own group in nanoseconds; after it the entry is the rival's |
| `Stickiness.AnswersComeBack` | ebpf/ebpf.c:887-941 | after a send that is not refused, packets of the flow reach the sender's socket for exactly the timeout of its group |
| `Groups.CountersBalance` | ebpf/ebpf.c:178-390 | in every reachable state the rx counters add up stage by stage and the tx counters add up |
| `Counting.FlowPacketCounts` | ebpf/ebpf.c:178-303 | a FLOW group: which counters a packet moves, by entry, time and where the entry's socket lives; rg_conflict exactly for a live socket of another group, other_error exactly for a dead one |
| `Counting.ProgramPacketCounts` | ebpf/ebpf.c:206-347 | a group with a program: which counters a packet moves, by return value, checksum and slot, in every reachable state; never rg_conflict |
| `Counting.NoopPacketCounts` | ebpf/ebpf.c:352-389 | a NOOP group: every packet is a new flow |
| `Counting.DissectExactly` | ebpf/ebpf.c:135-172 | which return values are cookies, which name an application, and which are new flows of application 0 |
| `Counting.SendCounts` | ebpf/ebpf.c:887-941 | every send counts in the total and in exactly one outcome |
| `Groups.PathHasOneReason` | ebpf/ebpf.c:291-347 | a packet never counts as expired and as bad cookie at once |
| `Groups.LimitsHold` | ebpf/ebpf.c:595-641 | in every reachable state a group keeps the limits of its kind, and an application has at least eight rows |
| `Groups.BespokeLimit` | ebpf/ebpf.c:612-617 | rows per application are zero exactly above 32 applications, and only BESPOKE dissectors get there |
| `Groups.DissectorForever` | ebpf/ebpf.c:580-594 | over every run a group's dissector and random id never change |
| `Groups.LaterCallExactly` | ebpf/ebpf.c:581-594 | on an existing group the call succeeds exactly when the dissectors agree up to the verbose flag, and changes at most that flag |
| `Groups.FirstCallExactly` | ebpf/ebpf.c:595-663 | a first call is refused exactly for an unacceptable dissector, and then leaves no group |
| `Groups.FullRingLocksOut` | ebpf/ebpf.c:638-646 | a first call that finds the ring full leaves a default group; repeating it succeeds exactly if the default was asked for |
| `Groups.SameDissectorExactly` | ebpf/ebpf.c:396-405 | dissectors compare equal exactly when equal or different in the verbose bit alone |
| `Runtime.Udpgrm.BpfBind` | ebpf/ebpf.c:854-885 | in place: storage created once, generation and index reset every time; like every hook below it keeps the invariant of the step machine whenever the step is enabled |
| `Runtime.Udpgrm.EnterCall` | ebpf/ebpf.c:475-509 | storage, group creation and the namespace check |
| `Runtime.Udpgrm.SetsockoptWorkingGen` | ebpf/ebpf.c:511-541 | state and errno of the specification |
| `Runtime.Udpgrm.SetsockoptSocketGen` | ebpf/ebpf.c:543-578 | state and errno of the specification |
| `Runtime.Udpgrm.SetsockoptDissector` | ebpf/ebpf.c:580-663 | state and errno of the specification, the group deleted again on refusal |
| `Runtime.Udpgrm.SetsockoptSocketApp` | ebpf/ebpf.c:698-713 | state and errno of the specification |
| `Runtime.Udpgrm.SetsockoptFlowAssure` | ebpf/ebpf.c:665-696 | state and errno of the specification |
| `Runtime.Udpgrm.GetsockoptSocketGen` | ebpf/ebpf.c:776-796 | generation, index and the cookie used for routing; without a group the cookie of a group without applications |
| `Runtime.Udpgrm.AssureFlow` | ebpf/ebpf.c:887-941 | counters one by one and table writes in place give the specified outcome |
| `Runtime.Udpgrm.UdpSendmsg` | ebpf/ebpf.c:951-990 | nothing outside FLOW groups, flow_assure inside |
| `Runtime.Udpgrm.SecondStageByHash` | ebpf/ebpf.c:255-303 | the second stage with a flow hash: answer and counters |
| `Runtime.Udpgrm.SecondStageByCookie` | ebpf/ebpf.c:305-352 | the second stage with a socket cookie: answer and counters |
| `Runtime.Udpgrm.ThirdStage` | ebpf/ebpf.c:360-389 | the third stage: the working row's slot for the hash, answer and counters |
| `Runtime.Udpgrm.FirstStages` | ebpf/ebpf.c:178-352 | dissection and the second stage: the packet stops with its specified error, or goes on with the specified second-stage outcome and application, counted so far |
| `Runtime.Udpgrm.ReuseportProg` | ebpf/ebpf.c:178-390 | the whole packet program, counter by counter, chooses the socket of the packet's specified way and counts exactly that way |
| `Runtime.StagesCount` | ebpf/ebpf.c:178-390 | counting stage by stage is counting by the way a packet took |
| `Runtime.Udpgrm.CbUpdateMap` | ebpf/ebpf.c:992-1022 | first the cookie, then the length |
| `Runtime.Udpgrm.PreserveFd` | src/udpgrm.c:196-198 | the descriptor is handed over or kept for closing, as specified |
| `Runtime.Udpgrm.TakeNext` | src/udpgrm.c:135-173 | the next message: descriptor, row scan, or the offer to Tubular |
| `Runtime.Udpgrm.PutIntoTable` | src/udpgrm.c:196-228 | descriptor, cookie, length and index, written one after the other, leave the rest of the registration as the step machine has it |
| `Runtime.Udpgrm.HandleMsg` | src/udpgrm.c:112-271 | run alone, the handler ends where the step machine's single writes end, with the invariant |
| `Registration.HandledExactly` | src/udpgrm.c:135-252 | a registration handled alone: into the lowest slot that names no live socket, with the length, the index, the sockhash and the descriptor as promised, or no change at all when the row is full |
| `Registration.HandledIsServed` | src/udpgrm.c:135-252 | the socket then holds the slot that its generation and index name, inside the announced length, and can be selected |
| `Registration.OfferedExactly` | src/udpgrm.c:255-271 | a working-generation message closes exactly the descriptors kept for row generation modulo 32 of a labelled group |
| `Registration.OfferedRowExactly` | src/udpgrm.c:261-263 | when that row is the one the application's sockets register in, number of applications by number of applications |
| `Registration.AnotherRowOffered` | src/udpgrm.c:261-263 | an input for which it is not |
| `Interpreter.InterpretCtx.Step` | ebpf/ebpf_inter.c:119-338 | one call of the loop body skips, or does exactly what the instruction means, in place |
| `Interpreter.OthersUnknown` | ebpf/ebpf_inter.c:333-336 | the handled opcodes are the only ones that decode to an instruction |
| `Interpreter.InterpretCbpf` | ebpf/ebpf_inter.c:340-352 | for every program and packet the skipping loop returns code and value of the jump machine and executes the addresses of its trace |
| `Interpreter.TraceIncreases` | ebpf/ebpf_inter.c:213-239 | executed addresses strictly increase, so a run executes at most filter_len instructions |
| `Interpreter.CheckedRuns` | ebpf/ebpf_inter.c:119-352 | a program that passes the static check ends on every packet with a value or a failed load |
| `Interpreter.CheckedNeverErrs` | ebpf/ebpf.c:206-254 | and its group never counts rx_cbpf_prog_error |
| `Instructions.MovesDo` | ebpf/ebpf_inter.c:147-212 | register and memory moves, immediate and length loads, opcode by opcode |
| `Instructions.LoadsDo` | ebpf/ebpf_inter.c:159-189 | a load gives the number that the bytes at the offset past the UDP header write, big end first, or stops |
| `Instructions.HeaderLengthDoes` | ebpf/ebpf_inter.c:190-193 | four times the low nibble |
| `Instructions.SumsDo` | ebpf/ebpf_inter.c:240-272 | sums, differences, products and negation are those of the integers modulo 2^32 |
| `Instructions.DivisionsDo` | ebpf/ebpf_inter.c:273-301 | quotient and remainder of the naturals, and a stop on zero |
| `Instructions.ShiftsDo` | ebpf/ebpf_inter.c:243-254 | shifts below 32 multiply and divide by powers of two |
| `Instructions.BitsDo` | ebpf/ebpf_inter.c:302-319 | and, or and exclusive or, bit by bit |
| `Instructions.JumpsDo` | ebpf/ebpf_inter.c:213-239 | comparisons of naturals; JSET exactly when some bit is set in both operands |
| `Instructions.ReturnsDo` | ebpf/ebpf_inter.c:321-332 | the constant, X or A, as a signed 32-bit number |
| `Instructions.FilterRoundTrip` | ebpf/ebpf_inter.c:135-143 | every instruction of a passed program is found at its place |
| `Instructions.CookieInPacketReaches` | ebpf/ebpf.c:135-311 | with a program that reads sixteen bits of the payload, a packet carrying the reported cookie there reaches the live socket exactly when the named slot holds it |
| `Aes.SBoxInverts` | ebpf/ebpf_aes128.c:14-34 | every entry of the table is the affine image of the inverse in GF(2^8), as section 5.1.1 of FIPS 197 defines it; the entry for 0 is the affine image of 0 |
| `Aes.MixTrick` | ebpf/ebpf_aes128.c:155-182 | the xor-and-double form of a mixed byte is the product with the MixColumns matrix row in GF(2^8) |
| `Aes.RoundConstants` | ebpf/ebpf_aes128.c:36-37 | the table of round constants holds the powers of x |
| `Aes.AesCtx.KeyExpand` | ebpf/ebpf_aes128.c:39-93 | the filled array is the key schedule of section 5.2 of FIPS 197 |
| `Aes.AesCtx.AddRoundKeyTo` | ebpf/ebpf_aes128.c:95-115 | AddRoundKey, with the index never past 175 |
| `Aes.SubBytesIn` | ebpf/ebpf_aes128.c:117-125 | SubBytes in place |
| `Aes.ShiftRowsIn` | ebpf/ebpf_aes128.c:127-153 | ShiftRows in place |
| `Aes.MixColumnsIn` | ebpf/ebpf_aes128.c:157-182 | MixColumns in place |
| `Aes.AesCtx.EcbEncrypt` | ebpf/ebpf_aes128.c:184-206 | the block becomes the cipher of section 5.1 of FIPS 197 |
| `Sha256.Sha256Buff.CalcChunk` | ebpf/ebpf_sha256.c:39-95 | the hash becomes the compression of section 6.2.2 of FIPS 180-4; the block stays |
| `Sha256.Sha256Buff.Final` | ebpf/ebpf_sha256.c:97-115 | the padded last block is hashed; past 55 bytes nothing happens |
| `Sha256.ShaOfTwo` | ebpf/ebpf_sha256.c:97-115 | a message of one block and at most 55 bytes is two compressions under the padding of section 5.1.1 of FIPS 180-4 |
| `HashExample.DigestOfAbc` | ebpf/ebpf_sha256.c:39-115 | the digest of "abc" is the one published with FIPS 180-4 |
| `Sha256.Sha256Buff.HmacIn` | ebpf/ebpf_sha256.c:128-164 | HMAC-SHA-256 of section 2 of RFC 2104, the key block restored, the result zero-padded |
| `QuicKeys.ClientInIsLabel` | ebpf/ebpf_quic.c:441-445 | the constant is the HkdfLabel of section 7.1 of RFC 8446 with the counter byte of HKDF-Expand |
| `QuicKeys.QuicKeyIsLabel` | ebpf/ebpf_quic.c:443-443 | the same for the packet key |
| `QuicKeys.QuicIvIsLabel` | ebpf/ebpf_quic.c:444-444 | the same for the IV |
| `QuicKeys.QuicHpIsLabel` | ebpf/ebpf_quic.c:445-445 | the same for the header protection key |
| `QuicScratch.Scratch.ExpandClientKeys` | ebpf/ebpf_quic.c:475-514 | for every DCID the three arrays hold the client's key, IV and header protection key of sections 5.1 and 5.2 of RFC 9001 |
| `QuicCtr.IncrementsAgree` | ebpf/ebpf_quic.c:175-184 | the 128-bit increment is inc32 unless the last four bytes wrap |
| `QuicCtr.IncrementCounter` | ebpf/ebpf_quic.c:175-184 | two 64-bit halves with the carry taken from a low half that came to zero |
| `QuicCtr.MasksKeep` | ebpf/ebpf_quic.c:220-241 | the two masks keep exactly the first len bytes of sixteen |
| `QuicCtr.GctrInverts` | ebpf/ebpf_quic.c:243-270 | GCTR of section 6.5 of SP 800-38D is its own inverse |
| `QuicCtr.DecryptQuic` | ebpf/ebpf_quic.c:192-270 | for every length up to 1024 the payload becomes GCTR from inc32 of the counter, the rest of its last block is cleared when that lies in the buffer, and nothing else changes |
| `QuicHeader.VarintRoundTrip` | ebpf/ebpf_quic.c:147-173 | decoding undoes every encoding of section 16 of RFC 9000, whatever follows |
| `QuicHeader.Locating` | ebpf/ebpf_quic.c:566-637 | the header's fields, read one after the other with all length checks |
| `QuicHeader.HeaderLocated` | ebpf/ebpf_quic.c:566-637 | packet number and Length are found for every header of section 17.2.2 of RFC 9000 |
| `QuicHeader.ProtectProtects` | ebpf/ebpf_quic.c:631-648 | the builder of protected packets puts header, number, sample and body where the parser looks |
| `QuicHeader.HeaderRoundTrip` | ebpf/ebpf_quic.c:522-699 | removing header protection (section 5.4 of RFC 9001) gives the offset of the first ciphertext byte, Length minus packet number minus 16, and the counter block of that packet's nonce |
| `QuicHeader.ComputeHpMask` | ebpf/ebpf_quic.c:90-116 | the mask is the first five bytes of the sample under the header protection key |
| `QuicHeader.QuicParseHdr` | ebpf/ebpf_quic.c:516-699 | the program, in place, on linear and on copied packets |
| `ClientHello.WalkFindsName` | ebpf/ebpf_quic.c:397-416 | the walk finds the first server name among the first 32 extensions, exactly when it starts 150 bytes before the end |
| `ClientHello.WalkFindsNothing` | ebpf/ebpf_quic.c:397-420 | without one among them it ends quietly |
| `ClientHello.HelloRoundTrip` | ebpf/ebpf_quic.c:337-421 | for any ClientHello of section 4.1.2 of RFC 8446 in a CRYPTO frame the parser finds that extension's body |
| `ClientHello.ParseClientHello` | ebpf/ebpf_quic.c:328-421 | the program on arbitrary bytes: reads and writes inside the buffers, and exactly the found body is copied |
| `Bespoke.ParseQuicFast` | ebpf/ebpf_bespoke.c:11-70 | initial or not, and the DCID with zeros after its length |
| `Bespoke.QuicExtractSni` | ebpf/ebpf_quic.c:701-735 | decrypt, clear, parse: the name buffer holds exactly the extracted body |
| `Bespoke.SameName` | ebpf/ebpf_bespoke.c:181-183 | the comparison of 61 bytes |
| `Bespoke.FirstMatch` | ebpf/ebpf_bespoke.c:177-195 | the first configured host that matches, 0 when none does |
| `Bespoke.Run0xDEAD` | ebpf/ebpf_bespoke.c:91-218 | the whole program, in place and on any packet, equals its specification, whatever the scratch area held |
| `Connections.AnswerFromBytes` | ebpf/ebpf_bespoke.c:11-218 | on packet bytes: short packets and bad DCID lengths fail, and a short header, or a long one without a server name, is answered by its DCID: application 0, the application in the fifth byte, or the cookie in the second and third |
| `Connections.ConnectionReaches` | ebpf/ebpf_bespoke.c:199-212 | a packet whose DCID is 1 and the reported cookie reaches its socket if and only if the named slot holds it and it is live |
| `Connections.ConnectionStays` | ebpf/ebpf_bespoke.c:199-212 | over runs, once the socket has seen its index, for as long as it lives and is left alone |
| `QuicEndToEnd.MatchExactly` | ebpf/ebpf_bespoke.c:181-183 | a name of any length matches a configured host exactly when the host's first 61 bytes are the name, cut off or padded with zeros |
| `QuicEndToEnd.MatchIsEquality` | ebpf/ebpf_bespoke.c:177-195 | a clean host (at most 61 bytes, zeros up to byte 61) matches a name exactly when its own name is the first 61 bytes of it |
| `QuicEndToEnd.EqualityExactly` | ebpf/ebpf_bespoke.c:177-195 | for names of at most 61 bytes the comparison is equality of names if and only if the host is clean |
| `QuicEndToEnd.UncleanAnswer` | ebpf/ebpf_bespoke.c:177-195 | every other host is wrong about a name: its first 61 bytes, or its own |
| `QuicEndToEnd.LongNameIsCutOff` | ebpf/ebpf_bespoke.c:181-183 | a configured name of 62 bytes is matched by its first 61 |
| `QuicEndToEnd.SteeredByServerName` | ebpf/ebpf_bespoke.c:91-196 | every version 1 client Initial packet in the parser's reach, with a server name of any length, is answered with the application of the first configured host of that name (of its first 61 bytes), 0 if there is none, for clean hosts |
| `QuicEndToEnd.PacketsExist` | ebpf/ebpf_bespoke.c:91-196 | for every name of at most 61 bytes there is a packet that the end-to-end theorem speaks about |
| `QuicEndToEnd.AppIsDispatched` | ebpf/ebpf.c:158-172 | and the packet program takes that answer as a new flow of that application |

## Left out

- Flow hash (ebpf/siphash.h): any fixed function; the model only uses that both directions hash the same tuple.
- Kernel, libbpf, ring and LRU internals: only their outcomes are modelled.
- Command line, cgroup, pidfd, network, listing and metrics printing code, language bindings, demos: input and output only.
- `udpgrm delete` and daemon restart: they end a group's lifetime.
- The exchange with Tubular over its socket: any answer; the descriptors are closed afterwards in every case.
- getsockopt for working generation, dissector and application, and the copying of option values by size: they copy stored fields out and change nothing that a packet or another call reads.
- The critical-error gauge and counter: they are written and never read by the steering code.
- GCM tag: the code does not verify it, and the model has no tag check either.
- AES and the QUIC key derivation: tied to FIPS 197 and RFC 9001 by definition, table derivation and round trip; their published examples are not worked through.
- HandleMsg: states the handler run alone; interleavings are covered by the step machine, whose single writes it is made of.
- Shifts by 32 or more in cBPF programs: an arbitrary function of both operands.
- Log output and the verbose paths of the QUIC decoder: no effect on results.
