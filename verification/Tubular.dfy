/** The descriptors that the daemon keeps for Tubular, one 32 by 256 table per reuseport group. */
module Tubular {
  import opened Words

  const STALE_NS: nat := 10_000_000_000

  /** One table: `maxIdx[g]` is the announced length of row g, a positive cell is a held descriptor. */
  datatype TubGroup = TubGroup(lastModified: u64, maxIdx: seq<nat>, cells: seq<seq<int>>) {
    ghost predicate Shaped() {
      && |maxIdx| == MAX_GENS && |cells| == MAX_GENS
      && (forall g :: 0 <= g < MAX_GENS ==> |cells[g]| == MAX_SOCKETS_IN_GEN)
      && (forall g :: 0 <= g < MAX_GENS ==> maxIdx[g] <= MAX_SOCKETS_IN_GEN)
    }
  }

  /** The list of tables, keyed by the group's random id. */
  type Table = map<u32, TubGroup>

  ghost predicate Shaped(t: Table) {
    forall rid :: rid in t ==> t[rid].Shaped()
  }

  /** Cell (g, i) of group `rid` holds the descriptor `fd`. */
  ghost predicate Holds(t: Table, rid: u32, g: nat, i: nat, fd: int) {
    && fd > 0 && rid in t && g < |t[rid].cells| && i < |t[rid].cells[g]|
    && t[rid].cells[g][i] == fd
  }

  /** A held descriptor is out of reach of the closing loops when its index is not announced. */
  ghost predicate Covered(t: Table, rid: u32, g: nat, i: nat) {
    rid in t && g < |t[rid].maxIdx| && i < t[rid].maxIdx[g]
  }

  /** The descriptors in `held` are each in exactly one cell, that cell is below its row's
      announced length, and the cells hold nothing else. */
  ghost predicate Conserved(t: Table, held: set<int>) {
    && Shaped(t)
    && (forall rid, g, i, fd :: Holds(t, rid, g, i, fd) ==> Covered(t, rid, g, i) && fd in held)
    && (forall rid, g, i, fd, rid', g', i' ::
          Holds(t, rid, g, i, fd) && Holds(t, rid', g', i', fd) ==> rid == rid' && g == g' && i == i')
    && (forall fd :: fd in held ==> exists rid, g, i :: Holds(t, rid, g, i, fd))
  }

  // ---- what the operations do to the table ----

  function Blank(now: u64): (g: TubGroup)
    ensures g.Shaped()
    ensures forall r, i :: 0 <= r < MAX_GENS && 0 <= i < MAX_SOCKETS_IN_GEN ==> g.cells[r][i] == 0
  {
    TubGroup(now, seq(MAX_GENS, _ => 0), seq(MAX_GENS, _ => seq(MAX_SOCKETS_IN_GEN, _ => 0)))
  }

  /** reuseport_group_lookup_or_add. */
  function LookupOrAdd(t: Table, rid: u32, now: u64): Table {
    if rid in t then t else t[rid := Blank(now)]
  }

  function Put(g: TubGroup, row: nat, len: nat, free: nat, f: int, now: u64): TubGroup
    requires g.Shaped() && row < MAX_GENS && free < MAX_SOCKETS_IN_GEN
  {
    TubGroup(now, g.maxIdx[row := len], g.cells[row := g.cells[row][free := f]])
  }

  /** tubular_maybe_preserve_fd on a labelled group. */
  function Preserve(t: Table, rid: u32, row: nat, len: nat, free: nat, f: int, now: u64): Table
    requires Shaped(t) && row < MAX_GENS && free < MAX_SOCKETS_IN_GEN
  {
    t[rid := Put(LookupOrAdd(t, rid, now)[rid], row, len, free, f, now)]
  }

  /** The descriptor that a preserve overwrites, and closes. */
  function Replaced(t: Table, rid: u32, row: nat, free: nat): (fds: set<int>)
    requires Shaped(t) && row < MAX_GENS && free < MAX_SOCKETS_IN_GEN
    ensures forall fd :: fd in fds <==> Holds(t, rid, row, free, fd)
  {
    if rid in t && t[rid].cells[row][free] > 0 then {t[rid].cells[row][free]} else {}
  }

  /** A row after tubular_close_wg: every announced cell is reset. */
  function CloseRow(g: TubGroup, row: nat): TubGroup
    requires g.Shaped() && row < MAX_GENS
  {
    g.(cells := g.cells[row := seq(g.maxIdx[row], _ => -1) + g.cells[row][g.maxIdx[row]..]],
       maxIdx := g.maxIdx[row := 0])
  }

  /** The descriptors among the first `n` cells of a row. */
  function RowFds(cells: seq<int>, n: nat): (fds: set<int>)
    requires n <= |cells|
    ensures forall fd :: fd in fds <==> fd > 0 && exists i :: 0 <= i < n && cells[i] == fd
  {
    if n == 0 then {} else
    RowFds(cells, n - 1) + (if cells[n - 1] > 0 then {cells[n - 1]} else {})
  }

  /** reuseport_group_maybe_delete: drops a group with no announced row. */
  function MaybeDelete(t: Table, rid: u32): Table
    requires rid in t && t[rid].Shaped()
  {
    if forall g :: 0 <= g < MAX_GENS ==> t[rid].maxIdx[g] == 0 then t - {rid} else t
  }

  /** tubular_maybe_register on a labelled group, whatever the exchange with Tubular returned. */
  function Register(t: Table, rid: u32, row: nat): Table
    requires Shaped(t) && row < MAX_GENS
  {
    if rid in t then MaybeDelete(t[rid := CloseRow(t[rid], row)], rid) else t
  }

  function Registered(t: Table, rid: u32, row: nat): (fds: set<int>)
    requires Shaped(t) && row < MAX_GENS
  {
    if rid in t then RowFds(t[rid].cells[row], t[rid].maxIdx[row]) else {}
  }

  predicate Stale(g: TubGroup, now: u64) {
    (now - g.lastModified) % TWO64 > STALE_NS
  }

  /** reuseport_groups_maybe_cleanup_stale: stale groups go, the others stay. */
  function Cleanup(t: Table, now: u64): Table {
    map rid | rid in t && !Stale(t[rid], now) :: t[rid]
  }

  /** All descriptors that group `rid` holds. */
  function GroupFds(g: TubGroup, rows: nat): (fds: set<int>)
    requires g.Shaped() && rows <= MAX_GENS
    ensures forall fd :: fd in fds <==>
      exists r, i :: 0 <= r < rows && 0 <= i < g.maxIdx[r] && g.cells[r][i] == fd && fd > 0
  {
    if rows == 0 then {} else GroupFds(g, rows - 1) + RowFds(g.cells[rows - 1], g.maxIdx[rows - 1])
  }

  function CleanedUp(t: Table, now: u64): (fds: set<int>)
    requires Shaped(t)
  {
    set rid, fd | rid in t && Stale(t[rid], now) && fd in GroupFds(t[rid], MAX_GENS) :: fd
  }

  // ---- conservation, one operation at a time ----

  lemma PreserveHolds(t: Table, rid: u32, row: nat, len: nat, free: nat, f: int, now: u64)
    requires Shaped(t) && row < MAX_GENS && free < len <= MAX_SOCKETS_IN_GEN
    ensures Shaped(Preserve(t, rid, row, len, free, f, now))
    ensures forall rid', g, i, fd :: Holds(Preserve(t, rid, row, len, free, f, now), rid', g, i, fd) <==>
      if rid' == rid && g == row && i == free then fd == f > 0 else Holds(t, rid', g, i, fd)
  {
  }

  /** No held descriptor of the row lies at or past the length that a preserve announces. */
  ghost predicate CoversRow(t: Table, rid: u32, row: nat, len: nat, free: nat) {
    forall i: nat, fd :: Holds(t, rid, row, i, fd) && i != free ==> i < len
  }

  /** Taking descriptor `f` over keeps the table conserved exactly when `f` is not descriptor 0
      and the announced length covers what the row already holds. The overwritten descriptor is
      closed; nothing else leaves the table. */
  lemma PreserveConserves(t: Table, held: set<int>, rid: u32, row: nat, len: nat, free: nat, f: int, now: u64)
    requires Conserved(t, held) && row < MAX_GENS && free < len <= MAX_SOCKETS_IN_GEN
    requires f >= 0 && f !in held
    ensures Replaced(t, rid, row, free) <= held
    ensures Conserved(Preserve(t, rid, row, len, free, f, now), held - Replaced(t, rid, row, free) + {f})
      <==> f > 0 && CoversRow(t, rid, row, len, free)
  {
    var t' := Preserve(t, rid, row, len, free, f, now);
    var held' := held - Replaced(t, rid, row, free) + {f};
    PreserveHolds(t, rid, row, len, free, f, now);
    forall rid', g, i | Covered(t, rid', g, i) && !(rid' == rid && g == row)
      ensures Covered(t', rid', g, i)
    {
    }
    if f > 0 && CoversRow(t, rid, row, len, free) {
      forall fd | fd in held' ensures exists r, g, i :: Holds(t', r, g, i, fd) {
        if fd == f {
          assert Holds(t', rid, row, free, f);
        } else {
          var r, g, i :| Holds(t, r, g, i, fd);
          assert Holds(t', r, g, i, fd);
        }
      }
    } else if f == 0 {
      assert forall r, g, i :: !Holds(t', r, g, i, f);
    } else {
      var i: nat, fd :| Holds(t, rid, row, i, fd) && i != free && i >= len;
      assert Holds(t', rid, row, i, fd) && !Covered(t', rid, row, i);
    }
  }

  /** tubular_close_wg closes exactly the descriptors its row holds. */
  lemma CloseRowConserves(t: Table, held: set<int>, rid: u32, row: nat)
    requires Conserved(t, held) && rid in t && row < MAX_GENS
    ensures RowFds(t[rid].cells[row], t[rid].maxIdx[row]) <= held
    ensures Conserved(t[rid := CloseRow(t[rid], row)], held - RowFds(t[rid].cells[row], t[rid].maxIdx[row]))
  {
    var t' := t[rid := CloseRow(t[rid], row)];
    var gone := RowFds(t[rid].cells[row], t[rid].maxIdx[row]);
    forall fd | fd in gone ensures exists i :: Holds(t, rid, row, i, fd) {
      var i :| 0 <= i < t[rid].maxIdx[row] && t[rid].cells[row][i] == fd;
      assert Holds(t, rid, row, i, fd);
    }
    CloseRowHolds(t, rid, row);
    forall rid', g, i, fd | Holds(t', rid', g, i, fd) ensures Covered(t', rid', g, i) && fd in held - gone {
      assert Holds(t, rid', g, i, fd);
    }
    forall r, g, i, fd, r', g', i' | Holds(t', r, g, i, fd) && Holds(t', r', g', i', fd)
      ensures r == r' && g == g' && i == i'
    {
      assert Holds(t, r, g, i, fd) && Holds(t, r', g', i', fd);
    }
    forall fd | fd in held - gone ensures exists r, g, i :: Holds(t', r, g, i, fd) {
      var r, g, i :| Holds(t, r, g, i, fd);
      assert Covered(t, r, g, i);
      assert Holds(t', r, g, i, fd);
    }
  }

  lemma CloseRowHolds(t: Table, rid: u32, row: nat)
    requires Shaped(t) && rid in t && row < MAX_GENS
    requires forall i, fd :: Holds(t, rid, row, i, fd) ==> Covered(t, rid, row, i)
    ensures Shaped(t[rid := CloseRow(t[rid], row)])
    ensures forall rid', g, i, fd :: Holds(t[rid := CloseRow(t[rid], row)], rid', g, i, fd) <==>
      Holds(t, rid', g, i, fd) && !(rid' == rid && g == row)
  {
    var n := t[rid].maxIdx[row];
    var after := CloseRow(t[rid], row).cells[row];
    assert |after| == MAX_SOCKETS_IN_GEN;
    forall i | 0 <= i < MAX_SOCKETS_IN_GEN ensures after[i] <= 0 {
      if i >= n {
        assert after[i] == t[rid].cells[row][i];
        assert !Covered(t, rid, row, i);
        assert !Holds(t, rid, row, i, t[rid].cells[row][i]);
      }
    }
  }

  /** Freeing a group with no announced row loses nothing. */
  lemma MaybeDeleteConserves(t: Table, held: set<int>, rid: u32)
    requires Conserved(t, held) && rid in t
    ensures Conserved(MaybeDelete(t, rid), held)
  {
    var t' := MaybeDelete(t, rid);
    if t' != t {
      forall g, i, fd ensures !Holds(t, rid, g, i, fd) {
      }
      forall rid', g, i, fd ensures Holds(t', rid', g, i, fd) <==> Holds(t, rid', g, i, fd) {
      }
      forall rid', g, i, fd | Holds(t', rid', g, i, fd) ensures Covered(t', rid', g, i) {
        assert Holds(t, rid', g, i, fd);
      }
      forall fd | fd in held ensures exists r, g, i :: Holds(t', r, g, i, fd) {
        var r, g, i :| Holds(t, r, g, i, fd);
        assert Holds(t', r, g, i, fd);
      }
    }
  }

  lemma RegisterConserves(t: Table, held: set<int>, rid: u32, row: nat)
    requires Conserved(t, held) && row < MAX_GENS
    ensures Registered(t, rid, row) <= held
    ensures Conserved(Register(t, rid, row), held - Registered(t, rid, row))
  {
    if rid in t {
      CloseRowConserves(t, held, rid, row);
      MaybeDeleteConserves(t[rid := CloseRow(t[rid], row)], held - Registered(t, rid, row), rid);
    } else {
      assert held - {} == held;
    }
  }

  /** Cleaning up closes exactly the descriptors of the stale groups. */
  lemma CleanupConserves(t: Table, held: set<int>, now: u64)
    requires Conserved(t, held)
    ensures CleanedUp(t, now) <= held
    ensures Conserved(Cleanup(t, now), held - CleanedUp(t, now))
  {
    var t', gone := Cleanup(t, now), CleanedUp(t, now);
    forall rid, fd | rid in t && Stale(t[rid], now) && fd in GroupFds(t[rid], MAX_GENS)
      ensures exists r, i :: Holds(t, rid, r, i, fd)
    {
      var r, i :| 0 <= r < MAX_GENS && 0 <= i < t[rid].maxIdx[r] && t[rid].cells[r][i] == fd;
      assert Holds(t, rid, r, i, fd);
    }
    forall rid, g, i, fd | Holds(t', rid, g, i, fd) ensures Covered(t', rid, g, i) && fd in held - gone {
      assert Holds(t, rid, g, i, fd);
    }
    forall rid, g, i, fd, rid', g', i' | Holds(t', rid, g, i, fd) && Holds(t', rid', g', i', fd)
      ensures rid == rid' && g == g' && i == i'
    {
      assert Holds(t, rid, g, i, fd) && Holds(t, rid', g', i', fd);
    }
    forall fd | fd in held - gone ensures exists r, g, i :: Holds(t', r, g, i, fd) {
      var r, g, i :| Holds(t, r, g, i, fd);
      assert Covered(t, r, g, i);
      assert fd in GroupFds(t[r], MAX_GENS);
      assert Holds(t', r, g, i, fd);
    }
  }

  /** Offering a row takes the row's cells away, and no others; the group's table goes with its last announced row. */
  lemma RegisterHolds(t: Table, held: set<int>, rid: u32, row: nat)
    requires Conserved(t, held) && row < MAX_GENS
    ensures forall rid', g, i, fd :: Holds(Register(t, rid, row), rid', g, i, fd) <==>
      Holds(t, rid', g, i, fd) && !(rid' == rid && g == row)
    ensures rid in Register(t, rid, row) <==>
      rid in t && exists g :: 0 <= g < MAX_GENS && g != row && t[rid].maxIdx[g] != 0
    ensures forall rid' :: rid' != rid ==>
      (rid' in Register(t, rid, row) <==> rid' in t) && (rid' in t ==> Register(t, rid, row)[rid'] == t[rid'])
  {
    if rid in t {
      CloseRowHolds(t, rid, row);
      var t1 := t[rid := CloseRow(t[rid], row)];
      assert forall g :: 0 <= g < MAX_GENS ==> t1[rid].maxIdx[g] == if g == row then 0 else t[rid].maxIdx[g];
      forall g, i, fd | Holds(t1, rid, g, i, fd) ensures rid in Register(t, rid, row) {
        assert Holds(t, rid, g, i, fd);
        assert Covered(t, rid, g, i);
      }
    }
  }

  /** The clean-up spares exactly the groups that were touched in the last ten seconds, and leaves them as they are. */
  lemma CleanupHolds(t: Table, now: u64)
    ensures forall rid, g, i, fd :: Holds(Cleanup(t, now), rid, g, i, fd) ==> Holds(t, rid, g, i, fd)
    ensures forall rid :: rid in t && t[rid].lastModified <= now ==>
      (rid in Cleanup(t, now) <==> now - t[rid].lastModified <= 10_000_000_000)
    ensures forall rid :: rid in Cleanup(t, now) ==> rid in t && Cleanup(t, now)[rid] == t[rid]
  {
    assert forall rid :: rid in t && t[rid].lastModified <= now ==>
      (now - t[rid].lastModified) % TWO64 == now - t[rid].lastModified;
  }

  /** A descriptor taken over starts the ten seconds of its group anew: until they are over every clean-up spares the
      group, and the first one after them closes all that it holds. */
  lemma TenSeconds(t: Table, rid: u32, row: nat, len: nat, free: nat, f: int, now: u64, later: u64)
    requires Shaped(t) && row < MAX_GENS && free < len <= MAX_SOCKETS_IN_GEN && f > 0 && now <= later
    ensures var t' := Preserve(t, rid, row, len, free, f, now);
      && Shaped(t') && rid in t'
      && (rid in Cleanup(t', later) <==> later - now <= 10_000_000_000)
      && (f in CleanedUp(t', later) <== later - now > 10_000_000_000)
  {
    var t' := Preserve(t, rid, row, len, free, f, now);
    PreserveHolds(t, rid, row, len, free, f, now);
    CleanupHolds(t', later);
    assert t'[rid].lastModified == now && t'[rid].maxIdx[row] == len && t'[rid].cells[row][free] == f;
    assert f in GroupFds(t'[rid], MAX_GENS);
    if later - now > 10_000_000_000 {
      assert Stale(t'[rid], later);
    }
  }
}
