/** The table of kept descriptors as the daemon runs it: loops over cells, rows and groups, closing as they go.
    A descriptor can be closed only while it is open, so every close below is a first close. */
module TubularStore {
  import opened Words
  import opened Allocator
  import opened Tubular

  /** The announced descriptors of a row are open and differ from each other. */
  ghost predicate RowOpen(g: TubGroup, row: nat, open: set<int>)
    requires g.Shaped() && row < MAX_GENS
  {
    && (forall i :: 0 <= i < g.maxIdx[row] && g.cells[row][i] > 0 ==> g.cells[row][i] in open)
    && (forall i, j :: 0 <= i < j < g.maxIdx[row] && g.cells[row][i] > 0 ==> g.cells[row][i] != g.cells[row][j])
  }

  ghost predicate GroupOpen(g: TubGroup, open: set<int>)
    requires g.Shaped()
  {
    && (forall row :: 0 <= row < MAX_GENS ==> RowOpen(g, row, open))
    && (forall r, i, r', i' ::
          0 <= r < r' < MAX_GENS && 0 <= i < g.maxIdx[r] && 0 <= i' < g.maxIdx[r'] && g.cells[r][i] > 0 ==>
          g.cells[r][i] != g.cells[r'][i'])
  }

  /** A conserved table is fit for closing. */
  lemma ConservedIsOpen(t: Table, held: set<int>, rid: u32)
    requires Conserved(t, held) && rid in t
    ensures t[rid].Shaped() && GroupOpen(t[rid], held)
  {
    var g := t[rid];
    forall row, i | 0 <= row < MAX_GENS && 0 <= i < g.maxIdx[row] && g.cells[row][i] > 0
      ensures Holds(t, rid, row, i, g.cells[row][i]) && g.cells[row][i] in held
    {
      assert Holds(t, rid, row, i, g.cells[row][i]);
    }
  }

  /** The row after `n` cells have been reset. */
  function PartClosed(g: TubGroup, row: nat, n: nat): TubGroup
    requires g.Shaped() && row < MAX_GENS && n <= MAX_SOCKETS_IN_GEN
  {
    g.(cells := g.cells[row := seq(n, _ => -1) + g.cells[row][n..]])
  }

  lemma PartClosedNext(g: TubGroup, row: nat, n: nat)
    requires g.Shaped() && row < MAX_GENS && n < MAX_SOCKETS_IN_GEN
    ensures var p := PartClosed(g, row, n);
      p.Shaped() && p.cells[row][n] == g.cells[row][n] &&
        PartClosed(g, row, n + 1) == p.(cells := p.cells[row := p.cells[row][n := -1]])
  {
    var p := PartClosed(g, row, n);
    assert PartClosed(g, row, n + 1).cells[row] == p.cells[row][n := -1];
    assert PartClosed(g, row, n + 1).cells == p.cells[row := p.cells[row][n := -1]];
  }

  lemma PartClosedNone(g: TubGroup, row: nat)
    requires g.Shaped() && row < MAX_GENS
    ensures PartClosed(g, row, 0) == g
  {
    assert seq(0, _ => -1) + g.cells[row][0..] == g.cells[row];
    assert PartClosed(g, row, 0).cells == g.cells;
  }

  /** The next cell of an open row has not been closed yet. */
  lemma NextIsOpen(g: TubGroup, row: nat, n: nat, fds: map<int, Cookie>)
    requires g.Shaped() && row < MAX_GENS && n < g.maxIdx[row] && RowOpen(g, row, fds.Keys)
    ensures var fd, before := g.cells[row][n], fds - RowFds(g.cells[row], n);
      && (fd > 0 ==> fd in before)
      && fds - RowFds(g.cells[row], n + 1) == if fd > 0 then before - {fd} else before
  {
  }

  lemma NothingClosed(fds: map<int, Cookie>, cells: seq<int>)
    ensures fds - RowFds(cells, 0) == fds
  {
  }

  lemma PartClosedAll(g: TubGroup, row: nat)
    requires g.Shaped() && row < MAX_GENS
    ensures var p := PartClosed(g, row, g.maxIdx[row]);
      p.Shaped() && CloseRow(g, row) == p.(maxIdx := p.maxIdx[row := 0])
  {
  }

  lemma RowOpenGrows(g: TubGroup, open: set<int>, open': set<int>, row: nat)
    requires g.Shaped() && row < MAX_GENS && GroupOpen(g, open) && open <= open'
    ensures RowOpen(g, row, open')
  {
    assert RowOpen(g, row, open);
  }

  /** The first `n` rows closed. */
  ghost function RowsClosed(g: TubGroup, n: nat): (r: TubGroup)
    requires g.Shaped() && n <= MAX_GENS
    ensures r.Shaped() && r.lastModified == g.lastModified
    ensures forall i :: 0 <= i < MAX_GENS ==> r.maxIdx[i] == if i < n then 0 else g.maxIdx[i]
    ensures forall i :: n <= i < MAX_GENS ==> r.cells[i] == g.cells[i]
  {
    if n == 0 then g else CloseRow(RowsClosed(g, n - 1), n - 1)
  }

  class TubularList {
    var groups: Table
    var fds: map<int, Cookie>

    constructor ()
      ensures groups == map[] && fds == map[]
    {
      groups, fds := map[], map[];
    }

    method Close(fd: int)
      requires fd in fds
      modifies `fds
      ensures fds == old(fds) - {fd}
    {
      fds := fds - {fd};
    }

    /** tubular_maybe_preserve_fd on a labelled group. */
    method MaybePreserveFd(labelled: bool, rid: u32, gen: nat, genLen: nat, freePos: nat, f: int, now: u64)
      returns (closeFd: bool)
      requires Shaped(groups) && freePos < MAX_SOCKETS_IN_GEN
      requires Replaced(groups, rid, gen % MAX_GENS, freePos) <= fds.Keys
      modifies this
      ensures closeFd == !labelled
      ensures groups == if labelled then Preserve(old(groups), rid, gen % MAX_GENS, genLen, freePos, f, now)
        else old(groups)
      ensures fds == if labelled then old(fds) - Replaced(old(groups), rid, gen % MAX_GENS, freePos) else old(fds)
    {
      if labelled {
        LookupOrAdd(rid, now);
        var row := gen % MAX_GENS;
        var g := groups[rid];
        groups := groups[rid := g.(maxIdx := g.maxIdx[row := genLen])];
        var fd := g.cells[row][freePos];
        if fd > 0 {
          Close(fd);
        }
        groups := groups[rid := groups[rid].(cells := g.cells[row := g.cells[row][freePos := f]])];
        groups := groups[rid := groups[rid].(lastModified := now)];
        assert old(fds) - {} == old(fds);
        return false;
      }
      return true;
    }

    /** reuseport_group_lookup_or_add. */
    method LookupOrAdd(rid: u32, now: u64)
      modifies `groups
      ensures groups == Tubular.LookupOrAdd(old(groups), rid, now)
    {
      if rid !in groups {
        groups := groups[rid := Blank(now)];
      }
    }

    /** tubular_close_wg. */
    method CloseWg(rid: u32, wg: nat)
      requires rid in groups && groups[rid].Shaped() && RowOpen(groups[rid], wg % MAX_GENS, fds.Keys)
      modifies this
      ensures groups == old(groups)[rid := CloseRow(old(groups)[rid], wg % MAX_GENS)]
      ensures fds == old(fds) - RowFds(old(groups)[rid].cells[wg % MAX_GENS], old(groups)[rid].maxIdx[wg % MAX_GENS])
    {
      hide RowOpen, RowFds, PartClosed;
      var row := wg % MAX_GENS;
      ghost var g := groups[rid];
      var maxIdx := groups[rid].maxIdx[row];
      PartClosedNone(g, row);
      NothingClosed(fds, g.cells[row]);
      for i := 0 to maxIdx
        invariant groups == old(groups)[rid := PartClosed(g, row, i)]
        invariant fds == old(fds) - RowFds(g.cells[row], i)
      {
        PartClosedNext(g, row, i);
        NextIsOpen(g, row, i, old(fds));
        var h := groups[rid];
        var fd := h.cells[row][i];
        if fd > 0 {
          Close(fd);
        }
        groups := groups[rid := h.(cells := h.cells[row := h.cells[row][i := -1]])];
      }
      PartClosedAll(g, row);
      groups := groups[rid := groups[rid].(maxIdx := groups[rid].maxIdx[row := 0])];
    }

    /** reuseport_group_maybe_delete. */
    method MaybeDelete(rid: u32) returns (deleted: bool)
      requires rid in groups && groups[rid].Shaped()
      modifies `groups
      ensures groups == Tubular.MaybeDelete(old(groups), rid)
      ensures deleted <==> rid !in groups
    {
      for g := 0 to MAX_GENS
        invariant groups == old(groups)
        invariant forall i :: 0 <= i < g ==> groups[rid].maxIdx[i] == 0
      {
        if groups[rid].maxIdx[g] != 0 {
          return false;
        }
      }
      groups := groups - {rid};
      return true;
    }

    /** tubular_maybe_register on a labelled group: the row is offered, then closed whatever Tubular answered. */
    method MaybeRegister(rid: u32, wg: nat, ghost held: set<int>)
      requires wg < MAX_GENS && Conserved(groups, held) && held <= fds.Keys
      modifies this
      ensures groups == Register(old(groups), rid, wg)
      ensures fds == old(fds) - Registered(old(groups), rid, wg)
    {
      if rid in groups {
        ConservedIsOpen(groups, held, rid);
        RowOpenGrows(groups[rid], held, fds.Keys, wg);
        assert wg % MAX_GENS == wg;
        CloseWg(rid, wg);
        var _ := MaybeDelete(rid);
      } else {
        assert fds - {} == fds;
      }
    }

    /** One stale group: all its rows are closed, then it goes. */
    method DropGroup(rid: u32)
      requires rid in groups && groups[rid].Shaped() && GroupOpen(groups[rid], fds.Keys)
      modifies this
      ensures groups == old(groups) - {rid}
      ensures fds == old(fds) - GroupFds(old(groups)[rid], MAX_GENS)
    {
      hide GroupOpen, RowOpen, GroupFds, RowFds, RowsClosed, CloseRow;
      ghost var g0 := groups[rid];
      assert groups[rid] == RowsClosed(g0, 0) && fds == fds - GroupFds(g0, 0) by {
        NoRowClosed(g0, fds);
      }
      for g := 0 to MAX_GENS
        invariant groups == old(groups)[rid := RowsClosed(g0, g)]
        invariant fds == old(fds) - GroupFds(g0, g)
      {
        RowStillOpen(g0, g, old(fds));
        assert g % MAX_GENS == g;
        CloseWg(rid, g);
      }
      var _ := MaybeDelete(rid);
    }

    /** reuseport_groups_maybe_cleanup_stale, in any order of the list. */
    method CleanupStale(now: u64)
      requires Conserved(groups, fds.Keys)
      modifies this
      ensures groups == Cleanup(old(groups), now)
      ensures fds == old(fds) - CleanedUp(old(groups), now)
    {
      hide Conserved, Stale, GroupFds, StaleFds, Unvisited, GroupOpen;
      var todo := groups.Keys;
      ConservedIsShaped(groups, fds.Keys);
      NothingLooked(groups, fds, now);
      while todo != {}
        invariant todo <= old(groups.Keys)
        invariant groups == Unvisited(old(groups), todo, now)
        invariant fds == old(fds) - StaleFds(old(groups), old(groups.Keys) - todo, now)
        decreases todo
      {
        var rid :| rid in todo;
        Looked(old(groups), old(fds), todo, rid, now);
        if Stale(groups[rid], now) {
          DropGroup(rid);
        }
        todo := todo - {rid};
      }
      AllLooked(old(groups), now);
    }
  }

  lemma NoRowClosed(g: TubGroup, fds: map<int, Cookie>)
    requires g.Shaped()
    ensures RowsClosed(g, 0) == g && fds - GroupFds(g, 0) == fds
  {
  }

  /** The next row is open, whatever was closed in the rows before it. */
  lemma RowStillOpen(g: TubGroup, row: nat, fds: map<int, Cookie>)
    requires g.Shaped() && row < MAX_GENS && GroupOpen(g, fds.Keys)
    ensures RowOpen(RowsClosed(g, row), row, (fds - GroupFds(g, row)).Keys)
    ensures CloseRow(RowsClosed(g, row), row) == RowsClosed(g, row + 1)
    ensures var h := RowsClosed(g, row);
      fds - GroupFds(g, row) - RowFds(h.cells[row], h.maxIdx[row]) == fds - GroupFds(g, row + 1)
  {
    hide GroupOpen, RowOpen, RowFds, CloseRow;
    var h, left := RowsClosed(g, row), fds - GroupFds(g, row);
    assert left.Keys == fds.Keys - GroupFds(g, row);
    RowLeft(g, row, fds.Keys);
    SameRowOpen(g, h, row, left.Keys);
    assert GroupFds(g, row + 1) == GroupFds(g, row) + RowFds(g.cells[row], g.maxIdx[row]);
  }

  lemma SameRowOpen(g: TubGroup, h: TubGroup, row: nat, open: set<int>)
    requires g.Shaped() && h.Shaped() && row < MAX_GENS && h.cells[row] == g.cells[row]
    requires h.maxIdx[row] == g.maxIdx[row] && RowOpen(g, row, open)
    ensures RowOpen(h, row, open)
  {
  }

  lemma RowLeft(g: TubGroup, row: nat, open: set<int>)
    requires g.Shaped() && row < MAX_GENS && GroupOpen(g, open)
    ensures RowOpen(g, row, open - GroupFds(g, row))
  {
    hide GroupFds;
    assert RowOpen(g, row, open);
  }

  /** The groups left when `todo` are still to be looked at. */
  ghost function Unvisited(t: Table, todo: set<u32>, now: u64): Table {
    map rid | rid in t && (rid in todo || !Stale(t[rid], now)) :: t[rid]
  }

  /** The descriptors of the stale groups among `rids`. */
  ghost function StaleFds(t: Table, rids: set<u32>, now: u64): set<int>
    requires Shaped(t)
  {
    set rid, fd | rid in rids && rid in t && Stale(t[rid], now) && fd in GroupFds(t[rid], MAX_GENS) :: fd
  }

  lemma ConservedIsShaped(t: Table, held: set<int>)
    requires Conserved(t, held)
    ensures Shaped(t)
  {
  }

  lemma NothingLooked(t: Table, fds: map<int, Cookie>, now: u64)
    requires Shaped(t)
    ensures Unvisited(t, t.Keys, now) == t && fds - StaleFds(t, t.Keys - t.Keys, now) == fds
  {
    assert StaleFds(t, t.Keys - t.Keys, now) == {};
  }

  lemma AllLooked(t: Table, now: u64)
    requires Shaped(t)
    ensures Unvisited(t, {}, now) == Cleanup(t, now) && StaleFds(t, t.Keys - {}, now) == CleanedUp(t, now)
  {
  }

  /** One more group has been looked at. */
  lemma Looked(t: Table, fds: map<int, Cookie>, todo: set<u32>, rid: u32, now: u64)
    requires Conserved(t, fds.Keys) && todo <= t.Keys && rid in todo
    ensures var left, left' := fds - StaleFds(t, t.Keys - todo, now), fds - StaleFds(t, t.Keys - (todo - {rid}), now);
      && rid in Unvisited(t, todo, now) && Unvisited(t, todo, now)[rid] == t[rid] && t[rid].Shaped()
      && if Stale(t[rid], now) then
           && GroupOpen(t[rid], left.Keys)
           && Unvisited(t, todo - {rid}, now) == Unvisited(t, todo, now) - {rid} &&
             left' == left - GroupFds(t[rid], MAX_GENS)
         else
           Unvisited(t, todo - {rid}, now) == Unvisited(t, todo, now) && left' == left
  {
    hide GroupOpen, Stale, GroupFds, Holds, Covered;
    assert t[rid].Shaped();
    assert (fds - StaleFds(t, t.Keys - todo, now)).Keys == fds.Keys - StaleFds(t, t.Keys - todo, now);
    assert t.Keys - (todo - {rid}) == t.Keys - todo + {rid};
    StaleGrows(t, t.Keys - todo, rid, now);
    GroupStillOpen(t, fds.Keys, todo, rid, now);
  }

  lemma StaleGrows(t: Table, rids: set<u32>, rid: u32, now: u64)
    requires Shaped(t) && rid in t
    ensures StaleFds(t, rids + {rid}, now) == StaleFds(t, rids, now) + if Stale(t[rid], now) then
      GroupFds(t[rid], MAX_GENS) else {}
  {
  }

  /** The descriptors of one group are not among those of other groups. */
  lemma GroupsApart(t: Table, open: set<int>, rid: u32, row: nat, i: nat, rid': u32)
    requires Conserved(t, open) && rid in t && rid' in t && rid != rid' && row < MAX_GENS && i < t[rid].maxIdx[row]
    requires t[rid].cells[row][i] > 0
    ensures t[rid].cells[row][i] !in GroupFds(t[rid'], MAX_GENS)
  {
    var fd := t[rid].cells[row][i];
    assert Holds(t, rid, row, i, fd);
    assert forall r': nat, i': nat :: !Holds(t, rid', r', i', fd);
    forall r': nat, i': nat | r' < MAX_GENS && i' < t[rid'].maxIdx[r'] ensures t[rid'].cells[r'][i'] != fd {
      assert !Holds(t, rid', r', i', fd);
    }
  }

  lemma GroupStillOpen(t: Table, open: set<int>, todo: set<u32>, rid: u32, now: u64)
    requires Conserved(t, open) && todo <= t.Keys && rid in todo
    ensures t[rid].Shaped() && GroupOpen(t[rid], open - StaleFds(t, t.Keys - todo, now))
  {
    ConservedIsOpen(t, open, rid);
    var g := t[rid];
    forall row, i | 0 <= row < MAX_GENS && 0 <= i < g.maxIdx[row] && g.cells[row][i] > 0
      ensures g.cells[row][i] !in StaleFds(t, t.Keys - todo, now)
    {
      forall rid' | rid' in t.Keys - todo ensures g.cells[row][i] !in GroupFds(t[rid'], MAX_GENS) {
        GroupsApart(t, open, rid, row, i, rid');
      }
    }
    forall row | 0 <= row < MAX_GENS ensures RowOpen(g, row, open - StaleFds(t, t.Keys - todo, now)) {
      assert RowOpen(g, row, open);
    }
  }
}
