/** The slot allocator of the daemon: one generation row holds up to 256 socket cookies. */
module Allocator {
  import opened Words

  type Cookie = u64
  type Row = seq<Cookie>

  /** The lowest slot at or above `i` that names no live socket; |row| when there is none. */
  function LowestDead(row: Row, live: set<Cookie>, i: nat): (r: nat)
    requires i <= |row|
    ensures i <= r <= |row|
    ensures forall j :: i <= j < r ==> row[j] in live
    ensures r < |row| ==> row[r] !in live
    decreases |row| - i
  {
    if i < |row| && row[i] in live then LowestDead(row, live, i + 1) else i
  }

  /** One past the highest live slot below `n`; 0 when there is none. */
  function LiveEnd(row: Row, live: set<Cookie>, n: nat): (r: nat)
    requires n <= |row|
    ensures r <= n
    ensures forall j :: r <= j < n ==> row[j] !in live
    ensures 0 < r ==> row[r - 1] in live
  {
    if n == 0 || row[n - 1] in live then n else LiveEnd(row, live, n - 1)
  }

  /** The slot a registration takes: the lowest dead one, or -1 when all are live. */
  function FreePos(row: Row, live: set<Cookie>): (r: int)
    ensures -1 <= r < |row|
    ensures r == -1 <==> forall j :: 0 <= j < |row| ==> row[j] in live
    ensures r >= 0 ==> row[r] !in live && forall j :: 0 <= j < r ==> row[j] in live
  {
    var d := LowestDead(row, live, 0);
    if d == |row| then -1 else d
  }

  /** The row length a registration announces: it covers the slot taken and every live slot. */
  function GenLen(row: Row, live: set<Cookie>): (r: nat)
    ensures FreePos(row, live) < r <= |row| || r == |row| == 0
    ensures forall j :: 0 <= j < |row| && row[j] in live ==> j < r
    ensures r > FreePos(row, live) + 1 ==> row[r - 1] in live
  {
    Max(LiveEnd(row, live, |row|), FreePos(row, live) + 1)
  }

  /** cookies_find_empty: one pass over the row. `prevPos` is the first slot that already names
      `cookie`, or -1. */
  method CookiesFindEmpty(cookies: seq<Row>, gen: nat, sockhash: set<Cookie>, cookie: Cookie)
    returns (prevPos: int, freePos: int, genLen: nat)
    requires |cookies| == MAX_GENS && |cookies[gen % MAX_GENS]| == MAX_SOCKETS_IN_GEN
    ensures freePos == FreePos(cookies[gen % MAX_GENS], sockhash)
    ensures genLen == GenLen(cookies[gen % MAX_GENS], sockhash)
    ensures -1 <= prevPos < MAX_SOCKETS_IN_GEN
    ensures prevPos >= 0 ==> cookies[gen % MAX_GENS][prevPos] == cookie && cookie in sockhash
    ensures cookie in sockhash ==>
      cookie !in cookies[gen % MAX_GENS][..if prevPos < 0 then MAX_SOCKETS_IN_GEN else prevPos]
  {
    ghost var row := cookies[gen % MAX_GENS];
    freePos, prevPos, genLen := -1, -1, 0;
    for i := 0 to MAX_SOCKETS_IN_GEN
      invariant -1 <= freePos < i && -1 <= prevPos < i && genLen <= i
      invariant if freePos < 0 then forall j :: 0 <= j < i ==> row[j] in sockhash
                else row[freePos] !in sockhash && forall j :: 0 <= j < freePos ==> row[j] in sockhash
      invariant freePos < genLen
      invariant forall j :: genLen <= j < i ==> row[j] !in sockhash
      invariant genLen > freePos + 1 ==> row[genLen - 1] in sockhash
      invariant prevPos >= 0 ==> row[prevPos] == cookie && cookie in sockhash
      invariant cookie in sockhash ==> cookie !in row[..if prevPos < 0 then i else prevPos]
    {
      var uc := cookies[gen % MAX_GENS][i];
      if uc in sockhash {
        if uc == cookie && prevPos == -1 {
          prevPos := i;
        }
        genLen := i + 1;
      } else if freePos == -1 {
        freePos := i;
        genLen := i + 1;
      }
    }
    FreePosUnique(row, sockhash, freePos);
    GenLenUnique(row, sockhash, genLen);
  }

  lemma FreePosUnique(row: Row, live: set<Cookie>, p: int)
    requires -1 <= p < |row|
    requires if p < 0 then forall j :: 0 <= j < |row| ==> row[j] in live
             else row[p] !in live && forall j :: 0 <= j < p ==> row[j] in live
    ensures p == FreePos(row, live)
  {
  }

  lemma GenLenUnique(row: Row, live: set<Cookie>, len: nat)
    requires FreePos(row, live) < len <= |row|
    requires forall j :: len <= j < |row| ==> row[j] !in live
    requires len > FreePos(row, live) + 1 ==> row[len - 1] in live
    ensures len == GenLen(row, live)
  {
    var g := GenLen(row, live);
    assert g > FreePos(row, live) + 1 ==> row[g - 1] in live;
  }

  /** Registering into a row whose live slots are exactly the first `n` keeps them so: slots
      fill from the bottom and the announced length is the number of live slots. */
  lemma PrefixGrows(row: Row, live: set<Cookie>, n: nat)
    requires n < |row|
    requires forall j :: 0 <= j < |row| ==> (row[j] in live <==> j < n)
    ensures FreePos(row, live) == n && GenLen(row, live) == n + 1
  {
    FreePosUnique(row, live, n);
    GenLenUnique(row, live, n + 1);
  }
}
