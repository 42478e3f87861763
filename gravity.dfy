/**
 * One frame of falling sand (`Board::ApplyGravity`, src/Board.cpp) as
 * functions on grid and particle values: the wake-up pass, the capped and
 * sorted batch, and the per-particle fall / diagonal slide / settle rule.
 */
module Gravity {
  import opened Wrappers
  import opened Particles
  import opened Grids

  /// At most this many particles move in one frame.
  const MaxBatch: int := 1000

  /// Furthest a particle falls straight down in one frame.
  const MaxFall: int := 3

  /// C++ `a / 2` on `int`, which truncates toward zero (Dafny's `/` rounds down).
  function Half(a: int): (q: int)
    ensures a >= 0 ==> 0 <= a - 2 * q <= 1
    ensures a < 0 ==> -1 <= a - 2 * q <= 0
  {
    if a >= 0 then a / 2 else -((-a) / 2)
  }

  function Min(a: int, b: int): int {
    if a <= b then a else b
  }

  /// `min(velocity_y / 2 + 1, 3)` for the velocity after the increment.
  function FallDistance(v: int): int {
    Min(Half(v) + 1, MaxFall)
  }

  /**
   * A particle at rest or falling moves 1 to 3 rows; after the shockwave's
   * upward kick (velocity -2 or less after the increment) it does not fall straight at all.
   */
  lemma FallDistanceRange(v: int)
    ensures FallDistance(v) <= MaxFall
    ensures v >= 0 ==> 1 <= FallDistance(v)
    ensures v >= 4 <==> FallDistance(v) == MaxFall
    ensures v <= -2 <==> FallDistance(v) <= 0
  {
  }

  /**
   * The row a particle in column x falls to from row y when it may try `steps`
   * rows: it moves one row at a time while the next row is on the board and free.
   */
  function FallTo(g: Grid, x: int, y: int, steps: int): (r: int)
    requires WellShaped(g) && 0 <= x < Width && 0 <= y < Height
    ensures y <= r < Height
    ensures r <= y + steps || r == y
    ensures forall t :: y < t <= r ==> g[t][x].None?
    ensures r < y + steps ==> r + 1 == Height || g[r + 1][x].Some?
    decreases steps
  {
    if steps <= 0 || y + 1 >= Height || g[y + 1][x].Some? then y
    else FallTo(g, x, y + 1, steps - 1)
  }

  /// The sideways offset tried i-th: {-1, 1} when `dir_index` is 0 and {1, -1} when it is 1.
  function DiagonalDir(dir: int, i: int): int {
    if (dir == 0) == (i == 0) then -1 else 1
  }

  /// The diagonal target test: inside the side walls, above the floor and free.
  predicate DiagonalFree(g: Grid, x: int, y: int)
    requires WellShaped(g) && 0 <= y
  {
    0 <= x < Width && y < Height && g[y][x].None?
  }

  datatype StepResult = StepResult(particle: Particle, grid: Grid)

  /**
   * Where one unsettled particle `p` goes on the grid `g1` from which its own
   * slot has been cleared: its velocity is bumped, then it falls, or settles on
   * the floor, or slides diagonally, or settles where it is.
   */
  function Moved(g1: Grid, p: Particle, dir: int): (q: Particle)
    requires WellShaped(g1) && OnBoard(p)
    ensures OnBoard(q) && q.color == p.color && q.y >= p.y
    ensures g1[p.y][p.x].None? ==> g1[q.y][q.x].None?
  {
    var v := p.velocityY + 1;
    var newY := FallTo(g1, p.x, p.y, FallDistance(v));
    if newY > p.y then
      if newY >= Height - 1 then p.(y := Height - 1, velocityY := 0, settled := true)
      else p.(y := newY, velocityY := v)
    else if p.y + 1 >= Height then p.(y := Height - 1, velocityY := 0, settled := true)
    else if DiagonalFree(g1, p.x + DiagonalDir(dir, 0), p.y + 1) then
      p.(x := p.x + DiagonalDir(dir, 0), y := p.y + 1, velocityY := 0)
    else if DiagonalFree(g1, p.x + DiagonalDir(dir, 1), p.y + 1) then
      p.(x := p.x + DiagonalDir(dir, 1), y := p.y + 1, velocityY := 0)
    else p.(velocityY := 0, settled := true)
  }

  /**
   * What the loop body of `ApplyGravity` does to one particle `id` currently
   * `p`: free its slot, move it, and occupy the slot it ends on.
   */
  function Advance(g: Grid, id: Id, p: Particle, dir: int): (r: StepResult)
    requires WellShaped(g) && OnBoard(p)
    ensures WellShaped(r.grid) && OnBoard(r.particle)
  {
    var g1 := SetCell(g, p.x, p.y, None);
    var q := Moved(g1, p, dir);
    StepResult(q, SetCell(g1, q.x, q.y, Some(id)))
  }

  /// In every branch the particle leaves its old slot and occupies its new one, which was free.
  lemma AdvanceRelocates(g: Grid, id: Id, p: Particle, dir: int)
    requires WellShaped(g) && OnBoard(p)
    ensures var r := Advance(g, id, p, dir);
      var g1 := SetCell(g, p.x, p.y, None);
      r.grid == SetCell(g1, r.particle.x, r.particle.y, Some(id)) &&
      g1[r.particle.y][r.particle.x] == None
  {
  }

  /**
   * The three outcomes and nothing else: a straight fall of 1..FallDistance rows
   * through free slots, a one-row diagonal step into a free slot (the second
   * side only when the first is not free), or settling in place at rest.
   * The colour never changes and the row never decreases.
   */
  lemma AdvanceOutcomes(g: Grid, id: Id, p: Particle, dir: int)
    requires WellShaped(g) && OnBoard(p)
    ensures var q := Advance(g, id, p, dir).particle;
      var g1 := SetCell(g, p.x, p.y, None);
      var v := p.velocityY + 1;
      && q.color == p.color
      && q.y >= p.y
      && (|| (q.x == p.x && p.y < q.y <= p.y + FallDistance(v) &&
              (forall t :: p.y < t <= q.y ==> g1[t][p.x].None?))
          || (q.y == p.y + 1 && q.settled == p.settled && q.velocityY == 0 &&
              ((q.x == p.x + DiagonalDir(dir, 0) && DiagonalFree(g1, q.x, q.y)) ||
               (q.x == p.x + DiagonalDir(dir, 1) && DiagonalFree(g1, q.x, q.y) &&
                !DiagonalFree(g1, p.x + DiagonalDir(dir, 0), q.y))))
          || (q.x == p.x && q.y == p.y && q.settled && q.velocityY == 0))
  {
  }

  /// A particle that ends in the bottom row in its own column is settled and at rest.
  lemma AdvanceSettlesOnFloor(g: Grid, id: Id, p: Particle, dir: int)
    requires WellShaped(g) && OnBoard(p)
    ensures var q := Advance(g, id, p, dir).particle;
      q.y == Height - 1 && q.x == p.x ==> q.settled && q.velocityY == 0
  {
  }

  /// A particle stays in place only when it cannot fall and both diagonal slots are taken.
  lemma AdvanceSettlesOnlyWhenStuck(g: Grid, id: Id, p: Particle, dir: int)
    requires WellShaped(g) && OnBoard(p) && p.y + 1 < Height
    ensures var q := Advance(g, id, p, dir).particle;
      var g1 := SetCell(g, p.x, p.y, None);
      q.x == p.x && q.y == p.y ==>
        (FallDistance(p.velocityY + 1) <= 0 || g1[p.y + 1][p.x].Some?) &&
        !DiagonalFree(g1, p.x - 1, p.y + 1) && !DiagonalFree(g1, p.x + 1, p.y + 1)
  {
    var v := p.velocityY + 1;
    var g1 := SetCell(g, p.x, p.y, None);
    var newY := FallTo(g1, p.x, p.y, FallDistance(v));
    assert DiagonalDir(dir, 0) == -DiagonalDir(dir, 1);
    if FallDistance(v) > 0 && g1[p.y + 1][p.x].None? {
      assert newY > p.y;
    }
  }

  /**
   * Moving particle `id` of a consistent grid from its slot to a slot that is
   * free once its own slot is cleared keeps the grid consistent.
   */
  lemma RelocateKeepsConsistent(g: Grid, ids: seq<Id>, pool: map<Id, Particle>, id: Id, q: Particle)
    requires WellShaped(g) && Consistent(g, ids, pool) && id in ids && id in pool && OnBoard(q)
    requires SetCell(g, pool[id].x, pool[id].y, None)[q.y][q.x] == None
    ensures var g1 := SetCell(g, pool[id].x, pool[id].y, None);
      Consistent(SetCell(g1, q.x, q.y, Some(id)), ids, pool[id := q])
  {
    var p := pool[id];
    var g1 := SetCell(g, p.x, p.y, None);
    var g2 := SetCell(g1, q.x, q.y, Some(id));
    var pool' := pool[id := q];
    forall i | 0 <= i < |ids|
      ensures ids[i] in pool' && OnBoard(pool'[ids[i]]) && g2[pool'[ids[i]].y][pool'[ids[i]].x] == Some(ids[i])
    {
      if ids[i] != id {
        var o := pool[ids[i]];
        assert g[o.y][o.x] == Some(ids[i]);
        assert g1[o.y][o.x] == Some(ids[i]);
      }
    }
    forall y: int, x: int | 0 <= y < Height && 0 <= x < Width && g2[y][x].Some?
      ensures g2[y][x].value in ids && g2[y][x].value in pool' && At(pool'[g2[y][x].value], x, y)
    {
      if !(y == q.y && x == q.x) {
        assert g1[y][x] == g[y][x];
        assert g[y][x].value != id;
      }
    }
  }

  /// One step of the gravity loop keeps a consistent grid consistent.
  lemma AdvanceKeepsConsistent(g: Grid, ids: seq<Id>, pool: map<Id, Particle>, id: Id, dir: int)
    requires WellShaped(g) && Consistent(g, ids, pool) && id in ids && id in pool
    ensures OnBoard(pool[id])
    ensures var r := Advance(g, id, pool[id], dir);
      Consistent(r.grid, ids, pool[id := r.particle])
  {
    var k :| 0 <= k < |ids| && ids[k] == id;
    assert OnBoard(pool[ids[k]]);
    var r := Advance(g, id, pool[id], dir);
    AdvanceRelocates(g, id, pool[id], dir);
    RelocateKeepsConsistent(g, ids, pool, id, r.particle);
  }

  /// The wake-up test: a settled particle with a free slot below becomes unsettled.
  function Woken(p: Particle, g: Grid): (q: Particle)
    requires WellShaped(g)
  {
    if p.settled && 0 <= p.y && p.y + 1 < Height && 0 <= p.x < Width && g[p.y + 1][p.x].None?
    then p.(settled := false) else p
  }

  /// Waking never moves a particle; it only clears `settled`, and only over a free slot.
  lemma WokenKeepsPlace(p: Particle, g: Grid)
    requires WellShaped(g)
    ensures var q := Woken(p, g);
      q.x == p.x && q.y == p.y && q.color == p.color && q.velocityY == p.velocityY &&
      (q.settled != p.settled <==>
        p.settled && 0 <= p.y && p.y + 1 < Height && 0 <= p.x < Width && g[p.y + 1][p.x].None?)
  {
  }

  /// The wake-up pass over the collection `ids`, on a grid it does not change.
  function WakeAll(ids: seq<Id>, pool: map<Id, Particle>, g: Grid): (r: map<Id, Particle>)
    requires WellShaped(g) && AllIn(ids, pool)
    ensures r.Keys == pool.Keys
    ensures AllOnBoard(pool) ==> AllOnBoard(r)
  {
    if |ids| == 0 then pool
    else
      var r0 := WakeAll(ids[..|ids| - 1], pool, g);
      var id := ids[|ids| - 1];
      WokenKeepsPlace(r0[id], g);
      r0[id := Woken(r0[id], g)]
  }

  /// The pass wakes exactly the particles of the collection and leaves every other one alone.
  lemma {:induction false} WakeAllValues(ids: seq<Id>, pool: map<Id, Particle>, g: Grid)
    requires WellShaped(g) && AllIn(ids, pool)
    ensures var r := WakeAll(ids, pool, g);
      forall id :: id in pool ==> r[id] == if id in ids then Woken(pool[id], g) else pool[id]
    decreases |ids|
  {
    if |ids| > 0 {
      var init := ids[..|ids| - 1];
      WakeAllValues(init, pool, g);
      assert forall j :: j in ids <==> j in init || j == ids[|ids| - 1];
    }
  }

  /// One more particle of the wake-up pass.
  lemma WakeAllStep(ids: seq<Id>, pool: map<Id, Particle>, g: Grid, i: int)
    requires WellShaped(g) && AllIn(ids, pool) && 0 <= i < |ids|
    ensures var r := WakeAll(ids[..i], pool, g);
      WakeAll(ids[..i + 1], pool, g) == r[ids[i] := Woken(r[ids[i]], g)]
  {
    assert ids[..i + 1][..i] == ids[..i];
  }


  predicate AllSettled(ids: seq<Id>, pool: map<Id, Particle>)
    requires AllIn(ids, pool)
  {
    forall i :: 0 <= i < |ids| ==> pool[ids[i]].settled
  }

  /// The unsettled particles of the collection, in collection order.
  function UnsettledIds(ids: seq<Id>, pool: map<Id, Particle>): (r: seq<Id>)
    requires AllIn(ids, pool)
    ensures |r| <= |ids| && AllIn(r, pool)
  {
    if |ids| == 0 then []
    else
      var init := UnsettledIds(ids[..|ids| - 1], pool);
      var id := ids[|ids| - 1];
      if pool[id].settled then init else init + [id]
  }

  /// The collected particles are exactly the unsettled ones, each once if the collection has no repeats.
  lemma {:induction false} UnsettledIdsMembers(ids: seq<Id>, pool: map<Id, Particle>)
    requires AllIn(ids, pool)
    ensures var r := UnsettledIds(ids, pool);
      && (forall id :: id in r <==> id in ids && !pool[id].settled)
      && (Distinct(ids) ==> Distinct(r))
    decreases |ids|
  {
    if |ids| > 0 {
      var init := ids[..|ids| - 1];
      UnsettledIdsMembers(init, pool);
      assert forall j :: j in ids <==> j in init || j == ids[|ids| - 1];
    }
  }

  /// The batch limit, applied before sorting: the first 1000 in collection order.
  function Capped(s: seq<Id>): (r: seq<Id>)
    ensures |r| <= MaxBatch && r <= s
    ensures |s| <= MaxBatch ==> r == s
  {
    if |s| > MaxBatch then s[..MaxBatch] else s
  }

  predicate RowsDescending(s: seq<Id>, pool: map<Id, Particle>)
    requires AllIn(s, pool)
  {
    forall i, j :: 0 <= i < j < |s| ==> pool[s[i]].y >= pool[s[j]].y
  }

  /// Insertion before the first element strictly lower on the board than `id`.
  function InsertByRow(id: Id, s: seq<Id>, pool: map<Id, Particle>): (r: seq<Id>)
    requires id in pool && AllIn(s, pool)
    ensures AllIn(r, pool)
    decreases |s|
  {
    if |s| == 0 || pool[id].y >= pool[s[0]].y then
      [id] + s
    else
      [s[0]] + InsertByRow(id, s[1..], pool)
  }

  /// Insertion adds exactly `id`.
  lemma {:induction false} InsertByRowPermutes(id: Id, s: seq<Id>, pool: map<Id, Particle>)
    requires id in pool && AllIn(s, pool)
    ensures multiset(InsertByRow(id, s, pool)) == multiset(s) + multiset{id}
    decreases |s|
  {
    if |s| > 0 && pool[id].y < pool[s[0]].y {
      InsertByRowPermutes(id, s[1..], pool);
      assert s == [s[0]] + s[1..];
    }
  }

  /// Insertion keeps a descending sequence descending.
  lemma {:induction false} InsertByRowSorted(id: Id, s: seq<Id>, pool: map<Id, Particle>)
    requires id in pool && AllIn(s, pool) && RowsDescending(s, pool)
    ensures RowsDescending(InsertByRow(id, s, pool), pool)
    decreases |s|
  {
    if |s| > 0 && pool[id].y < pool[s[0]].y {
      var rest := InsertByRow(id, s[1..], pool);
      TailDescending(s, pool);
      InsertByRowSorted(id, s[1..], pool);
      InsertByRowPermutes(id, s[1..], pool);
      forall j | j in rest ensures pool[s[0]].y >= pool[j].y {
        assert j in multiset(rest);
        if j != id {
          assert j in multiset(s[1..]);
          var k :| 0 <= k < |s[1..]| && s[1..][k] == j;
          assert s[k + 1] == j;
        }
      }
      HeadAboveRest(s[0], rest, pool);
    }
  }

  lemma TailDescending(s: seq<Id>, pool: map<Id, Particle>)
    requires |s| > 0 && AllIn(s, pool) && RowsDescending(s, pool)
    ensures AllIn(s[1..], pool) && RowsDescending(s[1..], pool)
  {
    forall i, j | 0 <= i < j < |s[1..]| ensures pool[s[1..][i]].y >= pool[s[1..][j]].y {
      assert s[1..][i] == s[i + 1] && s[1..][j] == s[j + 1];
    }
  }

  /// A head no lower than every element of a descending tail keeps it descending.
  lemma HeadAboveRest(h: Id, rest: seq<Id>, pool: map<Id, Particle>)
    requires h in pool && AllIn(rest, pool) && RowsDescending(rest, pool)
    requires forall j :: j in rest ==> pool[h].y >= pool[j].y
    ensures AllIn([h] + rest, pool) && RowsDescending([h] + rest, pool)
  {
    var t := [h] + rest;
    forall i, j | 0 <= i < j < |t| ensures pool[t[i]].y >= pool[t[j]].y {
      assert t[j] == rest[j - 1];
      if i > 0 {
        assert t[i] == rest[i - 1];
      }
    }
  }

  /**
   * `std::sort` by descending row, bottom of the board first. The source's
   * sort is not stable; this one keeps equal rows in input order, which is
   * one of the orders it may produce.
   */
  function SortByRowDesc(s: seq<Id>, pool: map<Id, Particle>): (r: seq<Id>)
    requires AllIn(s, pool)
    ensures AllIn(r, pool)
  {
    if |s| == 0 then []
    else InsertByRow(s[0], SortByRowDesc(s[1..], pool), pool)
  }

  /// Sorting only reorders, and the result is bottom first.
  lemma {:induction false} SortByRowDescPermutes(s: seq<Id>, pool: map<Id, Particle>)
    requires AllIn(s, pool)
    ensures multiset(SortByRowDesc(s, pool)) == multiset(s)
    ensures |SortByRowDesc(s, pool)| == |s|
    ensures RowsDescending(SortByRowDesc(s, pool), pool)
    decreases |s|
  {
    if |s| > 0 {
      SortByRowDescPermutes(s[1..], pool);
      InsertByRowPermutes(s[0], SortByRowDesc(s[1..], pool), pool);
      InsertByRowSorted(s[0], SortByRowDesc(s[1..], pool), pool);
      assert s == [s[0]] + s[1..];
    }
  }

  /// The particles one frame moves: the first 1000 unsettled, then sorted.
  function Batch(ids: seq<Id>, pool: map<Id, Particle>): seq<Id>
    requires AllIn(ids, pool)
  {
    SortByRowDesc(Capped(UnsettledIds(ids, pool)), pool)
  }

  /**
   * The batch holds at most 1000 unsettled particles of the collection, bottom
   * first, and is a reordering of the first 1000 unsettled in collection order.
   */
  lemma BatchFacts(ids: seq<Id>, pool: map<Id, Particle>)
    requires AllIn(ids, pool) && Distinct(ids)
    ensures var b := Batch(ids, pool);
      && |b| <= MaxBatch && AllIn(b, pool) && RowsDescending(b, pool)
      && multiset(b) == multiset(Capped(UnsettledIds(ids, pool)))
      && (forall id :: id in b ==> id in ids && !pool[id].settled)
      && Distinct(b)
  {
    var u := UnsettledIds(ids, pool);
    var c := Capped(u);
    var b := Batch(ids, pool);
    UnsettledIdsMembers(ids, pool);
    SortByRowDescPermutes(c, pool);
    forall id | id in b ensures id in ids && !pool[id].settled {
      assert id in multiset(b);
      assert id in c;
    }
    assert Distinct(c);
    DistinctMultiset(c, b);
  }

  /// A reordering of a sequence without duplicates has no duplicates.
  lemma DistinctMultiset(a: seq<Id>, b: seq<Id>)
    requires Distinct(a) && multiset(a) == multiset(b)
    ensures Distinct(b)
  {
    forall i, j | 0 <= i < j < |b| ensures b[i] != b[j] {
      if b[i] == b[j] {
        var x := b[i];
        assert multiset(b)[x] >= 2 by {
          assert b == b[..i] + [x] + b[i + 1..j] + [x] + b[j + 1..];
        }
        DistinctCountsOne(a, x);
      }
    }
  }

  lemma {:induction false} DistinctCountsOne(a: seq<Id>, x: Id)
    requires Distinct(a)
    ensures multiset(a)[x] <= 1
  {
    if |a| > 0 {
      var init := a[..|a| - 1];
      assert a == init + [a[|a| - 1]];
      DistinctCountsOne(init, x);
      if a[|a| - 1] == x {
        assert x !in init;
      }
    }
  }

  /// The batch loop: each particle of the batch takes one step, in batch order.
  function RunBatch(g: Grid, pool: map<Id, Particle>, batch: seq<Id>, dir: int): (r: (Grid, map<Id, Particle>))
    requires WellShaped(g) && AllOnBoard(pool) && AllIn(batch, pool)
    ensures WellShaped(r.0) && AllOnBoard(r.1) && r.1.Keys == pool.Keys
    decreases |batch|
  {
    if |batch| == 0 then (g, pool)
    else
      var s := Advance(g, batch[0], pool[batch[0]], dir);
      RunBatch(s.grid, pool[batch[0] := s.particle], batch[1..], dir)
  }

  /// Running the batch from position `i` is one step for `batch[i]`, then the rest.
  lemma RunBatchFrom(g: Grid, pool: map<Id, Particle>, batch: seq<Id>, i: int, dir: int)
    requires WellShaped(g) && AllOnBoard(pool) && AllIn(batch, pool) && 0 <= i < |batch|
    ensures AllIn(batch[i..], pool) && AllIn(batch[i + 1..], pool)
    ensures var s := Advance(g, batch[i], pool[batch[i]], dir);
      && AllOnBoard(pool[batch[i] := s.particle]) && pool[batch[i] := s.particle].Keys == pool.Keys
      && RunBatch(g, pool, batch[i..], dir) == RunBatch(s.grid, pool[batch[i] := s.particle], batch[i + 1..], dir)
  {
    assert batch[i..][1..] == batch[i + 1..];
  }

  /// The batch loop keeps a consistent grid consistent.
  lemma {:induction false} RunBatchKeepsConsistent(g: Grid, ids: seq<Id>, pool: map<Id, Particle>, batch: seq<Id>, dir: int)
    requires WellShaped(g) && AllOnBoard(pool) && AllIn(batch, pool)
    requires Consistent(g, ids, pool) && forall i :: 0 <= i < |batch| ==> batch[i] in ids
    ensures var r := RunBatch(g, pool, batch, dir); Consistent(r.0, ids, r.1)
    decreases |batch|
  {
    if |batch| > 0 {
      var s := Advance(g, batch[0], pool[batch[0]], dir);
      AdvanceKeepsConsistent(g, ids, pool, batch[0], dir);
      RunBatchKeepsConsistent(s.grid, ids, pool[batch[0] := s.particle], batch[1..], dir);
    }
  }

  /// The batch loop only ever writes live particles into the grid.
  lemma {:induction false} RunBatchKeepsSlotsLive(g: Grid, pool: map<Id, Particle>, batch: seq<Id>, dir: int)
    requires WellShaped(g) && AllOnBoard(pool) && AllIn(batch, pool) && SlotsLive(g, pool)
    ensures var r := RunBatch(g, pool, batch, dir); SlotsLive(r.0, r.1)
    decreases |batch|
  {
    if |batch| > 0 {
      var s := Advance(g, batch[0], pool[batch[0]], dir);
      AdvanceRelocates(g, batch[0], pool[batch[0]], dir);
      RunBatchKeepsSlotsLive(s.grid, pool[batch[0] := s.particle], batch[1..], dir);
    }
  }

  /// No particle rises during the batch, and particles outside the batch do not change.
  lemma {:induction false} RunBatchNeverLifts(g: Grid, pool: map<Id, Particle>, batch: seq<Id>, dir: int)
    requires WellShaped(g) && AllOnBoard(pool) && AllIn(batch, pool)
    ensures var r := RunBatch(g, pool, batch, dir).1;
      forall id :: id in pool ==>
        (r[id].y >= pool[id].y && r[id].color == pool[id].color && (id !in batch ==> r[id] == pool[id]))
    decreases |batch|
  {
    if |batch| > 0 {
      var id0 := batch[0];
      var s := Advance(g, id0, pool[id0], dir);
      var pool1 := pool[id0 := s.particle];
      assert s.particle.y >= pool[id0].y && s.particle.color == pool[id0].color;
      RunBatchNeverLifts(s.grid, pool1, batch[1..], dir);
      var r := RunBatch(g, pool, batch, dir).1;
      assert r == RunBatch(s.grid, pool1, batch[1..], dir).1;
      forall id | id in pool
        ensures r[id].y >= pool[id].y && r[id].color == pool[id].color && (id !in batch ==> r[id] == pool[id])
      {
        if id != id0 {
          assert pool1[id] == pool[id];
          if id in batch[1..] {
            var k :| 0 <= k < |batch[1..]| && batch[1..][k] == id;
            assert batch[k + 1] == id;
          }
        }
      }
    }
  }

  /**
   * One whole frame on grid `g` (already rebuilt if it was stale), with the
   * diagonal order `dir` already flipped: nothing happens when every particle
   * is settled; otherwise wake, collect, cap, sort and move the batch.
   */
  function GravityFrame(g: Grid, ids: seq<Id>, pool: map<Id, Particle>, dir: int): (r: (Grid, map<Id, Particle>))
    requires WellShaped(g) && AllOnBoard(pool) && AllIn(ids, pool)
    ensures WellShaped(r.0) && AllOnBoard(r.1) && r.1.Keys == pool.Keys
  {
    if AllSettled(ids, pool) then (g, pool)
    else
      var woken := WakeAll(ids, pool, g);
      RunBatch(g, woken, Batch(ids, woken), dir)
  }

  /**
   * A frame on an all-settled board changes neither grid nor particles (not
   * even by waking one); otherwise it wakes, then moves the batch.
   */
  lemma FrameMoves(g: Grid, ids: seq<Id>, pool: map<Id, Particle>, dir: int)
    requires WellShaped(g) && AllOnBoard(pool) && AllIn(ids, pool)
    ensures AllSettled(ids, pool) ==> GravityFrame(g, ids, pool, dir) == (g, pool)
    ensures !AllSettled(ids, pool) ==> var woken := WakeAll(ids, pool, g);
      GravityFrame(g, ids, pool, dir) == RunBatch(g, woken, Batch(ids, woken), dir)
  {
  }

  /// A frame only ever writes live particles into the grid.
  lemma GravityKeepsSlotsLive(g: Grid, ids: seq<Id>, pool: map<Id, Particle>, dir: int)
    requires WellShaped(g) && AllOnBoard(pool) && AllIn(ids, pool) && SlotsLive(g, pool)
    ensures var r := GravityFrame(g, ids, pool, dir); SlotsLive(r.0, r.1)
  {
    if !AllSettled(ids, pool) {
      var woken := WakeAll(ids, pool, g);
      RunBatchKeepsSlotsLive(g, woken, Batch(ids, woken), dir);
    }
  }

  /// Waking changes no position, so it keeps a consistent grid consistent.
  lemma WakeKeepsConsistent(g: Grid, ids: seq<Id>, pool: map<Id, Particle>)
    requires WellShaped(g) && AllIn(ids, pool) && Consistent(g, ids, pool)
    ensures Consistent(g, ids, WakeAll(ids, pool, g))
  {
    var w := WakeAll(ids, pool, g);
    WakeAllValues(ids, pool, g);
    forall id | id in pool ensures w[id].x == pool[id].x && w[id].y == pool[id].y {
      WokenKeepsPlace(pool[id], g);
    }
  }

  /// A frame keeps a consistent grid consistent: the grid still indexes every particle exactly.
  lemma GravityKeepsConsistent(g: Grid, ids: seq<Id>, pool: map<Id, Particle>, dir: int)
    requires WellShaped(g) && AllOnBoard(pool) && AllIn(ids, pool) && Distinct(ids)
    requires Consistent(g, ids, pool)
    ensures var r := GravityFrame(g, ids, pool, dir);
      Consistent(r.0, ids, r.1) && DistinctPositions(ids, r.1)
  {
    var r := GravityFrame(g, ids, pool, dir);
    if !AllSettled(ids, pool) {
      var woken := WakeAll(ids, pool, g);
      WakeKeepsConsistent(g, ids, pool);
      BatchFacts(ids, woken);
      RunBatchKeepsConsistent(g, ids, woken, Batch(ids, woken), dir);
    }
    ConsistentHasDistinctPositions(r.0, ids, r.1);
  }

  /// In a frame no particle rises, changes colour, or (outside the batch) moves.
  lemma GravityNeverLifts(g: Grid, ids: seq<Id>, pool: map<Id, Particle>, dir: int)
    requires WellShaped(g) && AllOnBoard(pool) && AllIn(ids, pool)
    ensures var r := GravityFrame(g, ids, pool, dir).1;
      forall id :: id in pool ==>
        (r[id].y >= pool[id].y && r[id].color == pool[id].color &&
         (r[id].x == pool[id].x || id in Batch(ids, WakeAll(ids, pool, g))))
  {
    if !AllSettled(ids, pool) {
      var woken := WakeAll(ids, pool, g);
      WakeAllValues(ids, pool, g);
      forall id | id in pool ensures woken[id].x == pool[id].x && woken[id].y == pool[id].y && woken[id].color == pool[id].color {
        WokenKeepsPlace(pool[id], g);
      }
      RunBatchNeverLifts(g, woken, Batch(ids, woken), dir);
    }
  }
}
