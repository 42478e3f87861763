/**
 * The board's spatial index (the `grid` member of src/Board.hpp) as a value:
 * `Height` rows of `Width` optional particle references. Particles are named
 * by ids; a `pool` maps each live id to the particle it refers to.
 */
module Grids {
  import opened Wrappers
  import opened Particles

  /// A particle reference: an id into the pool of live particles.
  type Id = nat

  type Grid = seq<seq<Option<Id>>>

  predicate WellShaped(g: Grid) {
    |g| == Height && forall y :: 0 <= y < Height ==> |g[y]| == Width
  }

  /// Every slot null, as the constructor's `grid.resize` and `RebuildGrid`'s fill leave it.
  function EmptyGrid(): (g: Grid)
    ensures WellShaped(g)
    ensures forall y, x :: 0 <= y < Height && 0 <= x < Width ==> g[y][x] == None
  {
    seq(Height, y => seq(Width, x => None))
  }

  /// The grid with slot (x, y) set to `v` and every other slot kept.
  function SetCell(g: Grid, x: int, y: int, v: Option<Id>): (r: Grid)
    requires WellShaped(g) && InBounds(x, y)
    ensures WellShaped(r)
    ensures forall yy, xx :: 0 <= yy < Height && 0 <= xx < Width ==>
      r[yy][xx] == if yy == y && xx == x then v else g[yy][xx]
  {
    g[y := g[y][x := v]]
  }

  /// The board's array holds exactly the slots of the grid value `g`.
  ghost predicate Mirrors(a: array2<Option<Id>>, g: Grid)
    reads a
  {
    WellShaped(g) && a.Length0 == Height && a.Length1 == Width &&
    forall y, x :: 0 <= y < Height && 0 <= x < Width ==> a[y, x] == g[y][x]
  }

  /// Every taken slot refers to a live particle.
  predicate SlotsLive(g: Grid, pool: map<Id, Particle>)
    requires WellShaped(g)
  {
    forall y, x :: 0 <= y < Height && 0 <= x < Width && g[y][x].Some? ==> g[y][x].value in pool
  }

  /// Every live particle sits inside the board.
  predicate AllOnBoard(pool: map<Id, Particle>) {
    forall id :: id in pool ==> OnBoard(pool[id])
  }

  predicate AllIn(ids: seq<Id>, pool: map<Id, Particle>) {
    forall i :: 0 <= i < |ids| ==> ids[i] in pool
  }

  /// The ids a collection holds, as a set.
  function IdSet(ids: seq<Id>): set<Id> {
    if |ids| == 0 then {} else IdSet(ids[..|ids| - 1]) + {ids[|ids| - 1]}
  }

  lemma {:induction false} IdSetMembers(ids: seq<Id>)
    ensures forall id :: id in IdSet(ids) <==> id in ids
    decreases |ids|
  {
    if |ids| > 0 {
      IdSetMembers(ids[..|ids| - 1]);
      assert forall id :: id in ids <==> id in ids[..|ids| - 1] || id == ids[|ids| - 1];
    }
  }

  lemma IdSetAppend(ids: seq<Id>, id: Id)
    ensures IdSet(ids + [id]) == IdSet(ids) + {id}
  {
    assert (ids + [id])[..|ids|] == ids;
  }

  predicate Distinct(ids: seq<Id>) {
    forall i, j :: 0 <= i < j < |ids| ==> ids[i] != ids[j]
  }

  /// The particles the ids refer to, in collection order.
  function Values(ids: seq<Id>, pool: map<Id, Particle>): (ps: seq<Particle>)
    requires AllIn(ids, pool)
    ensures |ps| == |ids|
    ensures forall i :: 0 <= i < |ids| ==> ps[i] == pool[ids[i]]
  {
    if |ids| == 0 then [] else Values(ids[..|ids| - 1], pool) + [pool[ids[|ids| - 1]]]
  }

  /// `CheckCollision`'s test for one grain: outside the side walls, below the
  /// floor, or on an occupied slot. Grains above the top are only wall-checked.
  predicate Collides(g: Grid, p: Particle)
    requires WellShaped(g)
  {
    p.x < 0 || p.x >= Width || p.y >= Height || (p.y >= 0 && g[p.y][p.x].Some?)
  }

  /// A grain above the top of the board between the walls never collides.
  lemma AboveTopNeverCollides(g: Grid, p: Particle)
    requires WellShaped(g) && 0 <= p.x < Width && p.y < 0
    ensures !Collides(g, p)
  {
  }

  /**
   * The grid `RebuildGrid` builds: start from an empty grid and write every
   * in-bounds particle of the collection into its slot, in collection order.
   */
  function Placed(ids: seq<Id>, pool: map<Id, Particle>): (g: Grid)
    requires AllIn(ids, pool)
    ensures WellShaped(g)
  {
    if |ids| == 0 then EmptyGrid()
    else
      var g0 := Placed(ids[..|ids| - 1], pool);
      var p := pool[ids[|ids| - 1]];
      if InBounds(p.x, p.y) then SetCell(g0, p.x, p.y, Some(ids[|ids| - 1])) else g0
  }

  predicate At(p: Particle, x: int, y: int) {
    p.x == x && p.y == y
  }

  /// The index of the last particle of the collection at (x, y), or -1 when there is none.
  function LastAt(ids: seq<Id>, pool: map<Id, Particle>, x: int, y: int): (k: int)
    requires AllIn(ids, pool)
    ensures -1 <= k < |ids|
    ensures k >= 0 ==> At(pool[ids[k]], x, y)
    ensures forall j :: k < j < |ids| ==> !At(pool[ids[j]], x, y)
  {
    if |ids| == 0 then -1
    else if At(pool[ids[|ids| - 1]], x, y) then |ids| - 1
    else LastAt(ids[..|ids| - 1], pool, x, y)
  }

  /// After a rebuild, each slot holds the last particle of the collection sitting on it (last write wins).
  lemma {:induction false} PlacedIsLastWriter(ids: seq<Id>, pool: map<Id, Particle>, x: int, y: int)
    requires AllIn(ids, pool) && InBounds(x, y)
    ensures var k := LastAt(ids, pool, x, y);
      Placed(ids, pool)[y][x] == if k >= 0 then Some(ids[k]) else None
  {
    if |ids| > 0 {
      var init := ids[..|ids| - 1];
      PlacedIsLastWriter(init, pool, x, y);
      assert LastAt(ids, pool, x, y) == if At(pool[ids[|ids| - 1]], x, y) then |ids| - 1 else LastAt(init, pool, x, y);
      var k := LastAt(init, pool, x, y);
      if k >= 0 {
        assert init[k] == ids[k];
      }
    }
  }

  /// Every particle of the collection has its own slot and every slot holds the particle sitting on it.
  predicate Consistent(g: Grid, ids: seq<Id>, pool: map<Id, Particle>)
    requires WellShaped(g)
  {
    && (forall i :: 0 <= i < |ids| ==>
          (ids[i] in pool && OnBoard(pool[ids[i]]) && g[pool[ids[i]].y][pool[ids[i]].x] == Some(ids[i])))
    && (forall y, x :: 0 <= y < Height && 0 <= x < Width && g[y][x].Some? ==>
          g[y][x].value in ids && g[y][x].value in pool && At(pool[g[y][x].value], x, y))
  }

  predicate DistinctPositions(ids: seq<Id>, pool: map<Id, Particle>)
    requires AllIn(ids, pool)
  {
    forall i, j :: 0 <= i < j < |ids| ==> !At(pool[ids[j]], pool[ids[i]].x, pool[ids[i]].y)
  }

  /// A consistent grid means no two particles share a position.
  lemma ConsistentHasDistinctPositions(g: Grid, ids: seq<Id>, pool: map<Id, Particle>)
    requires WellShaped(g) && Distinct(ids) && Consistent(g, ids, pool)
    ensures AllIn(ids, pool) && DistinctPositions(ids, pool)
  {
    forall i, j | 0 <= i < j < |ids| ensures !At(pool[ids[j]], pool[ids[i]].x, pool[ids[i]].y) {
      var p, q := pool[ids[i]], pool[ids[j]];
      assert g[p.y][p.x] == Some(ids[i]) && g[q.y][q.x] == Some(ids[j]);
    }
  }

  /// Rebuilding from particles on the board at pairwise distinct positions gives a consistent grid.
  lemma RebuildIsConsistent(ids: seq<Id>, pool: map<Id, Particle>)
    requires AllIn(ids, pool) && DistinctPositions(ids, pool)
    requires forall i :: 0 <= i < |ids| ==> OnBoard(pool[ids[i]])
    ensures Consistent(Placed(ids, pool), ids, pool)
  {
    var g: Grid := Placed(ids, pool);
    forall i | 0 <= i < |ids|
      ensures g[pool[ids[i]].y][pool[ids[i]].x] == Some(ids[i])
    {
      var p := pool[ids[i]];
      PlacedIsLastWriter(ids, pool, p.x, p.y);
      var k := LastAt(ids, pool, p.x, p.y);
      assert k >= i;
      assert k <= i;
    }
    forall y: int, x: int | 0 <= y < Height && 0 <= x < Width && g[y][x].Some?
      ensures g[y][x].value in ids && At(pool[g[y][x].value], x, y)
    {
      PlacedIsLastWriter(ids, pool, x, y);
    }
  }

  /// Every slot of a rebuilt grid holds a particle of the collection.
  lemma PlacedOccupants(ids: seq<Id>, pool: map<Id, Particle>)
    requires AllIn(ids, pool)
    ensures var g := Placed(ids, pool);
      forall y, x :: 0 <= y < Height && 0 <= x < Width && g[y][x].Some? ==> g[y][x].value in ids
  {
    var g: Grid := Placed(ids, pool);
    forall y: int, x: int | 0 <= y < Height && 0 <= x < Width && g[y][x].Some? ensures g[y][x].value in ids {
      PlacedIsLastWriter(ids, pool, x, y);
    }
  }
}
