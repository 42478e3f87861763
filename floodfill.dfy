/**
 * The same-colour flood fill of `Board::FindConnectedGroup` (src/Board.cpp):
 * a breadth-first search from one particle over the grid's 4-neighbours whose
 * RGB equals the start particle's, and the left-to-right bridge test of
 * `CheckHorizontalConnections`.
 */
module FloodFill {
  import opened Wrappers
  import opened Particles
  import opened Grids

  /// The neighbour offsets in the order the search tries them: down, up, right, left.
  function DirX(k: int): int {
    if k == 2 then 1 else if k == 3 then -1 else 0
  }

  function DirY(k: int): int {
    if k == 0 then 1 else if k == 1 then -1 else 0
  }

  /// The particle in the k-th neighbour slot of `p`, when that slot is on the board and taken.
  function Neighbour(g: Grid, p: Particle, k: int): Option<Id>
    requires WellShaped(g)
  {
    var nx, ny := p.x + DirX(k), p.y + DirY(k);
    if 0 <= nx < Width && 0 <= ny < Height then g[ny][nx] else None
  }

  /// `b` is a 4-neighbour of `a` on the grid and has colour `c` (alpha ignored).
  predicate Edge(g: Grid, pool: map<Id, Particle>, c: Color, a: Id, b: Id)
    requires WellShaped(g)
  {
    && a in pool && b in pool && SameRgb(pool[b].color, c)
    && (|| Neighbour(g, pool[a], 0) == Some(b) || Neighbour(g, pool[a], 1) == Some(b)
        || Neighbour(g, pool[a], 2) == Some(b) || Neighbour(g, pool[a], 3) == Some(b))
  }

  predicate IsPath(g: Grid, pool: map<Id, Particle>, c: Color, path: seq<Id>)
    requires WellShaped(g)
  {
    |path| > 0 && forall i :: 0 <= i < |path| - 1 ==> Edge(g, pool, c, path[i], path[i + 1])
  }

  /// `b` can be reached from `a` through same-colour neighbours.
  ghost predicate Reachable(g: Grid, pool: map<Id, Particle>, c: Color, a: Id, b: Id)
    requires WellShaped(g)
  {
    exists path :: IsPath(g, pool, c, path) && path[0] == a && path[|path| - 1] == b
  }

  /// Neighbour `k` of `v`, if it is live and has colour `c`, belongs to `s`.
  predicate ClosedAt(g: Grid, pool: map<Id, Particle>, c: Color, s: set<Id>, v: Id, k: int)
    requires WellShaped(g) && v in pool
  {
    var n := Neighbour(g, pool[v], k);
    n.Some? && n.value in pool && SameRgb(pool[n.value].color, c) ==> n.value in s
  }

  /// No same-colour neighbour of a member of `s` lies outside `s`.
  predicate Closed(g: Grid, pool: map<Id, Particle>, c: Color, s: set<Id>)
    requires WellShaped(g) && s <= pool.Keys
  {
    forall v, k :: v in s && 0 <= k < 4 ==> ClosedAt(g, pool, c, s, v, k)
  }

  /// A closed set holding `a` holds everything reachable from `a`.
  lemma {:induction false} ClosedContainsReachable(g: Grid, pool: map<Id, Particle>, c: Color, s: set<Id>, path: seq<Id>)
    requires WellShaped(g) && s <= pool.Keys && Closed(g, pool, c, s)
    requires IsPath(g, pool, c, path) && path[0] in s
    ensures path[|path| - 1] in s
  {
    if |path| > 1 {
      var init := path[..|path| - 1];
      assert IsPath(g, pool, c, init) by {
        forall i | 0 <= i < |init| - 1 ensures Edge(g, pool, c, init[i], init[i + 1]) {
          assert init[i] == path[i] && init[i + 1] == path[i + 1];
        }
      }
      ClosedContainsReachable(g, pool, c, s, init);
      var a, b := path[|path| - 2], path[|path| - 1];
      assert Edge(g, pool, c, a, b);
      assert ClosedAt(g, pool, c, s, a, 0) && ClosedAt(g, pool, c, s, a, 1) &&
             ClosedAt(g, pool, c, s, a, 2) && ClosedAt(g, pool, c, s, a, 3);
    }
  }

  lemma PathExtend(g: Grid, pool: map<Id, Particle>, c: Color, path: seq<Id>, b: Id)
    requires WellShaped(g) && IsPath(g, pool, c, path) && Edge(g, pool, c, path[|path| - 1], b)
    ensures IsPath(g, pool, c, path + [b])
  {
    var q := path + [b];
    forall i | 0 <= i < |q| - 1 ensures Edge(g, pool, c, q[i], q[i + 1]) {
      if i < |path| - 1 {
        assert q[i] == path[i] && q[i + 1] == path[i + 1];
      }
    }
  }

  /// Every visited particle has a recorded same-colour path from `start`.
  ghost predicate PathsTo(g: Grid, pool: map<Id, Particle>, c: Color, start: Id, visited: set<Id>, paths: map<Id, seq<Id>>)
    requires WellShaped(g)
  {
    paths.Keys == visited &&
    forall v :: v in visited ==>
      IsPath(g, pool, c, paths[v]) && paths[v][0] == start && paths[v][|paths[v]| - 1] == v
  }

  /// The last particle of a path of length two or more has colour `c`.
  lemma PathEndColour(g: Grid, pool: map<Id, Particle>, c: Color, path: seq<Id>)
    requires WellShaped(g) && IsPath(g, pool, c, path) && |path| > 1
    ensures path[|path| - 1] in pool && SameRgb(pool[path[|path| - 1]].color, c)
  {
    assert Edge(g, pool, c, path[|path| - 2], path[|path| - 1]);
  }

  /// Growing a set keeps the members' neighbours that were inside it inside it.
  lemma ClosedAtGrows(g: Grid, pool: map<Id, Particle>, c: Color, s: set<Id>, t: set<Id>, v: Id, k: int)
    requires WellShaped(g) && v in pool && s <= t && ClosedAt(g, pool, c, s, v, k)
    ensures ClosedAt(g, pool, c, t, v, k)
  {
  }

  /// The inner loop's closure facts survive one `VisitNeighbour` step.
  lemma StepKeepsClosed(g: Grid, pool: map<Id, Particle>, c: Color, before: set<Id>, after: set<Id>,
                        queueBefore: seq<Id>, queueAfter: seq<Id>, current: Id, k: int)
    requires WellShaped(g) && before <= after <= pool.Keys && current in before
    requires forall v :: v in queueBefore ==> v in queueAfter
    requires forall v :: v in after && v !in before ==> v in queueAfter
    requires forall v, kk :: v in before && v !in queueBefore && v != current && 0 <= kk < 4 ==>
      ClosedAt(g, pool, c, before, v, kk)
    requires forall kk :: 0 <= kk < k ==> ClosedAt(g, pool, c, before, current, kk)
    requires ClosedAt(g, pool, c, after, current, k)
    ensures forall v, kk :: v in after && v !in queueAfter && v != current && 0 <= kk < 4 ==>
      ClosedAt(g, pool, c, after, v, kk)
    ensures forall kk :: 0 <= kk < k + 1 ==> ClosedAt(g, pool, c, after, current, kk)
  {
    forall v, kk | v in after && v !in queueAfter && v != current && 0 <= kk < 4
      ensures ClosedAt(g, pool, c, after, v, kk)
    {
      ClosedAtGrows(g, pool, c, before, after, v, kk);
    }
    forall kk | 0 <= kk < k ensures ClosedAt(g, pool, c, after, current, kk) {
      ClosedAtGrows(g, pool, c, before, after, current, kk);
    }
  }

  lemma RemainingShrinks(keys: set<Id>, before: set<Id>, n: Id)
    requires n in keys && n !in before
    ensures |keys - (before + {n})| < |keys - before|
  {
    assert keys - (before + {n}) == (keys - before) - {n};
  }

  /**
   * One step of the inner loop: look at neighbour `k` of `current`; when it is a
   * live, unvisited particle of colour `c`, mark it visited and queue it.
   */
  method VisitNeighbour(grid: array2<Option<Id>>, ghost g: Grid, pool: map<Id, Particle>, c: Color, ghost start: Id,
                        current: Id, k: int, visited: set<Id>, queue: seq<Id>, ghost paths: map<Id, seq<Id>>)
    returns (visited': set<Id>, queue': seq<Id>, ghost paths': map<Id, seq<Id>>)
    requires Mirrors(grid, g) && SlotsLive(g, pool) && 0 <= k < 4
    requires current in visited && visited <= pool.Keys && PathsTo(g, pool, c, start, visited, paths)
    ensures visited <= visited' <= pool.Keys && PathsTo(g, pool, c, start, visited', paths')
    ensures ClosedAt(g, pool, c, visited', current, k)
    ensures (visited' == visited && queue' == queue) ||
      exists n :: n in pool && n !in visited && visited' == visited + {n} && queue' == queue + [n]
  {
    visited', queue', paths' := visited, queue, paths;
    var nx, ny := pool[current].x + DirX(k), pool[current].y + DirY(k);
    if 0 <= nx < Width && 0 <= ny < Height && grid[ny, nx].Some? && grid[ny, nx].value !in visited {
      var neighbour := grid[ny, nx].value;
      assert Neighbour(g, pool[current], k) == Some(neighbour);
      if SameRgb(pool[neighbour].color, c) {
        assert Edge(g, pool, c, current, neighbour);
        PathExtend(g, pool, c, paths[current], neighbour);
        visited' := visited + {neighbour};
        queue' := queue + [neighbour];
        paths' := paths[neighbour := paths[current] + [neighbour]];
      }
    }
  }

  /**
   * Breadth-first search from `start` over the array `grid` (whose contents are
   * the grid value `g`): the result is exactly the same-RGB 4-connected
   * component of `start`, so it holds `start` and only particles of its colour.
   */
  method FindConnectedGroup(grid: array2<Option<Id>>, ghost g: Grid, pool: map<Id, Particle>, start: Id)
    returns (group: set<Id>)
    requires Mirrors(grid, g) && SlotsLive(g, pool) && start in pool
    ensures start in group && group <= pool.Keys
    ensures forall b :: b in group ==> SameRgb(pool[b].color, pool[start].color)
    ensures forall b :: b in group <==> Reachable(g, pool, pool[start].color, start, b)
  {
    var c := pool[start].color;
    var visited := {start};
    var queue := [start];
    ghost var paths: map<Id, seq<Id>> := map[start := [start]];
    assert IsPath(g, pool, c, [start]);
    while |queue| > 0
      invariant visited <= pool.Keys && start in visited && PathsTo(g, pool, c, start, visited, paths)
      invariant forall v :: v in queue ==> v in visited
      invariant forall v, k :: v in visited && v !in queue && 0 <= k < 4 ==> ClosedAt(g, pool, c, visited, v, k)
      decreases |pool.Keys - visited|, |queue|
    {
      var current := queue[0];
      queue := queue[1..];
      visited, queue, paths := VisitNeighbours(grid, g, pool, c, start, current, visited, queue, paths);
    }
    group := visited;
    ComponentFound(g, pool, c, start, group, paths);
  }

  /// The inner loop of the search: look at the four neighbours of `current` in order.
  method VisitNeighbours(grid: array2<Option<Id>>, ghost g: Grid, pool: map<Id, Particle>, c: Color, ghost start: Id,
                         current: Id, visited0: set<Id>, queue0: seq<Id>, ghost paths0: map<Id, seq<Id>>)
    returns (visited: set<Id>, queue: seq<Id>, ghost paths: map<Id, seq<Id>>)
    requires Mirrors(grid, g) && SlotsLive(g, pool)
    requires current in visited0 && visited0 <= pool.Keys && PathsTo(g, pool, c, start, visited0, paths0)
    requires forall v :: v in queue0 ==> v in visited0
    requires forall v, k :: v in visited0 && v !in queue0 && v != current && 0 <= k < 4 ==>
      ClosedAt(g, pool, c, visited0, v, k)
    ensures visited0 <= visited <= pool.Keys && PathsTo(g, pool, c, start, visited, paths)
    ensures visited == visited0 ==> queue == queue0
    ensures visited != visited0 ==> |pool.Keys - visited| < |pool.Keys - visited0|
    ensures forall v :: v in queue ==> v in visited
    ensures forall v, k :: v in visited && v !in queue && 0 <= k < 4 ==> ClosedAt(g, pool, c, visited, v, k)
  {
    visited, queue, paths := visited0, queue0, paths0;
    for k := 0 to 4
      invariant current in visited
      invariant visited0 <= visited <= pool.Keys && PathsTo(g, pool, c, start, visited, paths)
      invariant visited == visited0 ==> queue == queue0
      invariant visited != visited0 ==> |pool.Keys - visited| < |pool.Keys - visited0|
      invariant forall v :: v in queue ==> v in visited
      invariant forall v, kk :: v in visited && v !in queue && v != current && 0 <= kk < 4 ==>
        ClosedAt(g, pool, c, visited, v, kk)
      invariant forall kk :: 0 <= kk < k ==> ClosedAt(g, pool, c, visited, current, kk)
    {
      ghost var before, queueBefore := visited, queue;
      visited, queue, paths := VisitNeighbour(grid, g, pool, c, start, current, k, visited, queue, paths);
      if visited != before {
        var n :| n in pool && n !in before && visited == before + {n} && queue == queueBefore + [n];
        RemainingShrinks(pool.Keys, before, n);
      }
      StepKeepsClosed(g, pool, c, before, visited, queueBefore, queue, current, k);
    }
  }

  /// A closed set of visited particles, each with a path from `start`, is the component of `start`.
  lemma ComponentFound(g: Grid, pool: map<Id, Particle>, c: Color, start: Id, group: set<Id>, paths: map<Id, seq<Id>>)
    requires WellShaped(g) && group <= pool.Keys && start in group && start in pool && c == pool[start].color
    requires PathsTo(g, pool, c, start, group, paths)
    requires forall v, k :: v in group && 0 <= k < 4 ==> ClosedAt(g, pool, c, group, v, k)
    ensures forall b :: b in group ==> SameRgb(pool[b].color, c)
    ensures forall b :: b in group <==> Reachable(g, pool, c, start, b)
  {
    forall b | b in group ensures SameRgb(pool[b].color, c) {
      if b != start {
        PathEndColour(g, pool, c, paths[b]);
      }
    }
    forall b | Reachable(g, pool, c, start, b) ensures b in group {
      var path :| IsPath(g, pool, c, path) && path[0] == start && path[|path| - 1] == b;
      ClosedContainsReachable(g, pool, c, group, path);
    }
  }

  /// The group touches the right wall: some member lies in column `width - 1`.
  method ReachesRightEdge(group: set<Id>, pool: map<Id, Particle>) returns (r: bool)
    requires group <= pool.Keys
    ensures r <==> exists b :: b in group && pool[b].x == Width - 1
  {
    var rest := group;
    while rest != {}
      invariant rest <= group
      invariant forall b :: b in group - rest ==> pool[b].x != Width - 1
      decreases |rest|
    {
      var p :| p in rest;
      if pool[p].x == Width - 1 {
        return true;
      }
      rest := rest - {p};
    }
    r := false;
  }
}
