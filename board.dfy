/**
 * `Board` (src/Board.hpp, src/Board.cpp): the settled sand, its spatial grid,
 * the gravity step, the bridge detection and the explosion that clears a bridge.
 * Particle references are ids into `pool`; `particles` keeps the collection order.
 */
module Boards {
  import opened Wrappers
  import opened Particles
  import opened Grids
  import opened Explosion
  import Gravity
  import FloodFill

  /// The particles `AddParticles` keeps: those inside the board, in input order.
  function Admitted(ps: seq<Particle>): (r: seq<Particle>)
    ensures |r| <= |ps|
  {
    if |ps| == 0 then []
    else
      var init := Admitted(ps[..|ps| - 1]);
      var last := ps[|ps| - 1];
      if OnBoard(last) then init + [last] else init
  }

  /// Admitting keeps exactly the on-board particles, and drops nothing from an input that lies on the board.
  lemma {:induction false} AdmittedMembers(ps: seq<Particle>)
    ensures forall q :: q in Admitted(ps) <==> q in ps && OnBoard(q)
    ensures (forall i :: 0 <= i < |ps| ==> OnBoard(ps[i])) ==> Admitted(ps) == ps
    decreases |ps|
  {
    if |ps| > 0 {
      var init := ps[..|ps| - 1];
      AdmittedMembers(init);
      assert ps == init + [ps[|ps| - 1]];
      assert forall q :: q in ps <==> q in init || q == ps[|ps| - 1];
    }
  }

  /// Row `y` bridges the board: its left slot holds a particle whose group reaches the right wall.
  ghost predicate Bridges(g: Grid, pool: map<Id, Particle>, y: int)
    requires WellShaped(g) && 0 <= y < Height
  {
    && g[y][0].Some? && g[y][0].value in pool
    && exists b :: FloodFill.Reachable(g, pool, pool[g[y][0].value].color, g[y][0].value, b) &&
         b in pool && pool[b].x == Width - 1
  }

  /// Row `y` is the first row, counted from the top, that bridges the board.
  ghost predicate FirstBridge(g: Grid, pool: map<Id, Particle>, y: int)
    requires WellShaped(g)
  {
    0 <= y < Height && Bridges(g, pool, y) && forall yy :: 0 <= yy < y ==> !Bridges(g, pool, yy)
  }

  /// The same-colour component of `start`.
  ghost function Component(g: Grid, pool: map<Id, Particle>, start: Id): set<Id>
    requires WellShaped(g) && start in pool
  {
    set b | b in pool.Keys && FloodFill.Reachable(g, pool, pool[start].color, start, b)
  }

  /**
   * The search's result is the component of `start`, and the group reaches the
   * right wall exactly when the start's row bridges.
   */
  lemma ComponentIs(g: Grid, pool: map<Id, Particle>, start: Id, group: set<Id>)
    requires WellShaped(g) && start in pool && group <= pool.Keys
    requires forall b :: b in group <==> FloodFill.Reachable(g, pool, pool[start].color, start, b)
    ensures group == Component(g, pool, start)
    ensures forall y :: 0 <= y < Height && g[y][0] == Some(start) ==>
      (Bridges(g, pool, y) <==> exists b :: b in group && pool[b].x == Width - 1)
  {
  }

  /// Marking a group of live particles that holds `start` is a valid start of the zoom.
  lemma ZoomStarts(group: set<Id>, live: set<Id>, start: Id)
    requires start in group && group <= live
    ensures Animating(Zooming, 0, group, group, live) && |group| > 0
  {
  }

  /// Every key of `keys` mapped to the same value `v`, one insertion per key
  /// (the zoom loops over `particle_scale_factors`).
  method ConstantScales(keys: set<Id>, v: real) returns (m: map<Id, real>)
    ensures m.Keys == keys && forall b :: b in m ==> m[b] == v
  {
    m := map[];
    var rest := keys;
    while rest != {}
      invariant rest <= keys && m.Keys == keys - rest
      invariant forall b :: b in m ==> m[b] == v
      decreases |rest|
    {
      var b :| b in rest;
      m := m[b := v];
      rest := rest - {b};
    }
  }

  /// The collection holds each live id once, and every live id was allocated before `nextId`.
  predicate Tracked(ids: seq<Id>, live: set<Id>, nextId: nat) {
    Distinct(ids) && live == IdSet(ids) && forall id :: id in live ==> id < nextId
  }

  /// The explosion fields agree: a valid phase, a marked group exactly while one is pending, and one scale per marked particle.
  predicate Animating(state: ExplosionState, timer: int, marked: set<Id>, scaled: set<Id>, live: set<Id>) {
    && PhaseOk(Phase(state, timer))
    && (state == Inactive <==> marked == {})
    && marked <= live
    && scaled == marked
  }

  /// The board's bookkeeping as values: the collection, the pool and the grid agree, and so do the explosion fields.
  predicate Bookkept(ids: seq<Id>, pool: map<Id, Particle>, nextId: nat, g: Grid,
                     state: ExplosionState, timer: int, marked: set<Id>, scaled: set<Id>) {
    && Tracked(ids, pool.Keys, nextId) && AllIn(ids, pool) && AllOnBoard(pool)
    && WellShaped(g) && SlotsLive(g, pool)
    && Animating(state, timer, marked, scaled, pool.Keys)
  }

  class Board {
    /// The spatial index, `height` rows of `width` slots.
    const grid: array2<Option<Id>>
    /// The contents of `grid` as a value, kept in step with every write.
    ghost var view: Grid
    var particles: seq<Id>
    var pool: map<Id, Particle>
    /// The next unused id (stands for a fresh `new Particle`).
    var nextId: nat
    var gridDirty: bool
    var dirIndex: int
    var shakeAmount: int
    var shakeDuration: int
    var state: ExplosionState
    var timer: int
    /// `particles_to_explode`.
    var marked: set<Id>
    /// `particle_scale_factors`.
    var scale: map<Id, real>
    var flash: Color
    /// `explosion_particles`, as their start positions and colours.
    var sparks: seq<Spark>

    ghost predicate Valid()
      reads this, grid
    {
      && Mirrors(grid, view)
      && Bookkept(particles, pool, nextId, view, state, timer, marked, scale.Keys)
      && (dirIndex == 0 || dirIndex == 1)
    }

    /// An empty board with every slot null and the grid marked stale.
    constructor ()
      ensures Valid() && fresh(grid)
      ensures particles == [] && pool == map[] && view == EmptyGrid()
      ensures gridDirty && dirIndex == 0 && shakeAmount == 0 && shakeDuration == 0
      ensures state == Inactive && timer == 0 && flash == White && sparks == []
    {
      grid := new Option<Id>[Height, Width]((y, x) => None);
      view := EmptyGrid();
      particles := [];
      pool := map[];
      nextId := 0;
      gridDirty := true;
      dirIndex := 0;
      shakeAmount := 0;
      shakeDuration := 0;
      state := Inactive;
      timer := 0;
      marked := {};
      scale := map[];
      flash := White;
      sparks := [];
    }

    /// Every write to the grid goes through here, so `view` follows the array.
    method SetSlot(x: int, y: int, v: Option<Id>)
      requires Mirrors(grid, view) && InBounds(x, y)
      modifies grid, this`view
      ensures view == SetCell(old(view), x, y, v) && Mirrors(grid, view)
    {
      grid[y, x] := v;
      view := SetCell(view, x, y, v);
    }

    /**
     * Append a copy of each incoming particle that lies on the board, in input
     * order; the grid is left as it was (the caller marks it stale).
     */
    method AddParticles(incoming: seq<Particle>)
      requires Valid()
      modifies this`particles, this`pool, this`nextId
      ensures Valid()
      ensures Values(particles, pool) == Values(old(particles), old(pool)) + Admitted(incoming)
      ensures old(particles) <= particles
      ensures forall id :: id in old(pool) ==> id in pool && pool[id] == old(pool)[id]
    {
      var ids, live, next := Admit(particles, pool, nextId, view, state, timer, marked, scale.Keys, incoming);
      ExtendingKeepsOld(particles, pool, ids, live, Admitted(incoming));
      particles, pool, nextId := ids, live, next;
    }

    /// `TriggerShake(intensity)` on the board's shake fields.
    method TriggerShake(intensity: int)
      modifies this`shakeAmount, this`shakeDuration
      ensures old(Valid()) ==> Valid()
      ensures Shake(shakeAmount, shakeDuration) ==
        Explosion.TriggerShake(Shake(old(shakeAmount), old(shakeDuration)), intensity)
    {
      if shakeAmount > 0 {
        shakeAmount := Min(MaxShake, shakeAmount + intensity);
        shakeDuration := Max(shakeDuration, ShakeFrames);
      } else {
        shakeAmount := intensity;
        shakeDuration := ShakeFrames;
      }
    }

    /// True exactly when some test particle hits a wall, the floor or a taken slot.
    method CheckCollision(test: seq<Particle>) returns (r: bool)
      requires Valid()
      ensures r <==> exists i :: 0 <= i < |test| && Collides(view, test[i])
    {
      for i := 0 to |test|
        invariant forall j :: 0 <= j < i ==> !Collides(view, test[j])
      {
        var x, y := test[i].x, test[i].y;
        if x < 0 || x >= Width || y >= Height {
          return true;
        }
        if y >= 0 && grid[y, x].Some? {
          return true;
        }
      }
      return false;
    }

    /// Clear every slot, then write each in-bounds particle into its slot in collection order.
    method RebuildGrid()
      requires Mirrors(grid, view) && AllIn(particles, pool)
      modifies grid, this`view, this`gridDirty
      ensures view == Placed(particles, pool) && !gridDirty
      ensures Mirrors(grid, view) && SlotsLive(view, pool)
    {
      for y := 0 to Height
        invariant Mirrors(grid, view)
        invariant forall yy, xx :: 0 <= yy < y && 0 <= xx < Width ==> view[yy][xx] == None
      {
        for x := 0 to Width
          invariant Mirrors(grid, view)
          invariant forall yy, xx :: 0 <= yy < y && 0 <= xx < Width ==> view[yy][xx] == None
          invariant forall xx :: 0 <= xx < x ==> view[y][xx] == None
        {
          SetSlot(x, y, None);
        }
      }
      AllEmptyIsEmptyGrid(view);
      for i := 0 to |particles|
        invariant Mirrors(grid, view) && view == Placed(particles[..i], pool)
      {
        var id := particles[i];
        var p := pool[id];
        assert particles[..i + 1][..i] == particles[..i];
        if p.y >= 0 && p.y < Height && p.x >= 0 && p.x < Width {
          SetSlot(p.x, p.y, Some(id));
        }
      }
      assert particles[..|particles|] == particles;
      gridDirty := false;
      PlacedOccupants(particles, pool);
    }

    /// True exactly when no particle of the collection is unsettled.
    method AreAllParticlesSettled() returns (r: bool)
      requires AllIn(particles, pool)
      ensures r <==> Gravity.AllSettled(particles, pool)
    {
      for i := 0 to |particles|
        invariant forall j :: 0 <= j < i ==> pool[particles[j]].settled
      {
        if !pool[particles[i]].settled {
          return false;
        }
      }
      return true;
    }

    /// The wake-up pass: a settled particle with a free slot below becomes unsettled.
    method WakeSettled()
      requires Mirrors(grid, view) && AllIn(particles, pool)
      modifies this`pool
      ensures pool == Gravity.WakeAll(particles, old(pool), view)
    {
      for i := 0 to |particles|
        invariant pool == Gravity.WakeAll(particles[..i], old(pool), view)
      {
        var id := particles[i];
        var p := pool[id];
        var px, py := p.x, p.y;
        Gravity.WakeAllStep(particles, old(pool), view, i);
        if p.settled && py >= 0 && py + 1 < Height && px >= 0 && px < Width && grid[py + 1, px].None? {
          pool := pool[id := p.(settled := false)];
        } else {
          assert Gravity.Woken(p, view) == p;
          RewriteSame(pool, id);
        }
      }
      assert particles[..|particles|] == particles;
    }

    /// The unsettled particles, in collection order.
    method CollectUnsettled() returns (unsettled: seq<Id>)
      requires AllIn(particles, pool)
      ensures unsettled == Gravity.UnsettledIds(particles, pool)
    {
      unsettled := [];
      for i := 0 to |particles|
        invariant unsettled == Gravity.UnsettledIds(particles[..i], pool)
      {
        assert particles[..i + 1][..i] == particles[..i];
        if !pool[particles[i]].settled {
          unsettled := unsettled + [particles[i]];
        }
      }
      assert particles[..|particles|] == particles;
    }

    /// The fall loop: move down one row at a time, at most `steps` rows, while the next row is free.
    method FallRows(x: int, y: int, steps: int) returns (newY: int)
      requires Mirrors(grid, view) && 0 <= x < Width && 0 <= y < Height
      ensures newY == Gravity.FallTo(view, x, y, steps)
    {
      newY := y;
      var step := 0;
      while step < steps
        invariant 0 <= step && newY == y + step && newY < Height
        invariant Gravity.FallTo(view, x, y, steps) == Gravity.FallTo(view, x, newY, steps - step)
      {
        var testY := y + step + 1;
        if testY >= Height || grid[testY, x].Some? {
          break;
        }
        newY := testY;
        step := step + 1;
      }
    }

    /// The batch of a frame: the unsettled particles, cut to the first 1000, sorted bottom row first.
    method CollectBatch() returns (batch: seq<Id>)
      requires AllIn(particles, pool)
      ensures batch == Gravity.Batch(particles, pool) && AllIn(batch, pool)
    {
      batch := CollectUnsettled();
      if |batch| > Gravity.MaxBatch {
        batch := batch[..Gravity.MaxBatch];
      }
      batch := Gravity.SortByRowDesc(batch, pool);
    }

    /**
     * The loop body of `ApplyGravity` for particle `id`: clear its slot, work
     * out where it goes, then take the new slot.
     */
    method StepParticle(id: Id)
      requires Mirrors(grid, view) && id in pool && OnBoard(pool[id])
      modifies grid, this`view, this`pool
      ensures Mirrors(grid, view)
      ensures var r := Gravity.Advance(old(view), id, old(pool)[id], dirIndex);
        view == r.grid && pool == old(pool)[id := r.particle]
    {
      var p := pool[id];
      if p.y >= 0 && p.y < Height && p.x >= 0 && p.x < Width {
        SetSlot(p.x, p.y, None);
      }
      var q := NextState(p);
      SetSlot(q.x, q.y, Some(id));
      pool := pool[id := q];
    }

    /**
     * Where particle `p`, whose slot is already clear, goes: fall up to
     * `FallDistance` rows, else settle on the floor, else try the two
     * diagonals in `dirIndex` order, else settle in place.
     */
    method NextState(p: Particle) returns (q: Particle)
      requires Mirrors(grid, view) && OnBoard(p)
      ensures q == Gravity.Moved(view, p, dirIndex)
    {
      var oldX, oldY := p.x, p.y;
      var moved := false;
      q := p.(velocityY := p.velocityY + 1);
      var fallDistance := Gravity.FallDistance(q.velocityY);
      var newY := FallRows(oldX, oldY, fallDistance);
      if newY > oldY {
        q := q.(y := newY);
        if newY >= Height - 1 {
          q := q.(settled := true, velocityY := 0, y := Height - 1);
        }
        moved := true;
      } else if oldY + 1 >= Height {
        q := q.(settled := true, velocityY := 0, y := Height - 1);
        moved := true;
      } else {
        q := q.(velocityY := 0);
        var testY := oldY + 1;
        for i := 0 to 2
          invariant !moved && q == p.(velocityY := 0)
          invariant forall ii :: 0 <= ii < i ==> !Gravity.DiagonalFree(view, oldX + Gravity.DiagonalDir(dirIndex, ii), testY)
        {
          var dx := Gravity.DiagonalDir(dirIndex, i);
          var newX := oldX + dx;
          if newX >= 0 && newX < Width && testY < Height && grid[testY, newX].None? {
            q := q.(x := newX, y := testY);
            moved := true;
            break;
          }
        }
      }
      if !moved {
        q := q.(settled := true, velocityY := 0);
      }
    }

    /// The loop over the batch: each particle takes one step, in batch order.
    method StepBatch(batch: seq<Id>)
      requires Mirrors(grid, view) && AllOnBoard(pool) && AllIn(batch, pool)
      modifies grid, this`view, this`pool
      ensures Mirrors(grid, view)
      ensures (view, pool) == Gravity.RunBatch(old(view), old(pool), batch, dirIndex)
    {
      for i := 0 to |batch|
        invariant Mirrors(grid, view) && AllOnBoard(pool) && pool.Keys == old(pool).Keys
        invariant Gravity.RunBatch(view, pool, batch[i..], dirIndex) == Gravity.RunBatch(old(view), old(pool), batch, dirIndex)
      {
        Gravity.RunBatchFrom(view, pool, batch, i, dirIndex);
        StepParticle(batch[i]);
      }
      assert batch[|batch|..] == [];
    }

    /**
     * One gravity frame: rebuild a stale grid; stop if every particle is
     * settled; otherwise wake, collect, cap at 1000, sort bottom first, flip the
     * diagonal order and step each particle of the batch.
     */
    method ApplyGravity()
      requires Valid()
      modifies grid, this`view, this`pool, this`gridDirty, this`dirIndex
      ensures Valid() && !gridDirty
      ensures var g0 := if old(gridDirty) then Placed(particles, old(pool)) else old(view);
        (view, pool) == Gravity.GravityFrame(g0, particles, old(pool), dirIndex)
      ensures dirIndex == if Gravity.AllSettled(particles, old(pool)) then old(dirIndex) else 1 - old(dirIndex)
    {
      Refresh();
      ghost var g0 := view;
      var allSettled := AreAllParticlesSettled();
      if allSettled {
        return;
      }
      WakeAndMove();
      FrameKeepsBookkept(particles, old(pool), nextId, g0, state, timer, marked, scale.Keys, dirIndex);
    }

    /// The rebuild `ApplyGravity` starts with when the grid is stale.
    method Refresh()
      requires Valid()
      modifies grid, this`view, this`gridDirty
      ensures Valid() && !gridDirty
      ensures view == if old(gridDirty) then Placed(particles, pool) else old(view)
    {
      if gridDirty {
        RebuildGrid();
        RegridKeepsBookkept(particles, pool, nextId, old(view), view, state, timer, marked, scale.Keys);
      }
    }

    /// The frame once some particle is unsettled: wake, then move the batch.
    method WakeAndMove()
      requires Mirrors(grid, view) && AllIn(particles, pool) && AllOnBoard(pool)
      requires (dirIndex == 0 || dirIndex == 1) && !Gravity.AllSettled(particles, pool)
      modifies grid, this`view, this`pool, this`dirIndex
      ensures Mirrors(grid, view) && dirIndex == 1 - old(dirIndex)
      ensures (view, pool) == Gravity.GravityFrame(old(view), particles, old(pool), dirIndex)
    {
      WakeSettled();
      MoveBatch();
      Gravity.FrameMoves(old(view), particles, old(pool), dirIndex);
    }

    /**
     * The row scan of `CheckHorizontalConnections`: from the top row down, the
     * first row whose left slot starts a group reaching the right wall, with
     * that group; -1 when no row bridges.
     */
    method FindBridge() returns (row: int, group: set<Id>)
      requires Mirrors(grid, view) && SlotsLive(view, pool)
      ensures -1 <= row < Height
      ensures row == -1 <==> forall y :: 0 <= y < Height ==> !Bridges(view, pool, y)
      ensures row >= 0 ==> && Bridges(view, pool, row)
                           && (forall y :: 0 <= y < row ==> !Bridges(view, pool, y))
                           && group == Component(view, pool, view[row][0].value)
                           && view[row][0].value in group && group <= pool.Keys
    {
      for y := 0 to Height
        invariant forall yy :: 0 <= yy < y ==> !Bridges(view, pool, yy)
      {
        if grid[y, 0].Some? {
          var start := grid[y, 0].value;
          var g := FloodFill.FindConnectedGroup(grid, view, pool, start);
          var reaches := FloodFill.ReachesRightEdge(g, pool);
          ComponentIs(view, pool, start, g);
          if reaches {
            return y, g;
          }
        }
      }
      return -1, {};
    }

    /**
     * Outside an explosion, look for a bridging row; if there is one, mark its
     * group for the explosion, start the zoom with every scale at 1, take the
     * start particle's colour for the flash and return the group's size.
     */
    method CheckHorizontalConnections() returns (removed: int)
      requires Valid()
      modifies this`state, this`timer, this`marked, this`scale, this`flash
      ensures Valid()
      ensures old(state) != Inactive ==> removed == 0 && unchanged(this)
      ensures old(state) == Inactive ==>
        (removed == 0 <==> forall y :: 0 <= y < Height ==> !Bridges(view, pool, y))
      ensures removed == 0 ==> unchanged(this)
      ensures removed != 0 ==>
        && (exists y :: FirstBridge(view, pool, y)
              && marked == Component(view, pool, view[y][0].value)
              && flash == pool[view[y][0].value].color)
        && removed == |marked| > 0
        && state == Zooming && timer == 0
        && scale.Keys == marked && (forall b :: b in scale ==> scale[b] == 1.0)
    {
      if state != Inactive {
        return 0;
      }
      var row, group := FindBridge();
      if row < 0 {
        return 0;
      }
      var start := grid[row, 0].value;
      assert FirstBridge(view, pool, row);
      StartZoom(group, start);
      removed := |group|;
    }

    /// The explosion's start: zoom from timer 0 on the marked group, every scale at 1.
    method StartZoom(group: set<Id>, start: Id)
      requires Valid() && start in group && group <= pool.Keys
      modifies this`state, this`timer, this`marked, this`scale, this`flash
      ensures Valid() && |group| > 0
      ensures state == Zooming && timer == 0 && marked == group && flash == pool[start].color
      ensures scale.Keys == group && forall b :: b in scale ==> scale[b] == 1.0
    {
      var unit := ConstantScales(group, 1.0);
      ZoomStarts(group, pool.Keys, start);
      state, timer, marked, scale := Zooming, 0, group, unit;
      flash := pool[start].color;
    }

    /**
     * One call of the explosion animation. The zoom's float scale factor, the
     * spark counts (one draw in [3, 6] per visited marked particle) and the
     * survivors' jitter draws are passed in.
     */
    method UpdatePreExplosionAnimation(zoomScale: real, counts: seq<int>, jitters: seq<Jitter>)
      requires Valid() && CountsInRange(counts) && |counts| >= |marked| && |jitters| >= |particles|
      modifies this`state, this`timer, this`marked, this`scale, this`shakeAmount, this`shakeDuration,
               this`sparks, this`particles, this`pool, grid, this`view, this`gridDirty
      ensures Valid()
      ensures Phase(state, timer) == NextPhase(old(Phase(state, timer)))
      ensures old(state) == Inactive ==> unchanged(this)
      ensures Zooms(old(Phase(state, timer))) ==>
        && Zoomed(old(scale), scale, zoomScale, Shake(old(shakeAmount), old(shakeDuration)), Shake(shakeAmount, shakeDuration), timer)
        && unchanged(this`marked, this`sparks, this`particles, this`pool, this`view, this`gridDirty)
      ensures Detonates(old(Phase(state, timer))) ==>
        && Detonated(old(sparks), sparks, marked, pool, counts, Shake(old(shakeAmount), old(shakeDuration)), Shake(shakeAmount, shakeDuration))
        && unchanged(this`marked, this`scale, this`particles, this`pool, this`view, this`gridDirty)
      ensures Removes(old(Phase(state, timer))) ==>
        && marked == {} && scale == map[] && !gridDirty
        && Removed(old(particles), old(pool), old(view), old(marked), jitters, particles, pool, view)
        && unchanged(this`sparks, this`shakeAmount, this`shakeDuration)
      ensures old(state) == Exploding && !Removes(old(Phase(state, timer))) ==>
        && unchanged(this`marked, this`scale, this`sparks, this`shakeAmount, this`shakeDuration)
        && unchanged(this`particles, this`pool, this`view, this`gridDirty)
    {
      if state == Inactive {
        return;
      }
      NextPhaseOk(Phase(state, timer));
      if state == Zooming {
        ZoomFrame(zoomScale, counts);
      } else {
        ExplodeFrame(jitters);
      }
    }

    /// A frame of the zooming phase: a zoom step, or the detonation once the zoom is over.
    method ZoomFrame(zoomScale: real, counts: seq<int>)
      requires Valid() && state == Zooming && CountsInRange(counts) && |counts| >= |marked|
      modifies this`state, this`timer, this`scale, this`shakeAmount, this`shakeDuration, this`sparks
      ensures Valid()
      ensures Phase(state, timer) == NextPhase(old(Phase(state, timer)))
      ensures Zooms(old(Phase(state, timer))) ==>
        && Zoomed(old(scale), scale, zoomScale, Shake(old(shakeAmount), old(shakeDuration)), Shake(shakeAmount, shakeDuration), timer)
        && unchanged(this`sparks)
      ensures Detonates(old(Phase(state, timer))) ==>
        && Detonated(old(sparks), sparks, marked, pool, counts, Shake(old(shakeAmount), old(shakeDuration)), Shake(shakeAmount, shakeDuration))
        && unchanged(this`scale)
      ensures unchanged(this`marked, this`particles, this`pool, this`view, this`gridDirty)
    {
      if timer + 1 < ZoomDuration {
        Zoom(zoomScale);
      } else {
        Detonate(counts);
      }
    }

    /// A frame of the exploding phase: wait out the removal delay, then remove.
    method ExplodeFrame(jitters: seq<Jitter>)
      requires Valid() && state == Exploding && |jitters| >= |particles|
      modifies this`state, this`timer, this`marked, this`scale, this`particles, this`pool, grid, this`view, this`gridDirty
      ensures Valid()
      ensures Phase(state, timer) == NextPhase(old(Phase(state, timer)))
      ensures Removes(old(Phase(state, timer))) ==>
        && marked == {} && scale == map[] && !gridDirty
        && Removed(old(particles), old(pool), old(view), old(marked), jitters, particles, pool, view)
      ensures !Removes(old(Phase(state, timer))) ==>
        unchanged(this`marked, this`scale, this`particles, this`pool, this`view, this`gridDirty)
      ensures unchanged(this`sparks, this`shakeAmount, this`shakeDuration)
    {
      if timer + 1 > RemovalDelay {
        Remove(jitters);
      } else {
        Wait();
      }
    }

    /// An exploding frame before the removal delay is over: only the timer moves.
    method Wait()
      requires Valid() && state == Exploding && timer + 1 <= RemovalDelay
      modifies this`timer
      ensures Valid() && timer == old(timer) + 1
    {
      PhaseKeepsBookkept(particles, pool, nextId, view, state, timer, marked, scale.Keys, state, timer + 1);
      timer := timer + 1;
    }

    /// A zoom frame: advance the timer, set every scale, and shake on every third frame.
    method Zoom(zoomScale: real)
      requires Valid() && Zooms(Phase(state, timer))
      modifies this`timer, this`scale, this`shakeAmount, this`shakeDuration
      ensures Valid() && timer == old(timer) + 1
      ensures Zoomed(old(scale), scale, zoomScale, Shake(old(shakeAmount), old(shakeDuration)), Shake(shakeAmount, shakeDuration), timer)
    {
      timer := timer + 1;
      scale := ConstantScales(scale.Keys, zoomScale);
      if timer % 3 == 0 {
        TriggerShake(ZoomShake(timer));
      }
    }

    /// The end of the zoom: switch to exploding, emit the sparks and shake by the group size.
    method Detonate(counts: seq<int>)
      requires Valid() && Detonates(Phase(state, timer)) && CountsInRange(counts) && |counts| >= |marked|
      modifies this`state, this`timer, this`shakeAmount, this`shakeDuration, this`sparks
      ensures Valid() && state == Exploding && timer == 0
      ensures Detonated(old(sparks), sparks, marked, pool, counts, Shake(old(shakeAmount), old(shakeDuration)), Shake(shakeAmount, shakeDuration))
    {
      var emitted := EmitSparks(pool, marked, counts, SampleStep(|marked|));
      AppendedSparks(sparks, emitted);
      Explode(emitted);
    }

    /// The switch to exploding: timer reset, the emitted sparks appended, the shake by the group size.
    method Explode(emitted: seq<Spark>)
      requires Valid() && Detonates(Phase(state, timer))
      modifies this`state, this`timer, this`shakeAmount, this`shakeDuration, this`sparks
      ensures Valid() && state == Exploding && timer == 0 && sparks == old(sparks) + emitted
      ensures Shake(shakeAmount, shakeDuration) ==
        Explosion.TriggerShake(Shake(old(shakeAmount), old(shakeDuration)), DetonationShake(|marked|))
    {
      PhaseKeepsBookkept(particles, pool, nextId, view, state, timer, marked, scale.Keys, Exploding, 0);
      state, timer, sparks := Exploding, 0, sparks + emitted;
      TriggerShake(DetonationShake(|marked|));
    }

    /// The removal frame: erase the marked particles, jitter the survivors, reset and rebuild the grid.
    method Remove(jitters: seq<Jitter>)
      requires Valid() && Removes(Phase(state, timer)) && |jitters| >= |particles|
      modifies this`state, this`timer, this`marked, this`scale, this`particles, this`pool, grid, this`view, this`gridDirty
      ensures Valid() && state == Inactive && timer == old(timer) + 1 && marked == {} && scale == map[] && !gridDirty
      ensures Removed(old(particles), old(pool), old(view), old(marked), jitters, particles, pool, view)
    {
      RemoveAndRebuild(jitters);
      ResetExplosion();
    }

    /// The survivors after the removal frame and their rebuilt grid; the bookkeeping holds for the reset explosion.
    method RemoveAndRebuild(jitters: seq<Jitter>)
      requires Valid() && |jitters| >= |particles|
      modifies this`particles, this`pool, grid, this`view, this`gridDirty
      ensures Mirrors(grid, view) && Bookkept(particles, pool, nextId, view, Inactive, timer + 1, {}, {}) && !gridDirty
      ensures Removed(old(particles), old(pool), old(view), marked, jitters, particles, pool, view)
    {
      RemoveAndJitter(jitters);
      RebuildGrid();
      RemovalKeepsBookkept(old(particles), old(pool), nextId, marked, particles, pool, view, timer + 1);
    }

    /// The explosion reset that ends the removal frame: back to inactive, nothing marked, no scales.
    method ResetExplosion()
      requires Mirrors(grid, view) && Bookkept(particles, pool, nextId, view, Inactive, timer + 1, {}, {})
      requires dirIndex == 0 || dirIndex == 1
      modifies this`timer, this`marked, this`scale, this`state
      ensures Valid() && timer == old(timer) + 1 && marked == {} && scale == map[] && state == Inactive
    {
      timer := timer + 1;
      marked, scale, state := {}, map[], Inactive;
      assert scale.Keys == {};
    }

    /// The removal and the shockwave, on the collection and the pool.
    method RemoveAndJitter(jitters: seq<Jitter>)
      requires Mirrors(grid, view) && Tracked(particles, pool.Keys, nextId) && AllOnBoard(pool)
      requires |jitters| >= |particles|
      modifies this`particles, this`pool
      ensures particles == Without(old(particles), marked) && pool.Keys == old(pool).Keys - marked
      ensures AllOnBoard(pool) && AllIn(particles, pool)
      ensures pool == JitteredPool(view, old(pool) - marked, particles, jitters)
    {
      RemoveMarked();
      RemovedParts(old(particles), old(pool), nextId, marked);
      JitterSurvivors(jitters);
      JitteredPoolOnBoard(view, old(pool) - marked, particles, jitters);
    }

    /// Erase each marked particle from the collection (found by `std::find`) and free it.
    method RemoveMarked()
      requires Distinct(particles) && pool.Keys == IdSet(particles)
      modifies this`particles, this`pool
      ensures particles == Without(old(particles), marked)
      ensures pool == old(pool) - marked
    {
      particles, pool := EraseAll(particles, pool, marked);
    }

    /// The shockwave on the board's collection and pool.
    method JitterSurvivors(jitters: seq<Jitter>)
      requires Mirrors(grid, view) && AllIn(particles, pool) && |jitters| >= |particles|
      modifies this`pool
      ensures pool == JitteredPool(view, old(pool), particles, jitters)
    {
      pool := JitterAll(grid, view, particles, pool, jitters);
    }

    /// Collect the batch, flip the diagonal order and step every particle of the batch.
    method MoveBatch()
      requires Mirrors(grid, view) && AllIn(particles, pool) && AllOnBoard(pool)
      requires dirIndex == 0 || dirIndex == 1
      modifies grid, this`view, this`pool, this`dirIndex
      ensures Mirrors(grid, view) && dirIndex == 1 - old(dirIndex)
      ensures (view, pool) == Gravity.RunBatch(old(view), old(pool), Gravity.Batch(particles, old(pool)), dirIndex)
    {
      var batch := CollectBatch();
      FlipAlternates(dirIndex);
      dirIndex := (dirIndex + 1) % 2;
      StepBatch(batch);
    }
  }

  /// The removal loop on values: erase each id of `gone` where `std::find` locates it, and free it.
  method EraseAll(ids0: seq<Id>, pool0: map<Id, Particle>, gone: set<Id>) returns (ids: seq<Id>, live: map<Id, Particle>)
    requires Distinct(ids0) && pool0.Keys == IdSet(ids0)
    ensures ids == Without(ids0, gone) && live == pool0 - gone
  {
    ids, live := ids0, pool0;
    var rest, done := gone, {};
    WithoutNothing(ids);
    MinusNothing(live);
    while rest != {}
      invariant rest + done == gone && rest !! done
      invariant ids == Without(ids0, done) && live == pool0 - done
      decreases |rest|
    {
      var b :| b in rest;
      var k := IndexOf(ids, b);
      EraseStep(ids0, pool0, gone, rest, done, b, k);
      if k >= 0 {
        ids := ids[..k] + ids[k + 1..];
        live := live - {b};
      }
      done, rest := done + {b}, rest - {b};
    }
    NothingLeft(rest, done, gone);
  }

  /**
   * The spark loop: visit the marked particles in some order, and let every
   * `step`-th one emit `counts[i]` sparks at its position.
   */
  method EmitSparks(pool: map<Id, Particle>, marked: set<Id>, counts: seq<int>, step: int) returns (out: seq<Spark>)
    requires step >= 1 && CountsInRange(counts) && |counts| >= |marked| && marked <= pool.Keys
    ensures |out| == SparkTotal(counts[..|marked|], step)
    ensures FromGroup(out, marked, pool)
    ensures exists order: seq<Id> ::
      && Distinct(order) && |order| == |marked| && (forall b :: b in order <==> b in marked)
      && AllIn(order, pool) && out == Emitted(order, pool, counts, step)
  {
    out := [];
    var rest := marked;
    var i := 0;
    ghost var order: seq<Id> := [];
    while rest != {}
      invariant rest <= marked && i + |rest| == |marked| && |order| == i
      invariant Distinct(order) && AllIn(order, pool)
      invariant forall b :: b in order <==> b in marked && b !in rest
      invariant out == Emitted(order, pool, counts, step)
      invariant |out| == SparkTotal(counts[..i], step)
      invariant FromGroup(out, marked, pool)
      decreases |rest|
    {
      var b :| b in rest;
      SparkTotalStep(counts, i, step);
      ghost var before := out;
      if i % step == 0 {
        var p := pool[b];
        for j := 0 to counts[i]
          invariant out == before + Copies(j, SparkOf(p))
        {
          out := out + [Spark(p.x, p.y, p.color)];
        }
      }
      EmitStep(order, b, pool, counts, step, before, out);
      order := order + [b];
      i := i + 1;
      rest := rest - {b};
    }
  }

  /// One visited member extends the emitted sparks by its own copies.
  lemma EmitStep(order: seq<Id>, b: Id, pool: map<Id, Particle>, counts: seq<int>, step: int, before: seq<Spark>, out: seq<Spark>)
    requires step >= 1 && CountsInRange(counts) && |order| < |counts| && AllIn(order, pool) && b in pool
    requires before == Emitted(order, pool, counts, step)
    requires out == before + if |order| % step == 0 then Copies(counts[|order|], SparkOf(pool[b])) else []
    ensures AllIn(order + [b], pool) && out == Emitted(order + [b], pool, counts, step)
  {
    assert (order + [b])[..|order|] == order;
  }

  /// Moving the explosion to another valid phase while a group is marked keeps the bookkeeping.
  lemma PhaseKeepsBookkept(ids: seq<Id>, pool: map<Id, Particle>, nextId: nat, g: Grid,
                           state: ExplosionState, timer: int, marked: set<Id>, scaled: set<Id>,
                           state': ExplosionState, timer': int)
    requires Bookkept(ids, pool, nextId, g, state, timer, marked, scaled)
    requires state != Inactive && state' != Inactive && PhaseOk(Phase(state', timer'))
    ensures Bookkept(ids, pool, nextId, g, state', timer', marked, scaled)
  {
  }

  /**
   * The shockwave loop: every particle of the collection is thrown upwards,
   * unsettled, and shifted sideways when the target slot of the (stale)
   * grid is free.
   */
  method JitterAll(grid: array2<Option<Id>>, ghost g: Grid, ids: seq<Id>, pool0: map<Id, Particle>, jitters: seq<Jitter>)
    returns (pool: map<Id, Particle>)
    requires Mirrors(grid, g) && AllIn(ids, pool0) && |jitters| >= |ids|
    ensures pool == JitteredPool(g, pool0, ids, jitters)
  {
    pool := pool0;
    for i := 0 to |ids|
      invariant pool == JitteredPool(g, pool0, ids[..i], jitters)
    {
      JitteredPoolStep(g, pool0, ids, jitters, i);
      var id := ids[i];
      var p := pool[id];
      var newX := p.x + jitters[i].dx;
      var q := p.(velocityY := -jitters[i].lift);
      if newX >= 0 && newX < Width {
        var py := p.y;
        if py >= 0 && py < Height && grid[py, newX].None? {
          q := q.(x := newX);
        }
      }
      q := q.(settled := false);
      assert q == Jittered(g, p, jitters[i]);
      pool := pool[id := q];
    }
    assert ids[..|ids|] == ids;
  }

  /// A gravity frame keeps the bookkeeping: it moves particles but adds or drops none.
  lemma FrameKeepsBookkept(ids: seq<Id>, pool: map<Id, Particle>, nextId: nat, g: Grid,
                           state: ExplosionState, timer: int, marked: set<Id>, scaled: set<Id>, dir: int)
    requires Bookkept(ids, pool, nextId, g, state, timer, marked, scaled)
    ensures var r := Gravity.GravityFrame(g, ids, pool, dir);
      Bookkept(ids, r.1, nextId, r.0, state, timer, marked, scaled)
  {
    Gravity.GravityKeepsSlotsLive(g, ids, pool, dir);
  }

  /// A fresh grid whose slots all refer to live particles keeps the bookkeeping.
  lemma RegridKeepsBookkept(ids: seq<Id>, pool: map<Id, Particle>, nextId: nat, g: Grid, g': Grid,
                            state: ExplosionState, timer: int, marked: set<Id>, scaled: set<Id>)
    requires Bookkept(ids, pool, nextId, g, state, timer, marked, scaled)
    requires WellShaped(g') && SlotsLive(g', pool)
    ensures Bookkept(ids, pool, nextId, g', state, timer, marked, scaled)
  {
  }

  /// The bookkeeping after the removal frame: the survivors, their jittered
  /// particles and the rebuilt grid, with the explosion reset.
  lemma RemovalKeepsBookkept(ids0: seq<Id>, pool0: map<Id, Particle>, nextId: nat, marked: set<Id>,
                             ids: seq<Id>, pool: map<Id, Particle>, g: Grid, timer: int)
    requires Tracked(ids0, pool0.Keys, nextId)
    requires ids == Without(ids0, marked) && pool.Keys == pool0.Keys - marked
    requires AllOnBoard(pool) && WellShaped(g) && SlotsLive(g, pool)
    ensures Bookkept(ids, pool, nextId, g, Inactive, timer, {}, {})
  {
    WithoutIdSet(ids0, marked);
    WithoutMembers(ids0, marked);
    IdSetMembers(ids);
  }

  /**
   * One step of the removal loop: the next marked id is erased where `std::find`
   * located it in the filtered collection (or it is absent), and freed.
   */
  lemma EraseStep(ids0: seq<Id>, pool0: map<Id, Particle>, marked: set<Id>, rest: set<Id>, done: set<Id>, b: Id, k: int)
    requires Distinct(ids0) && pool0.Keys == IdSet(ids0)
    requires rest + done == marked && rest !! done && b in rest
    requires -1 <= k < |Without(ids0, done)| && (k == -1 <==> b !in Without(ids0, done))
    requires k >= 0 ==> Without(ids0, done)[k] == b
    ensures (rest - {b}) + (done + {b}) == marked && (rest - {b}) !! (done + {b})
    ensures var w := Without(ids0, done);
      (if k >= 0 then w[..k] + w[k + 1..] else w) == Without(ids0, done + {b})
    ensures (if k >= 0 then (pool0 - done) - {b} else pool0 - done) == pool0 - (done + {b})
  {
    MoveOne(rest, done, b);
    if k >= 0 {
      WithoutOneMore(ids0, done, b, k);
      MinusOneMore(pool0, done, b);
    } else {
      WithoutMembers(ids0, done);
      WithoutAbsent(ids0, done, b);
      IdSetMembers(ids0);
      MinusAbsent(pool0, done, b);
    }
  }

  lemma NothingLeft(rest: set<Id>, done: set<Id>, all: set<Id>)
    requires rest == {} && rest + done == all
    ensures done == all
  {
  }

  /// Moving one member from the pending set to the done set keeps their union and disjointness.
  lemma MoveOne(rest: set<Id>, done: set<Id>, b: Id)
    requires b in rest && rest !! done
    ensures (rest - {b}) + (done + {b}) == rest + done && (rest - {b}) !! (done + {b})
  {
  }

  /// After the removal the survivors are exactly the remaining pool entries, still on the board.
  lemma RemovedParts(ids: seq<Id>, pool: map<Id, Particle>, nextId: nat, marked: set<Id>)
    requires Tracked(ids, pool.Keys, nextId) && AllOnBoard(pool)
    ensures var ids', pool' := Without(ids, marked), pool - marked;
      && Distinct(ids') && pool'.Keys == IdSet(ids') && AllIn(ids', pool') && AllOnBoard(pool')
      && pool'.Keys == pool.Keys - marked
      && forall i :: 0 <= i < |ids'| ==> pool'[ids'[i]] == pool[ids'[i]]
  {
    var ids', pool' := Without(ids, marked), pool - marked;
    WithoutIdSet(ids, marked);
    WithoutMembers(ids, marked);
    IdSetMembers(ids');
  }

  lemma MinusNothing(m: map<Id, Particle>)
    ensures m - {} == m
  {
  }

  lemma MinusOneMore(m: map<Id, Particle>, s: set<Id>, b: Id)
    ensures (m - s) - {b} == m - (s + {b})
  {
  }

  lemma MinusAbsent(m: map<Id, Particle>, s: set<Id>, b: Id)
    requires b !in m
    ensures m - (s + {b}) == m - s
  {
  }

  lemma UpdateKeys(m: map<Id, Particle>, k: Id, v: Particle)
    requires k in m
    ensures m[k := v].Keys == m.Keys
  {
  }

  lemma RewriteSame(m: map<Id, Particle>, k: Id)
    requires k in m
    ensures m[k := m[k]] == m
  {
  }

  lemma FlipAlternates(d: int)
    requires d == 0 || d == 1
    ensures (d + 1) % 2 == 1 - d
  {
  }

  /**
   * The loop of `AddParticles` on values: each incoming particle on the board
   * gets the next fresh id and is appended; the others are skipped.
   */
  method Admit(ids0: seq<Id>, pool0: map<Id, Particle>, next0: nat, ghost g: Grid,
               state: ExplosionState, timer: int, marked: set<Id>, scaled: set<Id>, incoming: seq<Particle>)
    returns (ids: seq<Id>, live: map<Id, Particle>, next: nat)
    requires Bookkept(ids0, pool0, next0, g, state, timer, marked, scaled)
    ensures Bookkept(ids, live, next, g, state, timer, marked, scaled)
    ensures Values(ids, live) == Values(ids0, pool0) + Admitted(incoming)
    ensures ids0 <= ids
  {
    ids, live, next := ids0, pool0, next0;
    ghost var base := Values(ids, live);
    for i := 0 to |incoming|
      invariant Bookkept(ids, live, next, g, state, timer, marked, scaled)
      invariant Values(ids, live) == base + Admitted(incoming[..i])
      invariant ids0 <= ids
    {
      var p := incoming[i];
      AdmitOne(ids, live, next, g, state, timer, marked, scaled, base, ids0, incoming, i);
      if p.y >= 0 && p.y < Height && p.x >= 0 && p.x < Width {
        ids, live, next := ids + [next], live[next := p], next + 1;
      }
    }
    assert incoming[..|incoming|] == incoming;
  }

  /// One step of the admitting loop keeps its invariant.
  lemma AdmitOne(ids: seq<Id>, pool: map<Id, Particle>, nextId: nat, g: Grid,
                 state: ExplosionState, timer: int, marked: set<Id>, scaled: set<Id>,
                 base: seq<Particle>, prefix: seq<Id>, ps: seq<Particle>, i: int)
    requires Bookkept(ids, pool, nextId, g, state, timer, marked, scaled) && 0 <= i < |ps|
    requires Values(ids, pool) == base + Admitted(ps[..i]) && prefix <= ids
    ensures var p := ps[i];
      var (ids', pool', next') := if OnBoard(p) then (ids + [nextId], pool[nextId := p], nextId + 1) else (ids, pool, nextId);
      && Bookkept(ids', pool', next', g, state, timer, marked, scaled)
      && Values(ids', pool') == base + Admitted(ps[..i + 1])
      && prefix <= ids'
  {
    var p := ps[i];
    AdmittedStep(ps, i);
    if OnBoard(p) {
      AppendKeepsParts(ids, pool, nextId, g, state, timer, marked, scaled, p);
      AppendAssoc(base, Admitted(ps[..i]), p);
      PrefixAppend(prefix, ids, nextId);
    }
  }

  lemma AdmittedStep(ps: seq<Particle>, i: int)
    requires 0 <= i < |ps|
    ensures Admitted(ps[..i + 1]) == if OnBoard(ps[i]) then Admitted(ps[..i]) + [ps[i]] else Admitted(ps[..i])
  {
    assert ps[..i + 1][..i] == ps[..i];
  }

  /// Adding a particle under a fresh id keeps the bookkeeping and appends it to the values.
  lemma AppendKeepsParts(ids: seq<Id>, pool: map<Id, Particle>, nextId: nat, g: Grid,
                         state: ExplosionState, timer: int, marked: set<Id>, scaled: set<Id>, p: Particle)
    requires Bookkept(ids, pool, nextId, g, state, timer, marked, scaled) && OnBoard(p)
    ensures var ids', pool' := ids + [nextId], pool[nextId := p];
      && Bookkept(ids', pool', nextId + 1, g, state, timer, marked, scaled)
      && Values(ids', pool') == Values(ids, pool) + [p]
  {
    var ids', pool' := ids + [nextId], pool[nextId := p];
    assert nextId !in pool;
    ValuesAppend(ids, pool, nextId, p);
    IdSetAppend(ids, nextId);
    assert pool'.Keys == pool.Keys + {nextId};
  }

  lemma AppendAssoc(a: seq<Particle>, b: seq<Particle>, p: Particle)
    ensures (a + b) + [p] == a + (b + [p])
  {
  }

  /// Values that extend the old values on an extended collection keep every old pool entry.
  lemma ExtendingKeepsOld(ids0: seq<Id>, pool0: map<Id, Particle>, ids: seq<Id>, pool: map<Id, Particle>, extra: seq<Particle>)
    requires AllIn(ids0, pool0) && AllIn(ids, pool) && pool0.Keys == IdSet(ids0) && ids0 <= ids
    requires Values(ids, pool) == Values(ids0, pool0) + extra
    ensures forall id :: id in pool0 ==> id in pool && pool[id] == pool0[id]
  {
    IdSetMembers(ids0);
    forall id | id in pool0 ensures id in pool && pool[id] == pool0[id] {
      var i :| 0 <= i < |ids0| && ids0[i] == id;
      assert ids[i] == id;
      assert Values(ids, pool)[i] == Values(ids0, pool0)[i];
    }
  }

  lemma PrefixAppend(a: seq<Id>, b: seq<Id>, x: Id)
    requires a <= b
    ensures a <= b + [x]
  {
  }

  lemma ValuesAppend(ids: seq<Id>, pool: map<Id, Particle>, id: Id, p: Particle)
    requires AllIn(ids, pool) && id !in pool
    ensures AllIn(ids + [id], pool[id := p])
    ensures Values(ids + [id], pool[id := p]) == Values(ids, pool) + [p]
  {
    var ids', pool' := ids + [id], pool[id := p];
    assert ids'[..|ids'| - 1] == ids;
    assert Values(ids, pool') == Values(ids, pool);
  }

  lemma AllEmptyIsEmptyGrid(g: Grid)
    requires WellShaped(g) && forall y, x :: 0 <= y < Height && 0 <= x < Width ==> g[y][x] == None
    ensures g == EmptyGrid()
  {
    var e := EmptyGrid();
    forall y | 0 <= y < Height ensures g[y] == e[y] {
    }
  }
}
