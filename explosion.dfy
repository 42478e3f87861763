/**
 * The integer side of the board's explosion (`UpdatePreExplosionAnimation`,
 * `TriggerShake`, src/Board.cpp): the phase/timer machine, the shake clamp,
 * the spark sampling arithmetic, and the post-explosion jitter of survivors.
 */
module Explosion {
  import opened Wrappers
  import opened Particles
  import opened Grids

  /// `Board::ExplosionState`: NONE, ZOOMING, EXPLODING.
  datatype ExplosionState = Inactive | Zooming | Exploding

  const ZoomDuration: int := 60
  /// Removal happens once the exploding timer exceeds this.
  const RemovalDelay: int := 5
  const MaxShake: int := 30
  const ShakeFrames: int := 30

  function Min(a: int, b: int): int {
    if a <= b then a else b
  }

  function Max(a: int, b: int): int {
    if a >= b then a else b
  }

  datatype Shake = Shake(amount: int, duration: int)

  /// `TriggerShake(intensity)`: add to a running shake (capped at 30) or start a new one.
  function TriggerShake(s: Shake, intensity: int): Shake {
    if s.amount > 0 then Shake(Min(MaxShake, s.amount + intensity), Max(s.duration, ShakeFrames))
    else Shake(intensity, ShakeFrames)
  }

  /**
   * With intensities in [0, 30], as every caller passes, the shake stays in
   * [0, 30] and never weakens; a running shake is never shortened and lasts at
   * least 30 more frames, and a new one starts at the intensity for 30 frames.
   */
  lemma TriggerShakeBounded(s: Shake, intensity: int)
    requires 0 <= s.amount <= MaxShake && 0 <= intensity <= MaxShake
    ensures var r := TriggerShake(s, intensity);
      && 0 <= r.amount <= MaxShake && s.amount <= r.amount
      && (s.amount > 0 ==> r.duration == Max(s.duration, ShakeFrames))
      && (s.amount <= 0 ==> r.amount == intensity && r.duration == ShakeFrames)
  {
  }

  /// A running shake is only capped, never reset: adding zero changes only the duration.
  lemma TriggerShakeZero(s: Shake)
    requires 0 < s.amount <= MaxShake
    ensures TriggerShake(s, 0).amount == s.amount
  {
  }

  /// The zoom-phase shake `(int)(progress * 10.0f)` with `progress = timer / 60.0f`.
  function ZoomShake(timer: int): (intensity: int)
    requires 0 <= timer < ZoomDuration
    ensures 0 <= intensity <= 9
    ensures intensity * 6 <= timer < intensity * 6 + 6
  {
    timer * 10 / ZoomDuration
  }

  /// The shake on detonation: an eighth of the group size, at most 30.
  function DetonationShake(size: nat): (intensity: int)
    ensures 0 <= intensity <= MaxShake
    ensures intensity == MaxShake <==> size >= 8 * MaxShake
  {
    Min(MaxShake, size / 8)
  }

  datatype Phase = Phase(state: ExplosionState, timer: int)

  /// The state and timer after one call of `UpdatePreExplosionAnimation`.
  function NextPhase(p: Phase): (r: Phase) {
    if p.state == Inactive then p
    else
      var t := p.timer + 1;
      if p.state == Zooming then
        if t < ZoomDuration then Phase(Zooming, t) else Phase(Exploding, 0)
      else if t > RemovalDelay then Phase(Inactive, t)
      else Phase(Exploding, t)
  }

  /// The calls that zoom (rescale and maybe shake) rather than detonate.
  predicate Zooms(p: Phase) {
    p.state == Zooming && p.timer + 1 < ZoomDuration
  }

  /// The call that turns the zoom into the explosion.
  predicate Detonates(p: Phase) {
    p.state == Zooming && p.timer + 1 >= ZoomDuration
  }

  /// The call that removes the marked particles and jitters the survivors.
  predicate Removes(p: Phase) {
    p.state == Exploding && p.timer + 1 > RemovalDelay
  }

  /// The timer ranges the machine keeps: [0, 59] while zooming, [0, 5] while exploding.
  predicate PhaseOk(p: Phase) {
    (p.state == Zooming ==> 0 <= p.timer < ZoomDuration) &&
    (p.state == Exploding ==> 0 <= p.timer <= RemovalDelay)
  }

  lemma NextPhaseOk(p: Phase)
    requires PhaseOk(p)
    ensures PhaseOk(NextPhase(p))
    ensures Removes(p) <==> p.state == Exploding && NextPhase(p).state == Inactive
    ensures Detonates(p) <==> p.state == Zooming && NextPhase(p).state == Exploding
  {
  }

  /// `n` calls in a row.
  function Iterate(p: Phase, n: nat): Phase
    decreases n
  {
    if n == 0 then p else Iterate(NextPhase(p), n - 1)
  }

  lemma {:induction false} IterateSplit(p: Phase, a: nat, b: nat)
    ensures Iterate(p, a + b) == Iterate(Iterate(p, a), b)
    decreases a
  {
    if a > 0 {
      IterateSplit(NextPhase(p), a - 1, b);
    }
  }

  /// While zooming, each call only advances the timer.
  lemma {:induction false} ZoomAdvances(t: int, n: nat)
    requires 0 <= t && t + n < ZoomDuration
    ensures Iterate(Phase(Zooming, t), n) == Phase(Zooming, t + n)
    decreases n
  {
    if n > 0 {
      ZoomAdvances(t + 1, n - 1);
    }
  }

  /// While exploding and before removal, each call only advances the timer.
  lemma {:induction false} ExplodeAdvances(t: int, n: nat)
    requires 0 <= t && t + n <= RemovalDelay
    ensures Iterate(Phase(Exploding, t), n) == Phase(Exploding, t + n)
    decreases n
  {
    if n > 0 {
      ExplodeAdvances(t + 1, n - 1);
    }
  }

  /**
   * The lifecycle from a fresh trigger (zooming, timer 0): the first 59 calls
   * zoom, the 60th detonates (exploding, timer 0), the next five wait, and the
   * 66th removes and returns to the inactive state.
   */
  lemma Lifecycle(n: nat)
    ensures n < ZoomDuration - 1 ==> Zooms(Iterate(Phase(Zooming, 0), n))
    ensures n == ZoomDuration - 1 ==> Detonates(Iterate(Phase(Zooming, 0), n))
    ensures Iterate(Phase(Zooming, 0), ZoomDuration) == Phase(Exploding, 0)
    ensures ZoomDuration <= n < ZoomDuration + RemovalDelay ==>
      var p := Iterate(Phase(Zooming, 0), n); p.state == Exploding && !Removes(p)
    ensures n == ZoomDuration + RemovalDelay ==> Removes(Iterate(Phase(Zooming, 0), n))
    ensures Iterate(Phase(Zooming, 0), ZoomDuration + RemovalDelay + 1).state == Inactive
  {
    ZoomAdvances(0, ZoomDuration - 1);
    if n < ZoomDuration {
      ZoomAdvances(0, n);
    }
    IterateSplit(Phase(Zooming, 0), ZoomDuration - 1, 1);
    if ZoomDuration <= n <= ZoomDuration + RemovalDelay {
      IterateSplit(Phase(Zooming, 0), ZoomDuration, n - ZoomDuration);
      ExplodeAdvances(0, n - ZoomDuration);
    }
    IterateSplit(Phase(Zooming, 0), ZoomDuration, RemovalDelay);
    ExplodeAdvances(0, RemovalDelay);
    IterateSplit(Phase(Zooming, 0), ZoomDuration + RemovalDelay, 1);
  }

  /// `min(size * 3, 300)`: the intended spark budget.
  function SparkBudget(size: int): int {
    Min(size * 3, 300)
  }

  /// `max(1, size / (budget / 3))`: every `step`-th group member emits sparks.
  function SampleStep(size: int): (step: int)
    requires size >= 1
    ensures step >= 1
  {
    Max(1, size / (SparkBudget(size) / 3))
  }

  /// Groups below 200 particles are not thinned at all.
  lemma SampleStepSmall(size: int)
    requires 1 <= size < 200
    ensures SampleStep(size) == 1
  {
    if size <= 100 {
      assert SparkBudget(size) / 3 == size;
    } else {
      assert SparkBudget(size) / 3 == 100;
    }
  }

  /// How many sparks are emitted: `counts[i]` for each i-th visited member with `i % step == 0`.
  function SparkTotal(counts: seq<int>, step: int): int
    requires step >= 1
    decreases |counts|
  {
    if |counts| == 0 then 0
    else
      var own := if (|counts| - 1) % step == 0 then counts[|counts| - 1] else 0;
      SparkTotal(counts[..|counts| - 1], step) + own
  }

  predicate CountsInRange(counts: seq<int>) {
    forall i :: 0 <= i < |counts| ==> 3 <= counts[i] <= 6
  }

  /// Without thinning every member emits 3 to 6 sparks.
  lemma {:induction false} SparkTotalUnthinned(counts: seq<int>)
    requires CountsInRange(counts)
    ensures 3 * |counts| <= SparkTotal(counts, 1) <= 6 * |counts|
    decreases |counts|
  {
    if |counts| > 0 {
      SparkTotalUnthinned(counts[..|counts| - 1]);
    }
  }

  /**
   * The 300 budget is not a cap: a group of 101 to 199 particles is not thinned
   * and so emits at least 303 sparks.
   */
  lemma SparksExceedBudget(counts: seq<int>)
    requires CountsInRange(counts) && 100 < |counts| < 200
    ensures SparkTotal(counts, SampleStep(|counts|)) > SparkBudget(|counts|)
  {
    SampleStepSmall(|counts|);
    SparkTotalUnthinned(counts);
  }

  /// A spark of the explosion effect at an exploding particle's integer position.
  datatype Spark = Spark(x: int, y: int, color: Color)

  /// The spark an exploding particle emits, at its integer position and in its colour.
  function SparkOf(p: Particle): Spark {
    Spark(p.x, p.y, p.color)
  }

  /// Every spark of `ss` was emitted by some particle of the group.
  predicate FromGroup(ss: seq<Spark>, group: set<Id>, pool: map<Id, Particle>) {
    forall k :: 0 <= k < |ss| ==> exists b :: b in group && b in pool && ss[k] == SparkOf(pool[b])
  }

  /// `n` copies of one spark, as the inner emplace loop produces them.
  function Copies(n: nat, sp: Spark): (r: seq<Spark>)
    ensures |r| == n && forall k :: 0 <= k < n ==> r[k] == sp
  {
    if n == 0 then [] else Copies(n - 1, sp) + [sp]
  }

  /**
   * The sparks emitted when the group is visited in `order`: the i-th visited
   * member emits `counts[i]` copies of its own spark when `i % step == 0`.
   */
  function Emitted(order: seq<Id>, pool: map<Id, Particle>, counts: seq<int>, step: int): seq<Spark>
    requires step >= 1 && CountsInRange(counts) && |order| <= |counts| && AllIn(order, pool)
    decreases |order|
  {
    if |order| == 0 then []
    else
      var i := |order| - 1;
      Emitted(order[..i], pool, counts, step) +
        if i % step == 0 then Copies(counts[i], SparkOf(pool[order[i]])) else []
  }

  /// The emitted sparks number exactly the sampled members' counts.
  lemma {:induction false} EmittedLength(order: seq<Id>, pool: map<Id, Particle>, counts: seq<int>, step: int)
    requires step >= 1 && CountsInRange(counts) && |order| <= |counts| && AllIn(order, pool)
    ensures |Emitted(order, pool, counts, step)| == SparkTotal(counts[..|order|], step)
    decreases |order|
  {
    if |order| > 0 {
      var i := |order| - 1;
      EmittedLength(order[..i], pool, counts, step);
      SparkTotalStep(counts, i, step);
      assert counts[..|order[..i]|] == counts[..i];
    }
  }

  /// Every emitted spark is the spark of a visited member, so of the group when the group holds them all.
  lemma {:induction false} EmittedFromGroup(order: seq<Id>, group: set<Id>, pool: map<Id, Particle>, counts: seq<int>, step: int)
    requires step >= 1 && CountsInRange(counts) && |order| <= |counts| && AllIn(order, pool)
    requires forall b :: b in order ==> b in group
    ensures FromGroup(Emitted(order, pool, counts, step), group, pool)
    decreases |order|
  {
    if |order| > 0 {
      var i := |order| - 1;
      EmittedFromGroup(order[..i], group, pool, counts, step);
      var head := Emitted(order[..i], pool, counts, step);
      var tail := if i % step == 0 then Copies(counts[i], SparkOf(pool[order[i]])) else [];
      var out := Emitted(order, pool, counts, step);
      assert out == head + tail;
      assert order[i] in group;
      forall k | 0 <= k < |out| ensures exists b :: b in group && b in pool && out[k] == SparkOf(pool[b]) {
        if k < |head| {
          assert out[k] == head[k];
        } else {
          assert out[k] == tail[k - |head|] == SparkOf(pool[order[i]]);
        }
      }
    }
  }

  lemma AppendedSparks(a: seq<Spark>, b: seq<Spark>)
    ensures a <= a + b && (a + b)[|a|..] == b
  {
  }

  /// One more visited member adds its own sparks exactly when its index is a multiple of the step.
  lemma SparkTotalStep(counts: seq<int>, i: int, step: int)
    requires 0 <= i < |counts| && step >= 1
    ensures SparkTotal(counts[..i + 1], step) ==
      SparkTotal(counts[..i], step) + if i % step == 0 then counts[i] else 0
  {
    assert counts[..i + 1][..i] == counts[..i];
  }

  /// The random draws for one survivor: a sideways shift in [-10, 10] and an
  /// upward impulse already truncated to an integer in [0, 20).
  datatype Jitter = Jitter(dx: int, lift: int)

  predicate JitterInRange(j: Jitter) {
    -10 <= j.dx <= 10 && 0 <= j.lift < 20
  }

  /**
   * One survivor after the shockwave: thrown upwards, unsettled, and moved
   * sideways when the target is inside the walls and free on the grid `g`
   * as it was before the removal.
   */
  function Jittered(g: Grid, p: Particle, j: Jitter): Particle
    requires WellShaped(g)
  {
    var newX := p.x + j.dx;
    var q := p.(velocityY := -j.lift, settled := false);
    if 0 <= newX < Width && 0 <= p.y < Height && g[p.y][newX].None? then q.(x := newX) else q
  }

  /// A survivor stays on the board and in its row, is unsettled, has velocity in
  /// (-20, 0], and shifts by exactly `dx` or not at all, and only onto a free slot.
  lemma JitteredFacts(g: Grid, p: Particle, j: Jitter)
    requires WellShaped(g) && OnBoard(p) && JitterInRange(j)
    ensures var q := Jittered(g, p, j);
      && OnBoard(q) && q.y == p.y && q.color == p.color && !q.settled
      && -20 < q.velocityY <= 0
      && (q.x == p.x || (q.x == p.x + j.dx && g[q.y][q.x].None?))
  {
  }

  /**
   * Because the stale grid is not updated while survivors move, two survivors
   * can land on the same slot: here two grains one slot either side of a free
   * slot both shift into it.
   */
  lemma JitterCanCollide()
    ensures var g := SetCell(SetCell(EmptyGrid(), 0, 0, Some(1)), 2, 0, Some(2));
      var p, q := NewParticle(0, 0, White), NewParticle(2, 0, White);
      var p', q' := Jittered(g, p, Jitter(1, 0)), Jittered(g, q, Jitter(-1, 0));
      p'.x == q'.x && p'.y == q'.y
  {
    var g := SetCell(SetCell(EmptyGrid(), 0, 0, Some(1)), 2, 0, Some(2));
    assert g[0][1] == None;
  }

  /// A slot of an already removed particle still blocks the shift.
  lemma RemovedSlotStillBlocks(g: Grid, p: Particle, j: Jitter, removed: Id)
    requires WellShaped(g) && OnBoard(p) && 0 <= p.x + j.dx < Width && g[p.y][p.x + j.dx] == Some(removed)
    ensures Jittered(g, p, j).x == p.x
  {
  }

  /// The collection with the members of `s` removed, order kept.
  function Without(ids: seq<Id>, s: set<Id>): (r: seq<Id>)
    ensures |r| <= |ids|
  {
    if |ids| == 0 then []
    else
      var init := Without(ids[..|ids| - 1], s);
      var last := ids[|ids| - 1];
      if last in s then init else init + [last]
  }

  /// The filtered collection keeps exactly the ids outside `s`, each once if they were.
  lemma {:induction false} WithoutMembers(ids: seq<Id>, s: set<Id>)
    ensures forall id :: id in Without(ids, s) <==> id in ids && id !in s
    ensures Distinct(ids) ==> Distinct(Without(ids, s))
    decreases |ids|
  {
    if |ids| > 0 {
      var init := ids[..|ids| - 1];
      var last := ids[|ids| - 1];
      WithoutMembers(init, s);
      assert ids == init + [last];
      assert forall j :: j in ids <==> j in init || j == last;
      if Distinct(ids) {
        assert Distinct(init);
        assert last !in init;
      }
    }
  }

  /**
   * The pool after the shockwave has visited `ids` in order, each survivor
   * jittered with its own draw. (An id without a pool entry is passed over;
   * the board only visits live ids.)
   */
  function JitteredPool(g: Grid, pool: map<Id, Particle>, ids: seq<Id>, js: seq<Jitter>): (r: map<Id, Particle>)
    requires WellShaped(g) && |js| >= |ids|
    ensures r.Keys == pool.Keys
  {
    if |ids| == 0 then pool
    else
      var r0 := JitteredPool(g, pool, ids[..|ids| - 1], js);
      var id := ids[|ids| - 1];
      if id in r0 then r0[id := Jittered(g, r0[id], js[|ids| - 1])] else r0
  }

  lemma JitteredPoolStep(g: Grid, pool: map<Id, Particle>, ids: seq<Id>, js: seq<Jitter>, i: int)
    requires WellShaped(g) && |js| >= |ids| && 0 <= i < |ids| && ids[i] in pool
    ensures var r0 := JitteredPool(g, pool, ids[..i], js);
      JitteredPool(g, pool, ids[..i + 1], js) == r0[ids[i] := Jittered(g, r0[ids[i]], js[i])]
  {
    assert ids[..i + 1][..i] == ids[..i];
  }

  /// A particle the shockwave does not visit keeps its entry.
  lemma {:induction false} JitteredPoolOutside(g: Grid, pool: map<Id, Particle>, ids: seq<Id>, js: seq<Jitter>, id: Id)
    requires WellShaped(g) && |js| >= |ids| && id in pool && id !in ids
    ensures JitteredPool(g, pool, ids, js)[id] == pool[id]
    decreases |ids|
  {
    if |ids| > 0 {
      assert ids[|ids| - 1] != id;
      JitteredPoolOutside(g, pool, ids[..|ids| - 1], js, id);
    }
  }

  /// On a collection without repeats, the i-th survivor is its old particle jittered with the i-th draw.
  lemma {:induction false} JitteredPoolAt(g: Grid, pool: map<Id, Particle>, ids: seq<Id>, js: seq<Jitter>, i: int)
    requires WellShaped(g) && |js| >= |ids| && Distinct(ids) && 0 <= i < |ids| && ids[i] in pool
    ensures JitteredPool(g, pool, ids, js)[ids[i]] == Jittered(g, pool[ids[i]], js[i])
    decreases |ids|
  {
    var init := ids[..|ids| - 1];
    if i == |ids| - 1 {
      assert ids[i] !in init;
      JitteredPoolOutside(g, pool, init, js, ids[i]);
    } else {
      assert init[i] == ids[i] && ids[|ids| - 1] != ids[i];
      JitteredPoolAt(g, pool, init, js, i);
    }
  }

  /**
   * On a collection without repeats, the i-th survivor is the old particle
   * jittered with the i-th draw, and particles outside the collection are untouched.
   */
  lemma JitteredPoolValues(g: Grid, pool: map<Id, Particle>, ids: seq<Id>, js: seq<Jitter>)
    requires WellShaped(g) && AllIn(ids, pool) && |js| >= |ids| && Distinct(ids)
    ensures var r := JitteredPool(g, pool, ids, js);
      && (forall i :: 0 <= i < |ids| ==> r[ids[i]] == Jittered(g, pool[ids[i]], js[i]))
      && (forall id :: id in pool && id !in ids ==> r[id] == pool[id])
  {
    forall i | 0 <= i < |ids| ensures JitteredPool(g, pool, ids, js)[ids[i]] == Jittered(g, pool[ids[i]], js[i]) {
      JitteredPoolAt(g, pool, ids, js, i);
    }
    forall id | id in pool && id !in ids ensures JitteredPool(g, pool, ids, js)[id] == pool[id] {
      JitteredPoolOutside(g, pool, ids, js, id);
    }
  }

  lemma JitteredOnBoard(g: Grid, p: Particle, j: Jitter)
    requires WellShaped(g) && OnBoard(p)
    ensures OnBoard(Jittered(g, p, j))
  {
  }

  /// The shockwave keeps every particle on the board.
  lemma {:induction false} JitteredPoolOnBoard(g: Grid, pool: map<Id, Particle>, ids: seq<Id>, js: seq<Jitter>)
    requires WellShaped(g) && |js| >= |ids|
    requires AllOnBoard(pool)
    ensures AllOnBoard(JitteredPool(g, pool, ids, js))
    decreases |ids|
  {
    if |ids| > 0 {
      var r0 := JitteredPool(g, pool, ids[..|ids| - 1], js);
      JitteredPoolOnBoard(g, pool, ids[..|ids| - 1], js);
      var id := ids[|ids| - 1];
      if id in r0 {
        JitteredOnBoard(g, r0[id], js[|ids| - 1]);
      }
    }
  }

  /// Erasing one more present member from the filtered collection (as `std::find` plus `erase` do).
  lemma {:induction false} WithoutOneMore(ids: seq<Id>, s: set<Id>, p: Id, i: int)
    requires Distinct(ids) && p !in s
    requires 0 <= i < |Without(ids, s)| && Without(ids, s)[i] == p
    ensures Without(ids, s)[..i] + Without(ids, s)[i + 1..] == Without(ids, s + {p})
    decreases |ids|
  {
    var init := ids[..|ids| - 1];
    var last := ids[|ids| - 1];
    assert Distinct(init);
    WithoutMembers(init, s);
    if last == p {
      ErasedLast(ids, s, p, i);
    } else if last in s {
      assert Without(ids, s) == Without(init, s);
      WithoutOneMore(init, s, p, i);
    } else {
      assert Without(ids, s) == Without(init, s) + [last];
      assert i < |Without(init, s)|;
      WithoutOneMore(init, s, p, i);
      KeptLast(ids, s, p, i);
    }
  }

  /// The erased member was the last of the collection.
  lemma ErasedLast(ids: seq<Id>, s: set<Id>, p: Id, i: int)
    requires |ids| > 0 && Distinct(ids) && p !in s && ids[|ids| - 1] == p
    requires 0 <= i < |Without(ids, s)| && Without(ids, s)[i] == p
    ensures Without(ids, s)[..i] + Without(ids, s)[i + 1..] == Without(ids, s + {p})
  {
    var init := ids[..|ids| - 1];
    var w, wi := Without(ids, s), Without(init, s);
    assert w == wi + [p];
    assert p !in init;
    WithoutMembers(init, s);
    WithoutAbsent(init, s, p);
    assert p !in wi;
    assert forall j :: 0 <= j < |wi| ==> w[j] == wi[j];
    assert i == |wi|;
    assert w[..i] + w[i + 1..] == wi;
  }

  /// The erased member lies before the last, which is kept.
  lemma KeptLast(ids: seq<Id>, s: set<Id>, p: Id, i: int)
    requires |ids| > 0 && p !in s
    requires ids[|ids| - 1] != p && ids[|ids| - 1] !in s
    requires 0 <= i < |Without(ids[..|ids| - 1], s)| && Without(ids[..|ids| - 1], s)[i] == p
    requires var wi := Without(ids[..|ids| - 1], s); wi[..i] + wi[i + 1..] == Without(ids[..|ids| - 1], s + {p})
    ensures Without(ids, s)[..i] + Without(ids, s)[i + 1..] == Without(ids, s + {p})
  {
    var init := ids[..|ids| - 1];
    var last := ids[|ids| - 1];
    var w, wi := Without(ids, s), Without(init, s);
    assert w == wi + [last];
    DropAppend(wi, last, i);
    assert Without(ids, s + {p}) == Without(init, s + {p}) + [last];
  }

  /// Dropping index `i` before an appended element commutes with the append.
  lemma DropAppend(a: seq<Id>, x: Id, i: int)
    requires 0 <= i < |a|
    ensures (a + [x])[..i] + (a + [x])[i + 1..] == (a[..i] + a[i + 1..]) + [x]
  {
    assert (a + [x])[..i] == a[..i];
    assert (a + [x])[i + 1..] == a[i + 1..] + [x];
  }

  /// The filtered collection holds the live ids of the original minus the removed ones.
  lemma WithoutIdSet(ids: seq<Id>, s: set<Id>)
    ensures IdSet(Without(ids, s)) == IdSet(ids) - s
  {
    IdSetMembers(ids);
    IdSetMembers(Without(ids, s));
    WithoutMembers(ids, s);
  }

  /// `std::find`: the first index holding `id`, or -1 when there is none.
  method IndexOf(ids: seq<Id>, id: Id) returns (k: int)
    ensures -1 <= k < |ids|
    ensures k == -1 <==> id !in ids
    ensures k >= 0 ==> ids[k] == id && id !in ids[..k]
  {
    for i := 0 to |ids|
      invariant id !in ids[..i]
    {
      if ids[i] == id {
        return i;
      }
    }
    assert ids[..|ids|] == ids;
    return -1;
  }

  /// Removing nothing keeps the collection.
  lemma {:induction false} WithoutNothing(ids: seq<Id>)
    ensures Without(ids, {}) == ids
    decreases |ids|
  {
    if |ids| > 0 {
      WithoutNothing(ids[..|ids| - 1]);
    }
  }

  /// Removing an absent id changes nothing.
  lemma {:induction false} WithoutAbsent(ids: seq<Id>, s: set<Id>, p: Id)
    requires p !in ids
    ensures Without(ids, s + {p}) == Without(ids, s)
    decreases |ids|
  {
    if |ids| > 0 {
      WithoutAbsent(ids[..|ids| - 1], s, p);
    }
  }

  /// The effect of a zoom frame at the new timer: every scale set to the frame's factor, and a shake on every third frame.
  predicate Zoomed(scale0: map<Id, real>, scale: map<Id, real>, zoomScale: real, shake0: Shake, shake: Shake, timer: int) {
    && 0 <= timer < ZoomDuration
    && scale.Keys == scale0.Keys && (forall b :: b in scale ==> scale[b] == zoomScale)
    && shake == if timer % 3 == 0 then TriggerShake(shake0, ZoomShake(timer)) else shake0
  }

  /**
   * The effect of the detonation on a marked group: the sparks of the sampled
   * members, in some order of visiting the group, appended to the old ones,
   * and a shake by the group size.
   */
  ghost predicate Detonated(sparks0: seq<Spark>, sparks: seq<Spark>, group: set<Id>, pool: map<Id, Particle>,
                      counts: seq<int>, shake0: Shake, shake: Shake) {
    && 1 <= |group| <= |counts| && CountsInRange(counts)
    && sparks0 <= sparks
    && |sparks| == |sparks0| + SparkTotal(counts[..|group|], SampleStep(|group|))
    && FromGroup(sparks[|sparks0|..], group, pool)
    && (exists order: seq<Id> ::
          && Distinct(order) && |order| == |group| && (forall b :: b in order <==> b in group)
          && AllIn(order, pool) && sparks[|sparks0|..] == Emitted(order, pool, counts, SampleStep(|group|)))
    && shake == TriggerShake(shake0, DetonationShake(|group|))
  }

  /**
   * The effect of the removal frame: the marked particles erased from the
   * collection in order, the survivors jittered against the grid as it was,
   * and the grid rebuilt from the survivors.
   */
  predicate Removed(ids0: seq<Id>, pool0: map<Id, Particle>, g0: Grid, gone: set<Id>, jitters: seq<Jitter>,
                    ids: seq<Id>, pool: map<Id, Particle>, g: Grid) {
    && WellShaped(g0) && ids == Without(ids0, gone) && |ids| <= |jitters|
    && pool == JitteredPool(g0, pool0 - gone, ids, jitters)
    && AllIn(ids, pool) && g == Placed(ids, pool)
  }

  /**
   * After the removal frame every survivor was a live particle before it, is
   * unsettled, has been thrown up with velocity in (-20, 0], stays on the board
   * in its row and colour, and kept its column or moved by its own draw.
   */
  lemma RemovedSurvivorsThrown(ids0: seq<Id>, pool0: map<Id, Particle>, g0: Grid, gone: set<Id>, jitters: seq<Jitter>,
                               ids: seq<Id>, pool: map<Id, Particle>, g: Grid)
    requires Removed(ids0, pool0, g0, gone, jitters, ids, pool, g)
    requires Distinct(ids0) && AllIn(ids0, pool0) && AllOnBoard(pool0)
    requires forall k :: 0 <= k < |jitters| ==> JitterInRange(jitters[k])
    ensures forall i :: 0 <= i < |ids| ==>
      var p, q := pool0[ids[i]], pool[ids[i]];
      && ids[i] in pool0 && ids[i] !in gone
      && !q.settled && -20 < q.velocityY <= 0 && OnBoard(q)
      && q.y == p.y && q.color == p.color && (q.x == p.x || q.x == p.x + jitters[i].dx)
  {
    WithoutMembers(ids0, gone);
    assert AllIn(ids, pool0 - gone);
    JitteredPoolValues(g0, pool0 - gone, ids, jitters);
    forall i | 0 <= i < |ids|
      ensures var p, q := pool0[ids[i]], pool[ids[i]];
        && !q.settled && -20 < q.velocityY <= 0 && OnBoard(q)
        && q.y == p.y && q.color == p.color && (q.x == p.x || q.x == p.x + jitters[i].dx)
    {
      JitteredFacts(g0, pool0[ids[i]], jitters[i]);
    }
  }
}
