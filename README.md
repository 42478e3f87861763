# Falling-sand Tetris core in Dafny

This project models the falling-sand engine of a Tetris variant. Each
placed block breaks into 5×5 sand grains, and the grains then fall, slide
and pile up on a 50×100 board. When a single-colour group of grains joins
the left wall to the right wall, that group zooms, explodes and is removed.

The model covers three parts of the source:

- the `Board` engine (src/Board.cpp);
- the falling piece that feeds it (src/Tetromino.cpp);
- the tetromino shape table (src/Shapes.hpp).

The model has nine modules, one per file:

| file | module | contents |
|---|---|---|
| `wrappers.dfy` | `Wrappers` | `Option` |
| `particles.dfy` | `Particles` | board constants from src/Constants.hpp; the RGBA colour; the grain record from src/Particle.hpp, with integer `x`/`y` |
| `shapes.dfy` | `Shapes` | the 7×4×4 cell table and `GetShape`, with the table's properties |
| `tetromino.dfy` | `Tetrominoes` | the falling piece as a class with the source's fields: `GenerateParticles`, `Move`, `Rotate`, and the two undo sequences the game uses |
| `grids.dfy` | `Grids` | the spatial index as a value; the rebuild function `Placed`; the collision test; grid/particle consistency |
| `gravity.dfy` | `Gravity` | one frame of `ApplyGravity` as functions on values: the wake-up pass, the capped batch sorted by row, and the fall / diagonal / settle rule for each particle |
| `floodfill.dfy` | `FloodFill` | the BFS of `FindConnectedGroup` as a method on the grid array, proved to return exactly the same-RGB 4-connected component |
| `explosion.dfy` | `Explosion` | the explosion phase/timer machine, the `TriggerShake` clamp, the spark sampling arithmetic and the survivor jitter after removal |
| `board.dfy` | `Boards` | the `Board` class itself: its fields, the invariant `Valid()` and every Board operation of the core, each proved against the functions above |

Particle references (`Particle*`) are modelled as ids (`nat`). The fields of `Board` are:

- `pool: map<Id, Particle>`: the live grains.
- `particles: seq<Id>`: the collection, in the source's vector order.
- `nextId`: the next id to allocate. It plays the part of `new Particle`.
- `grid: array2<Option<Id>>`: the spatial index. The ghost value `view` mirrors it.
- the remaining fields of src/Board.hpp that the core updates: `grid_dirty`, `dir_index`, the shake amount and duration, the explosion state and timer, the marked set, the scale-factor map, the flash colour and the emitted sparks.

`Valid()` ties these fields together:

- the array equals `view`;
- the ids in the collection are distinct and are exactly the pool's keys, all below `nextId`;
- every live grain is on the board;
- every taken slot names a live grain;
- the marked set and the scale keys are live grains, and are empty when no explosion is running;
- the timer stays within its phase's range.

Every operation of the source's `Board` requires and ensures `Valid()`;
the helper methods it calls require only the parts of `Valid()` they use.
Each operation also states its new state as a function of its old state:

- `ApplyGravity` ends in `Gravity.GravityFrame`;
- `RebuildGrid` ends in `Grids.Placed`;
- removal ends in `Explosion.Removed`.

The properties the source promises are proved as lemmas about those
functions:

- the rebuilt grid is last-writer-wins;
- gravity keeps a consistent grid consistent and never lifts a grain;
- the batch is a sorted permutation of the capped unsettled list;
- the flood fill finds exactly the component;
- the explosion lifecycle is 60 zoom calls, then 5 waits, then the removal.

The model follows the code where the obvious design would differ:

- The 1000-grain cap is taken before the sort.
- The wake-up pass runs only after the "anything unsettled?" exit. An all-settled board is left completely alone, `dir_index` included.
- The post-explosion jitter tests a grid that was neither rebuilt nor updated during the loop. Slots of deleted grains therefore still block (`Explosion.RemovedSlotStillBlocks`). Two survivors can also land on one slot (`Explosion.JitterCanCollide`). The final rebuild then keeps the later grain.
- For that reason, "the grid is consistent with the particles" is not part of `Valid()`. It is proved as a property that gravity preserves (`Gravity.GravityKeepsConsistent`), under the assumption that it holds at the start of a frame.
- Groups of up to 199 grains are not thinned at all (`Explosion.SampleStepSmall`). A group of 101 to 199 grains therefore emits more than the nominal budget of 300 sparks (`Explosion.SparksExceedBudget`).
- A removal increments the explosion timer and does not reset it. Only the next trigger sets it back to 0.

## Model

| member | source | states |
|---|---|---|
| Shapes.GetShape | src/Shapes.hpp:25-84 | for shape 0..6 and rotation 0..3: exactly 4 cells, every coordinate in [0,3], pairwise distinct, 4-connected |
| Shapes.TableRowIsTetrominoes | src/Shapes.hpp:26-76 | every one of the 7 table rows holds 4 rotations, each a proper tetromino |
| Shapes.ShapeRow | src/Shapes.hpp:26-76 | reference definition: the table's row of four rotations for each shape |
| Shapes.RowEntryIsTetromino | src/Shapes.hpp:80-83 | the rotation picked out of a row of tetrominoes is a tetromino |
| Shapes.TetrominoIndexFacts | src/Shapes.hpp:18-19 | a tetromino's 4 cells lie in the local 4×4 box and are pairwise distinct |
| Shapes.OShapeIsTetromino | src/Shapes.hpp:27-33 | all four O rotations are tetrominoes |
| Shapes.IShapeIsTetromino | src/Shapes.hpp:34-40 | all four I rotations are tetrominoes |
| Shapes.TShapeIsTetromino | src/Shapes.hpp:41-47 | all four T rotations are tetrominoes |
| Shapes.SShapeIsTetromino | src/Shapes.hpp:48-54 | all four S rotations are tetrominoes |
| Shapes.ZShapeIsTetromino | src/Shapes.hpp:55-61 | all four Z rotations are tetrominoes |
| Shapes.LShapeIsTetromino | src/Shapes.hpp:62-68 | all four L rotations are tetrominoes |
| Shapes.JShapeIsTetromino | src/Shapes.hpp:69-75 | all four J rotations are tetrominoes |
| Shapes.OShapeRotationInvariant | src/Shapes.hpp:27-33 | the O shape is the same in all four rotations |
| Shapes.IShapeIsStraight | src/Shapes.hpp:35-40 | the I shape has constant y in rotations 0 and 2, and constant x in rotations 1 and 3 |
| Particles.NewParticle | src/Particle.cpp:6-7 | a new grain has the given position and colour, velocity 0, and is unsettled |
| Tetrominoes.PieceGrain | src/Tetromino.cpp:25-37 | reference definition: grain i of the piece is grain (i/25, i%25/5, i%5) of the triple loop, at its block's scaled position |
| Tetrominoes.PieceParticles | src/Tetromino.cpp:20-38 | reference definition: the 100 grains of the piece for shape, rotation, colour and board position |
| Tetrominoes.Shifted | src/Tetromino.cpp:45-48 | reference definition: every grain moved by (dx, dy), nothing else changed |
| Tetrominoes.GrainIndex | src/Tetromino.cpp:25-37 | grain (block b, column px, row py) is element 25b+5px+py of the list, and that index is unique and below 100 |
| Tetrominoes.PieceLayout | src/Tetromino.cpp:25-37 | the generated list has 100 grains, and grain 25b+5px+py sits at ((boardX+bx)·5+px, (boardY+by)·5+py) for block b's cell (bx,by) |
| Tetrominoes.PieceColour | src/Tetromino.cpp:20-38 | all 100 generated grains carry the piece's colour, are unsettled and have velocity 0 |
| Tetrominoes.GrainPositionDetermines | src/Tetromino.cpp:25-37 | when the 4 cells are distinct, two grains sharing a position are the same grain |
| Tetrominoes.PiecePositionsDistinct | src/Tetromino.cpp:25-37 | the 100 generated grains occupy pairwise distinct positions |
| Tetrominoes.ShiftedPiece | src/Tetromino.cpp:20-49 | shifting a generated piece by 5dx, 5dy gives the piece generated at (boardX+dx, boardY+dy) |
| Tetrominoes.ShiftUndo | src/Tetromino.cpp:45-48 | shifting by (dx,dy) and then by (-dx,-dy) gives back the original list |
| Tetrominoes.PointwiseShifted | src/Tetromino.cpp:45-48 | a list shifted element by element equals the whole-list shift |
| Tetrominoes.NextRotation | src/Tetromino.cpp:53 | the next rotation is in [0,3]: the successor, or 0 after 3 |
| Tetrominoes.FourRotationsReturn | src/Tetromino.cpp:53 | four rotations return to the start |
| Tetrominoes.Tetromino.constructor | src/Tetromino.cpp:7-17 | the piece is at the given cell, with rotation 0, active, of the given shape and colour, and its list is the generated piece |
| Tetrominoes.Tetromino.GenerateParticles | src/Tetromino.cpp:20-38 | the list becomes exactly the generated piece for the current shape, rotation, colour and position |
| Tetrominoes.Tetromino.Move | src/Tetromino.cpp:41-49 | boardX/boardY move by dx/dy, every grain moves by 5dx/5dy, and the piece invariant (list == generated piece) is kept |
| Tetrominoes.Tetromino.Rotate | src/Tetromino.cpp:52-55 | rotation becomes the next rotation, and the list is the piece generated at that rotation |
| Tetrominoes.Tetromino.MoveAndUndo | src/Game.cpp:311-313 | Move(dx,dy) followed by Move(-dx,-dy) restores every field exactly |
| Tetrominoes.Tetromino.RotateAndUndo | src/Game.cpp:286-291 | rotating, restoring the old rotation and regenerating restores every field exactly |
| Grids.EmptyGrid | src/Board.cpp:13 | a 100×50 grid with every slot null |
| Grids.SetCell | src/Board.cpp:108 | writing one slot changes that slot only |
| Grids.Values | src/Board.hpp:14 | the grains of the collection, in collection order |
| Grids.IdSetMembers | src/Board.hpp:14 | the id set of a collection has exactly the collection's members |
| Grids.AboveTopNeverCollides | src/Board.cpp:93-94 | a grain above the top of the board, between the walls, never collides |
| Grids.Collides | src/Board.cpp:93-94 | reference definition: outside a side wall, below the floor, or at y ≥ 0 on a taken slot |
| Grids.Placed | src/Board.cpp:99-112 | reference definition of the rebuild: start empty and write each in-bounds grain of the collection into its slot, in collection order |
| Grids.LastAt | src/Board.cpp:104-110 | the index of the last grain of the collection at a position, or -1 when there is none |
| Grids.PlacedIsLastWriter | src/Board.cpp:99-112 | after a rebuild, each slot holds the last grain of the collection at that position, and is null when no grain is there |
| Grids.PlacedOccupants | src/Board.cpp:99-112 | every taken slot of a rebuilt grid holds a grain of the collection |
| Grids.RebuildIsConsistent | src/Board.cpp:99-112 | rebuilding from on-board grains at distinct positions gives a grid consistent with them, in both directions |
| Grids.ConsistentHasDistinctPositions | src/Board.cpp:174-239 | a consistent grid implies that no two grains share a position |
| Gravity.Half | src/Board.cpp:181 | C++ truncating `v / 2`: the remainder is 0 or 1 for v ≥ 0, and 0 or -1 for v < 0 |
| Gravity.FallDistanceRange | src/Board.cpp:181 | the fall distance is at most 3; it is at least 1 for v ≥ 0; it is 3 iff v ≥ 4; it is ≤ 0 iff v ≤ -2 |
| Gravity.FallDistance | src/Board.cpp:181 | reference definition: min(v/2 + 1, 3) with truncating division |
| Gravity.DiagonalDir | src/Board.cpp:166-220 | reference definition: the i-th diagonal column offset for `dir_index`, (-1, 1) or (1, -1) |
| Gravity.FallTo | src/Board.cpp:184-191 | the fall target is at most `steps` rows down through free slots, and stops only at the floor, at an occupied slot or after `steps` rows |
| Gravity.Moved | src/Board.cpp:183-239 | a moved grain stays on the board, keeps its colour and never moves up; once its old slot is cleared, it lands on a free slot |
| Gravity.Advance | src/Board.cpp:169-239 | one particle's step keeps the grid well shaped and the grain on the board |
| Gravity.AdvanceRelocates | src/Board.cpp:174-239 | the step clears the old slot and then writes the grain id into its new, free slot and nowhere else |
| Gravity.AdvanceOutcomes | src/Board.cpp:183-239 | exactly one of: a straight fall of 1..FallDistance(v) rows through free slots; a diagonal step into the free slot tried first (or, if that is blocked, the second) in `dir_index` order; staying put, settled with velocity 0 |
| Gravity.AdvanceSettlesOnFloor | src/Board.cpp:194-212 | a grain that reaches or stays on the bottom row in its column ends settled with velocity 0 |
| Gravity.AdvanceSettlesOnlyWhenStuck | src/Board.cpp:214-239 | a grain above the floor stays put only if it cannot fall and both diagonals are blocked |
| Gravity.RelocateKeepsConsistent | src/Board.cpp:174-239 | clearing the old slot, then setting the new free slot keeps grid and grains consistent |
| Gravity.AdvanceKeepsConsistent | src/Board.cpp:169-239 | one particle's step keeps a consistent grid consistent |
| Gravity.WokenKeepsPlace | src/Board.cpp:138-146 | waking changes only `settled`, and only for a settled grain with a free on-board slot below it |
| Gravity.WakeAll | src/Board.cpp:138-146 | the wake-up pass keeps the set of live grains and keeps them on the board |
| Gravity.WakeAllValues | src/Board.cpp:138-146 | after the wake-up pass, each grain of the collection is its woken self and every other grain is untouched |
| Gravity.UnsettledIds | src/Board.cpp:149-155 | the unsettled list is no longer than the collection and names live grains |
| Gravity.UnsettledIdsMembers | src/Board.cpp:149-155 | an id is in the unsettled list iff it is in the collection and unsettled; the list has no duplicates when the collection has none |
| Gravity.Capped | src/Board.cpp:158 | the cap keeps a prefix of at most 1000 ids, and a list of at most 1000 unchanged |
| Gravity.InsertByRowPermutes | src/Board.cpp:161-162 | inserting into the row-sorted list adds exactly that id |
| Gravity.InsertByRowSorted | src/Board.cpp:161-162 | inserting into a list sorted bottom-first keeps it sorted bottom-first |
| Gravity.SortByRowDescPermutes | src/Board.cpp:161-162 | the sort is a permutation of its input and orders it by non-increasing row |
| Gravity.Woken | src/Board.cpp:138-146 | reference definition: a settled on-board grain with a null slot below it becomes unsettled |
| Gravity.AllSettled | src/Board.cpp:114-121 | reference definition: every grain of the collection is settled |
| Gravity.InsertByRow | src/Board.cpp:161-162 | reference definition: insert before the first grain with a smaller-or-equal row |
| Gravity.SortByRowDesc | src/Board.cpp:161-162 | reference definition of the sort: insertion sort by non-increasing row |
| Gravity.Batch | src/Board.cpp:149-162 | reference definition: the unsettled ids in collection order, capped to 1000, then sorted by row |
| Gravity.BatchFacts | src/Board.cpp:149-162 | the batch has at most 1000 ids, sorted bottom-first, distinct, all unsettled members of the collection, and is a permutation of the first 1000 unsettled ids in collection order |
| Gravity.RunBatch | src/Board.cpp:169-240 | running the batch keeps the grid well shaped, the live set and every grain on the board |
| Gravity.RunBatchKeepsConsistent | src/Board.cpp:169-240 | running a batch of collection members keeps a consistent grid consistent |
| Gravity.RunBatchKeepsSlotsLive | src/Board.cpp:169-240 | running a batch only writes live grains into the grid |
| Gravity.RunBatchNeverLifts | src/Board.cpp:169-240 | no grain moves up or changes colour, and grains outside the batch are untouched |
| Gravity.GravityFrame | src/Board.cpp:127-240 | a frame keeps the grid well shaped, the live set and every grain on the board |
| Gravity.FrameMoves | src/Board.cpp:128-240 | an all-settled board is left exactly as it is; otherwise the frame wakes, then runs the batch computed from the woken grains |
| Gravity.GravityKeepsSlotsLive | src/Board.cpp:127-240 | a frame only writes live grains into the grid |
| Gravity.WakeKeepsConsistent | src/Board.cpp:138-146 | waking keeps a consistent grid consistent |
| Gravity.GravityKeepsConsistent | src/Board.cpp:174-239 | if grid and grains are consistent and the ids distinct before a frame, they are consistent after it and no two grains share a position |
| Gravity.GravityNeverLifts | src/Board.cpp:169-240 | in a frame no grain moves up or changes colour, and only batch members change column |
| FloodFill.Neighbour | src/Board.cpp:262-269 | reference definition: the slot content of the k-th 4-neighbour (down, up, right, left), or none when it is off the board |
| FloodFill.Edge | src/Board.cpp:262-273 | reference definition: b is a 4-neighbour of a on the grid and has the target RGB |
| FloodFill.Reachable | src/Board.cpp:243-282 | reference definition: a path of same-RGB 4-neighbour edges leads from a to b |
| FloodFill.PathExtend | src/Board.cpp:262-278 | a same-colour path extended by a neighbour edge is still a same-colour path |
| FloodFill.PathEndColour | src/Board.cpp:271-273 | the end of a path of more than one grain has the start's RGB |
| FloodFill.ClosedContainsReachable | src/Board.cpp:243-282 | a set closed under same-RGB 4-neighbour edges that contains a path's start contains its end |
| FloodFill.StepKeepsClosed | src/Board.cpp:254-279 | handling one queue element keeps "every dequeued member has all its same-colour neighbours visited" |
| FloodFill.VisitNeighbour | src/Board.cpp:263-277 | one direction adds the neighbour to the visited set and the queue iff it is an in-bounds, unvisited grain with the start's RGB, and records a path to it |
| FloodFill.VisitNeighbours | src/Board.cpp:258-279 | one dequeued grain: all four neighbours are examined, so that grain is closed, and every visited grain has a recorded path from the start |
| FloodFill.ComponentFound | src/Board.cpp:243-282 | a visited set with paths from the start and closed at every member is exactly the same-RGB component of the start |
| FloodFill.FindConnectedGroup | src/Board.cpp:243-282 | the result contains the start, holds live grains of the start's RGB, and contains b iff b is reachable from the start by same-RGB 4-neighbour steps |
| FloodFill.ReachesRightEdge | src/Board.cpp:299-305 | true iff some member of the group is in the right-most column |
| Explosion.TriggerShake | src/Board.cpp:61-69 | the clamp rule: a running shake gains the intensity, capped at 30, and lasts max(duration, 30); otherwise a new shake starts at the intensity for 30 frames |
| Explosion.TriggerShakeBounded | src/Board.cpp:61-69 | with intensities in [0,30]: the amount stays in [0,30] and never drops; a running shake is never shortened and lasts max(duration, 30); a new shake starts at the intensity for 30 frames |
| Explosion.TriggerShakeZero | src/Board.cpp:62-64 | adding intensity 0 to a running shake keeps its amount |
| Explosion.ZoomShake | src/Board.cpp:340-352 | the zoom shake is in [0,9] and is the timer divided by 6, rounded down |
| Explosion.DetonationShake | src/Board.cpp:358-359 | the detonation shake is in [0,30], and is 30 iff the group has at least 240 grains |
| Explosion.NextPhase | src/Board.cpp:328-424 | reference definition: inactive stays; otherwise the timer is incremented; zooming at 60 becomes exploding at 0; exploding above 5 becomes inactive with the timer kept |
| Explosion.NextPhaseOk | src/Board.cpp:329-424 | one call keeps the timer ranges (zooming 0..59, exploding 0..5); it removes iff it leaves exploding for inactive, and detonates iff it leaves zooming for exploding |
| Explosion.ZoomAdvances | src/Board.cpp:331-338 | while zooming, n calls add n to the timer |
| Explosion.ExplodeAdvances | src/Board.cpp:380-381 | while exploding and before removal, n calls add n to the timer |
| Explosion.Lifecycle | src/Board.cpp:328-425 | from zooming at 0: calls 1-59 zoom, the 60th detonates (exploding, 0), the next 5 wait, the 66th removes and returns to inactive |
| Explosion.SampleStep | src/Board.cpp:363-364 | the sample step is at least 1 |
| Explosion.SampleStepSmall | src/Board.cpp:363-364 | groups below 200 grains are not thinned |
| Explosion.SparkTotal | src/Board.cpp:366-376 | reference definition: the sum of counts[i] over the visited indices i that are multiples of the step |
| Explosion.Copies | src/Board.cpp:370-372 | n copies of one spark, as the inner emplace loop makes them |
| Explosion.Emitted | src/Board.cpp:366-376 | reference definition: the sparks of a visiting order, counts[i] copies of the i-th member's spark for each sampled i |
| Explosion.EmittedLength | src/Board.cpp:366-376 | the sparks of any visiting order number exactly the spark total |
| Explosion.EmittedFromGroup | src/Board.cpp:366-376 | every spark of a visiting order of group members is the spark of a group member |
| Explosion.SparkTotalUnthinned | src/Board.cpp:366-376 | an unthinned group of n grains emits between 3n and 6n sparks |
| Explosion.SparksExceedBudget | src/Board.cpp:363-376 | groups of 101..199 grains emit more sparks than the 300 budget |
| Explosion.JitteredFacts | src/Board.cpp:395-415 | a jittered survivor stays on the board in its row with its colour, ends unsettled with velocity in (-20,0], and keeps its column unless the target column is in bounds and free in the stale grid |
| Explosion.JitterCanCollide | src/Board.cpp:395-415 | two survivors two columns apart, one jittering +1 and the other -1, land on the same position |
| Explosion.RemovedSlotStillBlocks | src/Board.cpp:405-411 | a slot still naming a removed grain blocks the jitter |
| Explosion.JitteredOnBoard | src/Board.cpp:395-415 | a jittered grain stays on the board |
| Explosion.Without | src/Board.cpp:383-389 | erasing the marked ids never lengthens the collection |
| Explosion.WithoutMembers | src/Board.cpp:383-389 | after erasing, an id is in the collection iff it was there and is not marked; distinctness is kept |
| Explosion.WithoutIdSet | src/Board.cpp:383-389 | the id set after erasing is the old id set minus the marked set |
| Explosion.WithoutOneMore | src/Board.cpp:384-388 | erasing the found position of one more marked id equals erasing the larger marked set |
| Explosion.WithoutNothing | src/Board.cpp:383-389 | erasing no ids leaves the collection as it was |
| Explosion.WithoutAbsent | src/Board.cpp:385 | a marked id no longer in the collection is skipped |
| Explosion.IndexOf | src/Board.cpp:384 | `std::find`: the first index holding the id, or -1 iff it is absent |
| Explosion.JitteredPool | src/Board.cpp:395-415 | the jitter loop keeps the set of live grains |
| Explosion.JitteredPoolOutside | src/Board.cpp:395-415 | grains outside the collection are not jittered |
| Explosion.JitteredPoolAt | src/Board.cpp:395-415 | the i-th survivor becomes its jittered self with the i-th draw |
| Explosion.JitteredPoolValues | src/Board.cpp:395-415 | every survivor is jittered with its own draw against the stale grid, and nothing else changes |
| Explosion.JitteredPoolOnBoard | src/Board.cpp:395-415 | the jitter loop keeps every grain on the board |
| Explosion.RemovedSurvivorsThrown | src/Board.cpp:383-415 | after the removal frame, with draws in range, every survivor was live and unmarked before it; it is unsettled, has velocity in (-20,0], is on the board in its old row and colour, and kept its column or moved by its own dx |
| Explosion.Jittered | src/Board.cpp:395-415 | reference definition: velocity set to minus the lift, unsettled, and x moved by dx only when the target is inside the walls and null in the stale grid |
| Explosion.Zoomed | src/Board.cpp:338-352 | reference definition of a zoom frame's effect: the scale keys kept and every value set to the frame's factor, and a zoom shake raised on every third frame |
| Explosion.Detonated | src/Board.cpp:353-377 | reference definition of the detonation's effect: the old sparks extended by `Emitted` of some visiting order of the group, and the shake raised by the detonation intensity |
| Explosion.Removed | src/Board.cpp:383-422 | reference definition of the removal's effect: the collection without the marked ids, the survivors jittered against the pre-removal grid, and the grid rebuilt from them |
| Boards.Admitted | src/Board.cpp:53-59 | the admitted grains are no more than the incoming ones |
| Boards.AdmittedMembers | src/Board.cpp:53-59 | a grain is admitted iff it is incoming and on the board, and an all-on-board input is admitted whole, in order |
| Boards.Admit | src/Board.cpp:53-59 | the collection loop appends exactly the admitted grains, in order, with fresh ids, and keeps the bookkeeping invariant |
| Boards.Bridges | src/Board.cpp:293-305 | reference definition: row y's left-edge slot is taken and its grain's component reaches the right-most column |
| Boards.FirstBridge | src/Board.cpp:291-310 | reference definition: y bridges and no row above it does |
| Boards.Component | src/Board.cpp:296 | reference definition: the set of grains reachable from the start with the start's RGB |
| Boards.ComponentIs | src/Board.cpp:291-305 | the flood-fill result is the component, and row y bridges iff that component reaches the right-most column |
| Boards.ZoomStarts | src/Board.cpp:309-317 | a non-empty live group marked with scale keys equal to the group is a valid start of a zoom at timer 0 |
| Boards.ConstantScales | src/Board.cpp:312-317 | builds a map whose keys are exactly the group, with every value 1.0 |
| Boards.Board.constructor | src/Board.cpp:8-15 | empty collection and grid, grid dirty, dir 0, no shake, inactive at timer 0, white flash, and Valid |
| Boards.Board.SetSlot | src/Board.cpp:108 | the array and its view change in one slot only |
| Boards.Board.AddParticles | src/Board.cpp:53-59 | the collection becomes the old grains plus exactly the incoming on-board grains, in order; old grains are untouched; the grid is not touched |
| Boards.Board.TriggerShake | src/Board.cpp:61-69 | the shake becomes the clamp rule applied to the old shake |
| Boards.Board.CheckCollision | src/Board.cpp:88-97 | true iff some test grain is outside a side wall, below the floor, or on an occupied in-bounds slot |
| Boards.Board.RebuildGrid | src/Board.cpp:99-112 | the grid becomes the rebuild of the collection, `grid_dirty` becomes false, and every taken slot names a live grain |
| Boards.Board.AreAllParticlesSettled | src/Board.cpp:114-121 | true iff every grain of the collection is settled |
| Boards.Board.WakeSettled | src/Board.cpp:138-146 | the grains become the wake-up pass of the old grains over the current grid |
| Boards.Board.CollectUnsettled | src/Board.cpp:149-155 | returns the unsettled ids in collection order |
| Boards.Board.CollectBatch | src/Board.cpp:149-162 | returns the capped, row-sorted batch |
| Boards.Board.FallRows | src/Board.cpp:184-191 | the fall loop returns the fall target in the grain's column |
| Boards.Board.NextState | src/Board.cpp:180-231 | the grain's fall / diagonal / settle outcome as `Gravity.Moved` |
| Boards.Board.StepParticle | src/Board.cpp:169-239 | one grain's step on array and pool equals `Gravity.Advance` |
| Boards.Board.StepBatch | src/Board.cpp:169-240 | the batch loop equals `Gravity.RunBatch` |
| Boards.Board.MoveBatch | src/Board.cpp:149-240 | collect, cap, sort, flip the direction once, and run the batch |
| Boards.Board.WakeAndMove | src/Board.cpp:137-240 | the work after the early exit: the direction flips once and the state becomes the gravity frame |
| Boards.Board.Refresh | src/Board.cpp:125 | a stale grid is rebuilt; a fresh one is kept |
| Boards.Board.ApplyGravity | src/Board.cpp:123-241 | Valid and a fresh grid afterwards; grid and grains become the gravity frame of the (rebuilt) grid; `dir_index` flips iff some grain was unsettled |
| Boards.FlipAlternates | src/Board.cpp:165 | `(d + 1) % 2` flips 0 and 1 |
| Boards.FrameKeepsBookkept | src/Board.cpp:123-241 | a gravity frame keeps the bookkeeping invariant |
| Boards.RegridKeepsBookkept | src/Board.cpp:125 | replacing the grid by one whose slots name live grains keeps the bookkeeping invariant |
| Boards.Board.FindBridge | src/Board.cpp:291-305 | returns the first row whose left-edge grain's component reaches the right edge, with that component, or -1 iff no row bridges |
| Boards.Board.StartZoom | src/Board.cpp:309-320 | zooming at timer 0, marked = group, scale keys = group with value 1.0, flash = the start grain's colour |
| Boards.Board.CheckHorizontalConnections | src/Board.cpp:284-326 | returns 0 and changes nothing unless inactive; if inactive, returns 0 iff no row bridges; otherwise starts the zoom on the component of the first bridging row and returns its size |
| Boards.Board.UpdatePreExplosionAnimation | src/Board.cpp:328-425 | state and timer follow `NextPhase`; inactive changes nothing; zoom frames rescale and shake; detonation emits sparks and shakes; removal erases the marked grains, jitters the survivors, clears marked and scales, and rebuilds; every other frame changes only the timer |
| Boards.Board.ZoomFrame | src/Board.cpp:334-378 | a zooming call either zooms or detonates, as the timer says |
| Boards.Board.ExplodeFrame | src/Board.cpp:380-424 | an exploding call either waits or removes, as the timer says |
| Boards.Board.Wait | src/Board.cpp:331 | the timer advances by one and Valid is kept |
| Boards.Board.Zoom | src/Board.cpp:338-352 | the timer advances; every marked grain's scale becomes the given value; the shake is raised by the zoom shake on every third frame |
| Boards.Board.Detonate | src/Board.cpp:353-377 | exploding at timer 0; the appended sparks are, for some order of visiting the group, counts[i] copies of the spark of the i-th visited member for every i that is a multiple of the sample step; shake raised by the detonation intensity |
| Boards.Board.Explode | src/Board.cpp:354-360 | exploding at timer 0; the sparks extended by the emitted ones; shake raised by the detonation intensity |
| Boards.EmitSparks | src/Board.cpp:362-376 | for some order visiting each group member once, the output is `Explosion.Emitted` of that order: the i-th visited member emits counts[i] copies of its own spark when i is a multiple of `step`; hence the total and that every spark comes from a group member |
| Boards.EmitStep | src/Board.cpp:367-374 | one visited member extends the emitted sparks by its own copies |
| Boards.PhaseKeepsBookkept | src/Board.cpp:331-356 | a timer or state change within the explosion keeps the bookkeeping invariant |
| Boards.Board.Remove | src/Board.cpp:381-423 | inactive, timer incremented, marked and scales empty, grid fresh; collection, grains and grid as `Explosion.Removed` states |
| Boards.Board.RemoveAndRebuild | src/Board.cpp:383-422 | erase, jitter and rebuild, keeping the bookkeeping invariant |
| Boards.Board.RemoveAndJitter | src/Board.cpp:383-415 | the collection loses the marked ids, the pool loses the marked grains, and the survivors are jittered against the stale grid |
| Boards.Board.RemoveMarked | src/Board.cpp:383-389 | the collection loses exactly the marked ids and the pool exactly the marked grains |
| Boards.EraseAll | src/Board.cpp:383-389 | the erase loop over the marked set yields the collection without the marked ids and the pool without the marked grains |
| Boards.EraseStep | src/Board.cpp:384-388 | one marked id: erasing its found position, or skipping it when absent, advances the loop invariant |
| Boards.Board.JitterSurvivors | src/Board.cpp:395-415 | the pool becomes the jittered pool |
| Boards.JitterAll | src/Board.cpp:395-415 | the jitter loop on the stale grid array yields the jittered pool |
| Boards.RemovalKeepsBookkept | src/Board.cpp:383-422 | after erasing the marked ids and rebuilding, the bookkeeping invariant holds in the inactive state |
| Boards.RemovedParts | src/Board.cpp:383-389 | erasing keeps the ids distinct, matching the pool keys, every survivor unchanged and on the board |
| Boards.Board.ResetExplosion | src/Board.cpp:418-420 | marked and scales cleared, inactive, timer as incremented |

## Left out

- Rendering and UI are not modelled: `Board::Draw`, `CreateBackground`, `Particle::Draw`, `Tetromino::Draw`, the intro, localization and the whole of src/Game.cpp. The only part of Game.cpp modelled is the two undo sequences, `MoveAndUndo` and `RotateAndUndo`.
- `UpdateShake` (a float decay by 0.92), `GetShakeOffset` (random), the ballistics of `ExplosionParticle` and the colour arithmetic of src/Utils.cpp are not modelled. They are floating point or random and outside the core.
- The zoom scale values computed with `powf`/`sinf` are not modelled. `UpdatePreExplosionAnimation` takes the frame's value as the parameter `zoomScale`.
- The zoom shake `(int)(progress * 10.0f)` is modelled as the exact integer `timer * 10 / 60`. The float rounding is not modelled.
- Random draws are parameters:
  - the spark count per sampled member (`counts`, each in 3..6);
  - the jitter offset and upward kick per survivor (`jitters`, dx in -10..10 and kick in 0..19);
  - the tetromino's shape and colour (constructor arguments).
- The `std::mt19937` generator itself is not modelled.
- Memory ownership (`new`/`delete`) is replaced by ids into a map. There is no reasoning about memory safety.
- The iteration order of `std::set` (address order) over the marked group is fixed as one chosen order, taken with `:|` choice. The erase and spark loops are proved for any order of visiting the marked ids.
- `std::sort` is not stable. The model sorts with a stable insertion sort, `Gravity.SortByRowDesc`, and the Board contracts (`CollectBatch`, `MoveBatch`, `ApplyGravity`) fix that stable order. The source may order grains of equal rows differently. The frame lemmas (`Gravity.RunBatchKeepsConsistent`, `Gravity.RunBatchKeepsSlotsLive`, `Gravity.RunBatchNeverLifts`) hold for a batch in any order, so they hold for the source's order as well.
- The loops of `AddParticles`, the removal and the jitter run in module-level methods that take the fields as values (`Boards.Admit`, `Boards.EraseAll`, `Boards.JitterAll`, `Boards.EmitSparks`). Aliasing between grains is therefore only through ids.
- The trail hooks and the unused fields `fully_surrounded`, `gravity_counter` and `surrounded_check_counter` are not modelled. They have no behaviour in the core.
- Gravity.GravityKeepsConsistent: proved only when the grid is consistent at the start of the frame. The source does not promise this after a jitter, because two survivors can share a slot.
- Boards.Board.UpdatePreExplosionAnimation: in the zoom and detonation cases it states `unchanged` of the view rather than of the array. The array follows from `Valid()`, which ties it to the view.
- Boards.Board.RemoveMarked: requires the pool keys to equal the collection's ids, which `Valid()` guarantees for every caller.
- Explosion.JitteredPool: skips an id with no grain in the pool. Every id in the collection has one under `Valid()`.
- Particle coordinates are `int`. The source's `float` fields only ever hold integers read through `(int)` casts.
