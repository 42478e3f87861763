/**
 * The falling piece (src/Tetromino.cpp): a shape from the table, a rotation,
 * a colour and a position in blocks, drawn as 5x5 grains per block.
 */
module Tetrominoes {
  import opened Particles
  import opened Shapes

  const GrainsPerBlock: int := ParticlesPerBlock * ParticlesPerBlock
  const GrainsPerPiece: int := 4 * GrainsPerBlock

  /**
   * Grain `i` of a piece, in the order the generating loops emit them: block
   * `i / 25` of the shape, then column offset `(i % 25) / 5`, then row offset `i % 5`.
   */
  function PieceGrain(cells: seq<Cell>, color: Color, boardX: int, boardY: int, i: int): Particle
    requires |cells| == 4 && 0 <= i < GrainsPerPiece
  {
    var block := cells[i / GrainsPerBlock];
    var px := (i % GrainsPerBlock) / ParticlesPerBlock;
    var py := i % ParticlesPerBlock;
    NewParticle((boardX + block.x) * ParticlesPerBlock + px, (boardY + block.y) * ParticlesPerBlock + py, color)
  }

  /// The grains of a piece of the given shape, rotation, colour and block position.
  function PieceParticles(shapeType: int, rotation: int, color: Color, boardX: int, boardY: int): seq<Particle>
    requires ValidShape(shapeType, rotation)
  {
    var cells := GetShape(shapeType, rotation);
    seq(GrainsPerPiece, i requires 0 <= i < GrainsPerPiece => PieceGrain(cells, color, boardX, boardY, i))
  }

  /// Every grain moved by (dx, dy), all other fields kept.
  function Shifted(ps: seq<Particle>, dx: int, dy: int): (r: seq<Particle>)
    ensures |r| == |ps|
    ensures forall i :: 0 <= i < |ps| ==> r[i] == ps[i].(x := ps[i].x + dx, y := ps[i].y + dy)
  {
    seq(|ps|, i requires 0 <= i < |ps| => ps[i].(x := ps[i].x + dx, y := ps[i].y + dy))
  }

  /// Index `b * 25 + px * 5 + py` splits back into its block and offsets.
  lemma GrainIndex(b: int, px: int, py: int)
    requires 0 <= b < 4 && 0 <= px < ParticlesPerBlock && 0 <= py < ParticlesPerBlock
    ensures var i := 25 * b + 5 * px + py;
      0 <= i < GrainsPerPiece && i / GrainsPerBlock == b &&
      (i % GrainsPerBlock) / ParticlesPerBlock == px && i % ParticlesPerBlock == py
  {
  }

  /**
   * A piece has exactly 100 grains, all of the piece's colour, at rest and
   * unsettled; the grain for block `b` and offsets (px, py) sits at
   * ((boardX + bx) * 5 + px, (boardY + by) * 5 + py).
   */
  lemma PieceLayout(shapeType: int, rotation: int, color: Color, boardX: int, boardY: int,
                    b: int, px: int, py: int)
    requires ValidShape(shapeType, rotation)
    requires 0 <= b < 4 && 0 <= px < ParticlesPerBlock && 0 <= py < ParticlesPerBlock
    ensures var ps := PieceParticles(shapeType, rotation, color, boardX, boardY);
      var cell := GetShape(shapeType, rotation)[b];
      |ps| == 100 &&
      ps[25 * b + 5 * px + py] ==
        NewParticle((boardX + cell.x) * ParticlesPerBlock + px, (boardY + cell.y) * ParticlesPerBlock + py, color)
  {
    var i := 25 * b + 5 * px + py;
    GrainIndex(b, px, py);
    var ps := PieceParticles(shapeType, rotation, color, boardX, boardY);
    assert ps[i] == PieceGrain(GetShape(shapeType, rotation), color, boardX, boardY, i);
  }

  lemma PieceColour(shapeType: int, rotation: int, color: Color, boardX: int, boardY: int)
    requires ValidShape(shapeType, rotation)
    ensures var ps := PieceParticles(shapeType, rotation, color, boardX, boardY);
      |ps| == 100 && forall i :: 0 <= i < |ps| ==> ps[i].color == color && ps[i].velocityY == 0 && !ps[i].settled
  {
  }

  /// x == 5 * a + p with p in [0, 5) determines a and p.
  lemma BlockOffsetUnique(a: int, p: int, a': int, p': int)
    requires 0 <= p < ParticlesPerBlock && 0 <= p' < ParticlesPerBlock
    requires a * ParticlesPerBlock + p == a' * ParticlesPerBlock + p'
    ensures a == a' && p == p'
  {
  }

  /// A grain index splits into its block and its two offsets.
  lemma GrainIndexSplit(i: int)
    requires 0 <= i < GrainsPerPiece
    ensures 0 <= i / GrainsPerBlock < 4
    ensures 0 <= (i % GrainsPerBlock) / ParticlesPerBlock < ParticlesPerBlock
    ensures 0 <= i % ParticlesPerBlock < ParticlesPerBlock
    ensures i == 25 * (i / GrainsPerBlock) + 5 * ((i % GrainsPerBlock) / ParticlesPerBlock) + i % ParticlesPerBlock
  {
  }

  /// Two grains of one piece at the same position are the same grain.
  lemma GrainPositionDetermines(cells: seq<Cell>, color: Color, boardX: int, boardY: int, i: int, j: int)
    requires |cells| == 4 && PairwiseDistinct(cells)
    requires 0 <= i < GrainsPerPiece && 0 <= j < GrainsPerPiece
    ensures var p, q := PieceGrain(cells, color, boardX, boardY, i), PieceGrain(cells, color, boardX, boardY, j);
      p.x == q.x && p.y == q.y ==> i == j
  {
    var p, q := PieceGrain(cells, color, boardX, boardY, i), PieceGrain(cells, color, boardX, boardY, j);
    GrainIndexSplit(i);
    GrainIndexSplit(j);
    var bi, bj := i / GrainsPerBlock, j / GrainsPerBlock;
    if p.x == q.x && p.y == q.y {
      BlockOffsetUnique(boardX + cells[bi].x, (i % GrainsPerBlock) / ParticlesPerBlock,
                        boardX + cells[bj].x, (j % GrainsPerBlock) / ParticlesPerBlock);
      BlockOffsetUnique(boardY + cells[bi].y, i % ParticlesPerBlock,
                        boardY + cells[bj].y, j % ParticlesPerBlock);
      assert cells[bi] == cells[bj];
      assert bi == bj;
    }
  }

  /// The 100 grains of a piece sit at pairwise distinct positions, because its four blocks are distinct.
  lemma PiecePositionsDistinct(shapeType: int, rotation: int, color: Color, boardX: int, boardY: int)
    requires ValidShape(shapeType, rotation)
    ensures var ps := PieceParticles(shapeType, rotation, color, boardX, boardY);
      forall i, j :: 0 <= i < j < |ps| ==> ps[i].x != ps[j].x || ps[i].y != ps[j].y
  {
    var ps := PieceParticles(shapeType, rotation, color, boardX, boardY);
    var cells := GetShape(shapeType, rotation);
    forall i, j | 0 <= i < j < |ps| ensures ps[i].x != ps[j].x || ps[i].y != ps[j].y {
      GrainPositionDetermines(cells, color, boardX, boardY, i, j);
    }
  }

  /// Moving a piece by (dx, dy) blocks, to (newX, newY), moves its grains by (5 dx, 5 dy).
  lemma ShiftedPiece(shapeType: int, rotation: int, color: Color, boardX: int, boardY: int,
                     dx: int, dy: int, newX: int, newY: int)
    requires ValidShape(shapeType, rotation)
    requires newX == boardX + dx && newY == boardY + dy
    ensures Shifted(PieceParticles(shapeType, rotation, color, boardX, boardY), dx * ParticlesPerBlock, dy * ParticlesPerBlock)
         == PieceParticles(shapeType, rotation, color, newX, newY)
  {
    var ps := PieceParticles(shapeType, rotation, color, boardX, boardY);
    var qs := PieceParticles(shapeType, rotation, color, newX, newY);
    var moved := Shifted(ps, dx * ParticlesPerBlock, dy * ParticlesPerBlock);
    var cells := GetShape(shapeType, rotation);
    forall i | 0 <= i < GrainsPerPiece ensures moved[i] == qs[i] {
      assert ps[i] == PieceGrain(cells, color, boardX, boardY, i);
      assert qs[i] == PieceGrain(cells, color, newX, newY, i);
    }
  }

  /// Shifting back undoes a shift exactly (what the game's collision undo relies on).
  lemma ShiftUndo(ps: seq<Particle>, dx: int, dy: int)
    ensures Shifted(Shifted(ps, dx, dy), -dx, -dy) == ps
  {
    var back := Shifted(Shifted(ps, dx, dy), -dx, -dy);
    forall i | 0 <= i < |ps| ensures back[i] == ps[i] {
    }
  }

  /// Appending the next element of `target` to a prefix of it gives the next prefix.
  lemma PrefixStep(prefix: seq<Particle>, target: seq<Particle>, g: Particle)
    requires |prefix| < |target| && prefix == target[..|prefix|] && target[|prefix|] == g
    ensures prefix + [g] == target[..|prefix| + 1]
  {
  }

  /// A sequence that agrees with `ps` moved by (dx, dy) at every index is `Shifted(ps, dx, dy)`.
  lemma PointwiseShifted(ps: seq<Particle>, qs: seq<Particle>, dx: int, dy: int)
    requires |qs| == |ps|
    requires forall k :: 0 <= k < |qs| ==> qs[k] == ps[k].(x := ps[k].x + dx, y := ps[k].y + dy)
    ensures qs == Shifted(ps, dx, dy)
  {
  }

  /// The rotation after a quarter turn; the source's `%` agrees with Dafny's on these non-negative operands.
  function NextRotation(r: int): (n: int)
    requires 0 <= r
    ensures 0 <= n < 4
    ensures n == if r % 4 == 3 then 0 else r % 4 + 1
  {
    (r + 1) % 4
  }

  /// Four quarter turns bring every rotation in [0, 3] back to itself.
  lemma FourRotationsReturn(r: int)
    requires 0 <= r < 4
    ensures NextRotation(NextRotation(NextRotation(NextRotation(r)))) == r
  {
  }

  class Tetromino {
    var shapeType: int
    var rotation: int
    var color: Color
    var boardX: int
    var boardY: int
    var particles: seq<Particle>
    var isActive: bool

    /// The grain list is the one the shape, rotation, colour and position generate.
    ghost predicate Valid()
      reads this
    {
      ValidShape(shapeType, rotation) &&
      particles == PieceParticles(shapeType, rotation, color, boardX, boardY)
    }

    /// The constructor, with the shape and colour draws passed in.
    constructor (boardX: int, boardY: int, shapeType: int, color: Color)
      requires 0 <= shapeType < 7
      ensures Valid()
      ensures this.boardX == boardX && this.boardY == boardY
      ensures this.shapeType == shapeType && this.color == color
      ensures rotation == 0 && isActive
    {
      this.boardX := boardX;
      this.boardY := boardY;
      this.shapeType := shapeType;
      this.color := color;
      rotation := 0;
      isActive := true;
      particles := [];
      new;
      GenerateParticles();
    }

    /// Clears the grain list and refills it block by block, column by column, row by row.
    method GenerateParticles()
      requires ValidShape(shapeType, rotation)
      modifies this`particles
      ensures particles == PieceParticles(shapeType, rotation, color, boardX, boardY)
    {
      ghost var target := PieceParticles(shapeType, rotation, color, boardX, boardY);
      particles := [];
      var shape := GetShape(shapeType, rotation);
      ghost var k := 0;
      for b := 0 to 4
        invariant k == 25 * b == |particles|
        invariant particles == target[..k]
      {
        var blockX := shape[b].x;
        var blockY := shape[b].y;
        for px := 0 to ParticlesPerBlock
          invariant k == 25 * b + 5 * px == |particles|
          invariant particles == target[..k]
        {
          for py := 0 to ParticlesPerBlock
            invariant k == 25 * b + 5 * px + py == |particles|
            invariant particles == target[..k]
          {
            PieceLayout(shapeType, rotation, color, boardX, boardY, b, px, py);
            var grain := NewParticle((boardX + blockX) * ParticlesPerBlock + px,
                                     (boardY + blockY) * ParticlesPerBlock + py, color);
            PrefixStep(particles, target, grain);
            particles := particles + [grain];
            k := k + 1;
          }
        }
      }
      assert target[..k] == target;
    }

    /// Moves the piece by (dx, dy) blocks and every grain by (5 dx, 5 dy).
    method Move(dx: int, dy: int)
      modifies this`boardX, this`boardY, this`particles
      ensures boardX == old(boardX) + dx && boardY == old(boardY) + dy
      ensures particles == Shifted(old(particles), dx * ParticlesPerBlock, dy * ParticlesPerBlock)
      ensures old(Valid()) ==> Valid()
    {
      ghost var before := particles;
      boardX := boardX + dx;
      boardY := boardY + dy;
      var i := 0;
      while i < |particles|
        invariant 0 <= i <= |particles| == |before|
        invariant boardX == old(boardX) + dx && boardY == old(boardY) + dy
        invariant forall k :: 0 <= k < i ==>
          particles[k] == before[k].(x := before[k].x + dx * ParticlesPerBlock, y := before[k].y + dy * ParticlesPerBlock)
        invariant forall k :: i <= k < |particles| ==> particles[k] == before[k]
      {
        var p := particles[i];
        particles := particles[i := p.(x := p.x + dx * ParticlesPerBlock, y := p.y + dy * ParticlesPerBlock)];
        i := i + 1;
      }
      PointwiseShifted(before, particles, dx * ParticlesPerBlock, dy * ParticlesPerBlock);
      if old(Valid()) {
        ShiftedPiece(shapeType, rotation, color, old(boardX), old(boardY), dx, dy, boardX, boardY);
      }
    }

    /// Turns the piece a quarter turn and regenerates its grains.
    method Rotate()
      requires Valid()
      modifies this`rotation, this`particles
      ensures rotation == NextRotation(old(rotation))
      ensures Valid()
    {
      rotation := (rotation + 1) % 4;
      GenerateParticles();
    }

    /// The game's collision undo for a move: moving back restores the position and every grain.
    method MoveAndUndo(dx: int, dy: int)
      modifies this`boardX, this`boardY, this`particles
      ensures unchanged(this)
    {
      Move(dx, dy);
      Move(-dx, -dy);
      ShiftUndo(old(particles), dx * ParticlesPerBlock, dy * ParticlesPerBlock);
      assert -dx * ParticlesPerBlock == -(dx * ParticlesPerBlock) && -dy * ParticlesPerBlock == -(dy * ParticlesPerBlock);
    }

    /// The game's collision undo for a rotation: restoring the old rotation and regenerating gives back the old grains.
    method RotateAndUndo()
      requires Valid()
      modifies this`rotation, this`particles
      ensures unchanged(this)
    {
      var oldRotation := rotation;
      Rotate();
      rotation := oldRotation;
      GenerateParticles();
    }
  }
}
