/**
 * The tetromino cell table (src/Shapes.hpp): seven shapes (O, I, T, S, Z, L, J),
 * four rotations each, four cells per rotation in local block coordinates.
 */
module Shapes {

  datatype Cell = Cell(x: int, y: int)

  /// Shape 0: O, the same in every rotation.
  const OShape: seq<seq<Cell>> := [
    [Cell(0, 0), Cell(1, 0), Cell(0, 1), Cell(1, 1)],
    [Cell(0, 0), Cell(1, 0), Cell(0, 1), Cell(1, 1)],
    [Cell(0, 0), Cell(1, 0), Cell(0, 1), Cell(1, 1)],
    [Cell(0, 0), Cell(1, 0), Cell(0, 1), Cell(1, 1)]
  ]

  /// Shape 1: I, horizontal and vertical.
  const IShape: seq<seq<Cell>> := [
    [Cell(0, 1), Cell(1, 1), Cell(2, 1), Cell(3, 1)],
    [Cell(2, 0), Cell(2, 1), Cell(2, 2), Cell(2, 3)],
    [Cell(0, 2), Cell(1, 2), Cell(2, 2), Cell(3, 2)],
    [Cell(1, 0), Cell(1, 1), Cell(1, 2), Cell(1, 3)]
  ]

  /// Shape 2: T.
  const TShape: seq<seq<Cell>> := [
    [Cell(1, 0), Cell(0, 1), Cell(1, 1), Cell(2, 1)],
    [Cell(1, 0), Cell(1, 1), Cell(2, 1), Cell(1, 2)],
    [Cell(0, 1), Cell(1, 1), Cell(2, 1), Cell(1, 2)],
    [Cell(1, 0), Cell(0, 1), Cell(1, 1), Cell(1, 2)]
  ]

  /// Shape 3: S.
  const SShape: seq<seq<Cell>> := [
    [Cell(1, 0), Cell(2, 0), Cell(0, 1), Cell(1, 1)],
    [Cell(1, 0), Cell(1, 1), Cell(2, 1), Cell(2, 2)],
    [Cell(1, 1), Cell(2, 1), Cell(0, 2), Cell(1, 2)],
    [Cell(0, 0), Cell(0, 1), Cell(1, 1), Cell(1, 2)]
  ]

  /// Shape 4: Z.
  const ZShape: seq<seq<Cell>> := [
    [Cell(0, 0), Cell(1, 0), Cell(1, 1), Cell(2, 1)],
    [Cell(2, 0), Cell(1, 1), Cell(2, 1), Cell(1, 2)],
    [Cell(0, 1), Cell(1, 1), Cell(1, 2), Cell(2, 2)],
    [Cell(1, 0), Cell(0, 1), Cell(1, 1), Cell(0, 2)]
  ]

  /// Shape 5: L.
  const LShape: seq<seq<Cell>> := [
    [Cell(2, 0), Cell(0, 1), Cell(1, 1), Cell(2, 1)],
    [Cell(1, 0), Cell(1, 1), Cell(1, 2), Cell(2, 2)],
    [Cell(0, 1), Cell(1, 1), Cell(2, 1), Cell(0, 2)],
    [Cell(0, 0), Cell(1, 0), Cell(1, 1), Cell(1, 2)]
  ]

  /// Shape 6: J.
  const JShape: seq<seq<Cell>> := [
    [Cell(0, 0), Cell(0, 1), Cell(1, 1), Cell(2, 1)],
    [Cell(1, 0), Cell(2, 0), Cell(1, 1), Cell(1, 2)],
    [Cell(0, 1), Cell(1, 1), Cell(2, 1), Cell(2, 2)],
    [Cell(1, 0), Cell(1, 1), Cell(0, 2), Cell(1, 2)]
  ]

  /// Row `shapeType` of the static table SHAPES[7][4][4]: the four rotations of one shape.
  function ShapeRow(shapeType: int): seq<seq<Cell>>
    requires 0 <= shapeType < 7
  {
    if shapeType == 0 then OShape
    else if shapeType == 1 then IShape
    else if shapeType == 2 then TShape
    else if shapeType == 3 then SShape
    else if shapeType == 4 then ZShape
    else if shapeType == 5 then LShape
    else JShape
  }

  predicate ValidShape(shapeType: int, rotation: int) {
    0 <= shapeType < 7 && 0 <= rotation < 4
  }

  predicate InLocalBox(c: Cell) {
    0 <= c.x <= 3 && 0 <= c.y <= 3
  }

  /// Two cells share an edge.
  predicate Adjacent(a: Cell, b: Cell) {
    (a.x == b.x && (a.y - b.y == 1 || b.y - a.y == 1)) ||
    (a.y == b.y && (a.x - b.x == 1 || b.x - a.x == 1))
  }

  predicate PairwiseDistinct(cs: seq<Cell>) {
    forall i, j :: 0 <= i < j < |cs| ==> cs[i] != cs[j]
  }

  /**
   * The graph on four vertices 0..3 with edges `eij` is connected: grow the set
   * reached from vertex 0 for three rounds (a connected graph on four vertices
   * has diameter at most three) and look whether it holds every vertex.
   */
  predicate LinkedFromFirst(e01: bool, e02: bool, e03: bool, e12: bool, e13: bool, e23: bool) {
    // reached after one round
    var r1, r2, r3 := e01, e02, e03;
    // after two rounds
    var s1 := r1 || (r2 && e12) || (r3 && e13);
    var s2 := r2 || (r1 && e12) || (r3 && e23);
    var s3 := r3 || (r1 && e13) || (r2 && e23);
    // after three rounds
    var t1 := s1 || (s2 && e12) || (s3 && e13);
    var t2 := s2 || (s1 && e12) || (s3 && e23);
    var t3 := s3 || (s1 && e13) || (s2 && e23);
    t1 && t2 && t3
  }

  /// The four cells form one edge-connected piece.
  predicate Connected(cs: seq<Cell>)
    requires |cs| == 4
  {
    LinkedFromFirst(Adjacent(cs[0], cs[1]), Adjacent(cs[0], cs[2]), Adjacent(cs[0], cs[3]),
                    Adjacent(cs[1], cs[2]), Adjacent(cs[1], cs[3]), Adjacent(cs[2], cs[3]))
  }

  /**
   * What `GetShape` promises of every table entry: four distinct cells in the
   * 4x4 box forming one piece (spelled out cell by cell so that checking a
   * table entry needs no quantifier).
   */
  predicate Tetromino(cs: seq<Cell>) {
    && |cs| == 4
    && InLocalBox(cs[0]) && InLocalBox(cs[1]) && InLocalBox(cs[2]) && InLocalBox(cs[3])
    && cs[0] != cs[1] && cs[0] != cs[2] && cs[0] != cs[3]
    && cs[1] != cs[2] && cs[1] != cs[3] && cs[2] != cs[3]
    && Connected(cs)
  }

  lemma OShapeIsTetromino()
    ensures RowOfTetrominoes(OShape)
  {
  }

  lemma IShapeIsTetromino()
    ensures RowOfTetrominoes(IShape)
  {
  }

  lemma TShapeIsTetromino()
    ensures RowOfTetrominoes(TShape)
  {
  }

  lemma SShapeIsTetromino()
    ensures RowOfTetrominoes(SShape)
  {
  }

  lemma ZShapeIsTetromino()
    ensures RowOfTetrominoes(ZShape)
  {
  }

  lemma LShapeIsTetromino()
    ensures RowOfTetrominoes(LShape)
  {
  }

  lemma JShapeIsTetromino()
    ensures RowOfTetrominoes(JShape)
  {
  }

  /// Every entry of one table row is a tetromino.
  predicate RowOfTetrominoes(rows: seq<seq<Cell>>) {
    |rows| == 4 && Tetromino(rows[0]) && Tetromino(rows[1]) && Tetromino(rows[2]) && Tetromino(rows[3])
  }

  /// Every row of the table holds four tetrominoes (checked shape by shape).
  lemma TableRowIsTetrominoes(shapeType: int)
    requires 0 <= shapeType < 7
    ensures RowOfTetrominoes(ShapeRow(shapeType))
  {
    if shapeType == 0 {
      OShapeIsTetromino();
    } else if shapeType == 1 {
      IShapeIsTetromino();
    } else if shapeType == 2 {
      TShapeIsTetromino();
    } else if shapeType == 3 {
      SShapeIsTetromino();
    } else if shapeType == 4 {
      ZShapeIsTetromino();
    } else if shapeType == 5 {
      LShapeIsTetromino();
    } else {
      JShapeIsTetromino();
    }
  }

  lemma RowEntryIsTetromino(rows: seq<seq<Cell>>, rotation: int)
    requires RowOfTetrominoes(rows) && 0 <= rotation < 4
    ensures Tetromino(rows[rotation])
  {
    if rotation == 0 {
    } else if rotation == 1 {
    } else if rotation == 2 {
    } else {
    }
  }

  /// The cell-by-cell facts of `Tetromino`, stated for every index.
  lemma TetrominoIndexFacts(cs: seq<Cell>)
    requires Tetromino(cs)
    ensures forall i :: 0 <= i < 4 ==> InLocalBox(cs[i])
    ensures PairwiseDistinct(cs)
  {
    forall i | 0 <= i < 4 ensures InLocalBox(cs[i]) {
      if i == 0 {
      } else if i == 1 {
      } else if i == 2 {
      } else {
      }
    }
    forall i, j | 0 <= i < j < |cs| ensures cs[i] != cs[j] {
      if i == 0 {
      } else if i == 1 {
      } else {
      }
    }
  }

  /**
   * The cells of shape `shapeType` in rotation `rotation`. The source reads the
   * static table unchecked, so callers must keep both indices in range.
   */
  function GetShape(shapeType: int, rotation: int): (cells: seq<Cell>)
    requires ValidShape(shapeType, rotation)
    ensures |cells| == 4
    ensures forall i :: 0 <= i < 4 ==> InLocalBox(cells[i])
    ensures PairwiseDistinct(cells)
    ensures Connected(cells)
  {
    TableRowIsTetrominoes(shapeType);
    var cells := ShapeRow(shapeType)[rotation];
    RowEntryIsTetromino(ShapeRow(shapeType), rotation);
    TetrominoIndexFacts(cells);
    cells
  }

  /// The O shape looks the same in every rotation.
  lemma OShapeRotationInvariant(rotation: int)
    requires 0 <= rotation < 4
    ensures GetShape(0, rotation) == GetShape(0, 0)
  {
    if rotation == 0 {
    } else if rotation == 1 {
    } else if rotation == 2 {
    } else {
    }
  }

  /// The I shape lies in one row in rotations 0 and 2 and in one column in 1 and 3.
  lemma IShapeIsStraight(rotation: int)
    requires 0 <= rotation < 4
    ensures var cs := GetShape(1, rotation);
      if rotation % 2 == 0 then cs[0].y == cs[1].y == cs[2].y == cs[3].y
      else cs[0].x == cs[1].x == cs[2].x == cs[3].x
  {
    var cs := GetShape(1, rotation);
    assert cs == IShape[rotation];
    if rotation == 0 {
      assert rotation % 2 == 0;
    } else if rotation == 1 {
      assert rotation % 2 == 1;
    } else if rotation == 2 {
      assert rotation % 2 == 0;
    } else {
      assert rotation % 2 == 1;
    }
  }
}
