/**
 * Board dimensions (src/Constants.hpp) and the sand grain itself
 * (src/Particle.hpp): position, colour, vertical velocity and the settled flag.
 */
module Particles {

  /// Board size in tetromino blocks and grains per block side.
  const BoardWidth: int := 10
  const BoardHeight: int := 20
  const ParticlesPerBlock: int := 5

  /// The grain grid: 50 columns by 100 rows.
  const Width: int := BoardWidth * ParticlesPerBlock
  const Height: int := BoardHeight * ParticlesPerBlock

  type Byte = x: int | 0 <= x < 256

  /// A raylib colour.
  datatype Color = Color(r: Byte, g: Byte, b: Byte, a: Byte)

  const White: Color := Color(255, 255, 255, 255)

  /// The flood fill compares the red, green and blue components only.
  predicate SameRgb(c: Color, d: Color) {
    c.r == d.r && c.g == d.g && c.b == d.b
  }

  /**
   * One grain. The source stores x and y as floats but only ever stores whole
   * numbers in them and reads them back through `(int)` casts.
   */
  datatype Particle = Particle(x: int, y: int, color: Color, velocityY: int, settled: bool)

  /// The `Particle(x, y, color)` constructor: at rest, not settled.
  function NewParticle(x: int, y: int, color: Color): (p: Particle)
    ensures p.x == x && p.y == y && p.color == color
    ensures p.velocityY == 0 && !p.settled
  {
    Particle(x, y, color, 0, false)
  }

  predicate InBounds(x: int, y: int) {
    0 <= x < Width && 0 <= y < Height
  }

  predicate OnBoard(p: Particle) {
    InBounds(p.x, p.y)
  }
}
