/** Constants and small value types shared by every part of the sculpture generator. */
module Common {

  /** The model's radius `r` (SculptureGenerator.py line 7). */
  const BaseRadius: real := 60.0

  /** The height of the entire model `h` (line 8). */
  const TotalHeight: real := 60.0

  /** The number of waveform points around the base `p_num` (line 6). */
  const BasePointCount: nat := 50

  /** A 2D point; the source uses `(x, y)` tuples. */
  datatype Point = Point(x: real, y: real)

  datatype Option<+T> = None | Some(value: T)

  /** The unit-circle position `(cos((n+1)*2*pi/p), sin((n+1)*2*pi/p))` of ring point `n` of `p`.
      Trigonometry is not modelled: every caller receives this function as a parameter. */
  type Trig = (int, int) -> Point
}
