/** The thermal frame read from the AMG8833 sensor and its per-column aggregation. */
module Thermal {

  /** The sensor delivers an 8 by 8 grid, indexed pixels[row][column]. */
  const Rows: nat := 8
  const Cols: nat := 8

  /** The running maximum of each column starts from this value before any row is seen. */
  const Floor: real := -1.0

  type Frame = seq<seq<real>>

  predicate IsFrame(pixels: Frame) {
    |pixels| == Rows && forall r :: 0 <= r < Rows ==> |pixels[r]| == Cols
  }

  /** Python's two-argument max: the second argument wins only when it is strictly larger. */
  function Max(a: real, b: real): real {
    if b > a then b else a
  }

  /** The running maximum of column c after the rows 0 .. n-1 have been folded in. */
  function RunningMax(pixels: Frame, c: nat, n: nat): real
    requires IsFrame(pixels) && c < Cols && n <= Rows
    decreases n
  {
    if n == 0 then Floor else Max(RunningMax(pixels, c, n - 1), pixels[n - 1][c])
  }

  /** The eight column maxima of a frame, as the aggregation loop builds them. */
  function ColumnMaxes(pixels: Frame): seq<real>
    requires IsFrame(pixels)
  {
    seq(Cols, c requires 0 <= c < Cols => RunningMax(pixels, c, Rows))
  }

  /** The running maximum is at least -1, dominates every row folded in so far,
      and is either the starting -1 or one of those pixels. */
  lemma {:induction false} RunningMaxBounds(pixels: Frame, c: nat, n: nat)
    requires IsFrame(pixels) && c < Cols && n <= Rows
    ensures RunningMax(pixels, c, n) >= Floor
    ensures forall r :: 0 <= r < n ==> pixels[r][c] <= RunningMax(pixels, c, n)
    ensures RunningMax(pixels, c, n) == Floor
         || exists r :: 0 <= r < n && pixels[r][c] == RunningMax(pixels, c, n)
  {
    if n > 0 {
      RunningMaxBounds(pixels, c, n - 1);
    }
  }

  /** Entry c of the column maxima is max(-1, column c): at least -1, at least every
      pixel of column c, and equal to -1 or to some pixel of column c. */
  lemma ColumnMaxesBounds(pixels: Frame)
    requires IsFrame(pixels)
    ensures |ColumnMaxes(pixels)| == Cols
    ensures forall c :: 0 <= c < Cols ==> ColumnMaxes(pixels)[c] >= Floor
    ensures forall r, c :: 0 <= r < Rows && 0 <= c < Cols ==> pixels[r][c] <= ColumnMaxes(pixels)[c]
    ensures forall c :: 0 <= c < Cols ==>
              ColumnMaxes(pixels)[c] == Floor
              || exists r :: 0 <= r < Rows && pixels[r][c] == ColumnMaxes(pixels)[c]
  {
  }

  /** The nested aggregation loop: for each column, fold max over the rows starting from -1,
      and append the result. */
  method ColumnMaxima(pixels: Frame) returns (maxes: seq<real>)
    requires IsFrame(pixels)
    ensures maxes == ColumnMaxes(pixels)
  {
    maxes := [];
    for col := 0 to Cols
      invariant |maxes| == col
      invariant forall c :: 0 <= c < col ==> maxes[c] == RunningMax(pixels, c, Rows)
    {
      var cur := Floor;
      for row := 0 to Rows
        invariant cur == RunningMax(pixels, col, row)
      {
        cur := Max(cur, pixels[row][col]);
      }
      maxes := maxes + [cur];
    }
  }
}
