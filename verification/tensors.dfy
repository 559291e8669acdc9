/**
 * Tensors as sequences of reals, and the abstract squashing maps. The logistic sigmoid
 * and the softmax are not computed: the model takes them as parameters and assumes only
 * the ranges they have over the reals.
 */
module Tensors {

  /** One sample (or a loss value per sample element), flattened. */
  type Tensor = seq<real>

  /** A batch x points table. */
  type Grid = seq<seq<real>>

  /** Every row has `cols` entries and there are `rows` of them. */
  predicate IsGrid(g: Grid, rows: int, cols: int) {
    |g| == rows && forall i :: 0 <= i < |g| ==> |g[i]| == cols
  }

  /** 1 for a set flag, 0 otherwise: how many optional parts or column blocks a flag adds. */
  function Indicator(b: bool): nat {
    if b then 1 else 0
  }

  /** A squashing map such as the logistic sigmoid has all its values in (0, 1). */
  ghost predicate IsSquashing(f: real -> real) {
    forall x :: 0.0 < f(x) < 1.0
  }

  /** A row-wise normalisation such as softmax keeps the length and yields values in (0, 1]. */
  ghost predicate IsNormalizing(f: seq<real> -> seq<real>) {
    forall v :: |f(v)| == |v| && forall i :: 0 <= i < |v| ==> 0.0 < f(v)[i] <= 1.0
  }

  /** `row.repeat(batch, 1)`: the row stacked `batch` times. */
  function Repeat(row: seq<real>, batch: nat): (g: Grid)
    ensures IsGrid(g, batch, |row|)
  {
    seq(batch, _ => row)
  }

  /** An elementwise map over a row. */
  function MapRow(f: real -> real, row: seq<real>): (r: seq<real>)
    ensures |r| == |row|
  {
    seq(|row|, j requires 0 <= j < |row| => f(row[j]))
  }

  /** An elementwise map over a grid. */
  function MapEntries(f: real -> real, g: Grid): (h: Grid)
    ensures |h| == |g|
    ensures forall i :: 0 <= i < |g| ==> |h[i]| == |g[i]|
  {
    seq(|g|, i requires 0 <= i < |g| => MapRow(f, g[i]))
  }

  /** A map applied to each row of a grid (softmax over the last dimension). */
  function MapRows(f: seq<real> -> seq<real>, g: Grid): (h: Grid)
    ensures |h| == |g|
  {
    seq(|g|, i requires 0 <= i < |g| => f(g[i]))
  }
}
