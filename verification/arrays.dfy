/** Three-axis sample arrays, the one numeric container of the model.  An
    array carries its shape, as an n-dimensional array does, and its cells are
    indexed [frequency][time][channel]. */
module Arrays {

  type Grid = seq<seq<seq<real>>>

  /** The extents of the three axes. */
  datatype Shape = Shape(freq: nat, time: nat, chan: nat)

  /** Every axis of `d` has the extent `s` gives it. */
  predicate HasShape(d: Grid, s: Shape) {
    && |d| == s.freq
    && (forall i :: 0 <= i < |d| ==> |d[i]| == s.time)
    && (forall i, j :: 0 <= i < |d| && 0 <= j < |d[i]| ==> |d[i][j]| == s.chan)
  }

  datatype Cells = Cells(shape: Shape, cells: Grid)

  /** A grid together with its shape, the cells filling that shape exactly. */
  type Array3 = a: Cells | HasShape(a.cells, a.shape) witness Cells(Shape(0, 0, 0), [])

  /** `i, j, k` addresses a cell of shape `s`. */
  predicate InShape(s: Shape, i: int, j: int, k: int) {
    0 <= i < s.freq && 0 <= j < s.time && 0 <= k < s.chan
  }

  /** The cell at `i, j, k`. */
  function At(a: Array3, i: int, j: int, k: int): real
    requires InShape(a.shape, i, j, k)
  {
    a.cells[i][j][k]
  }

  /** Applies `f` to every cell, keeping the shape. */
  function MapCells(a: Array3, f: real -> real): (r: Array3)
    ensures r.shape == a.shape
    ensures forall i, j, k :: InShape(a.shape, i, j, k) ==> At(r, i, j, k) == f(At(a, i, j, k))
  {
    var s := a.shape;
    var d := seq(s.freq, i requires 0 <= i < s.freq =>
               seq(s.time, j requires 0 <= j < s.time =>
                 seq(s.chan, k requires 0 <= k < s.chan => f(a.cells[i][j][k]))));
    Cells(s, d)
  }

  /** Combines two arrays of one shape cell by cell with `f`. */
  function ZipCells(a: Array3, b: Array3, f: (real, real) -> real): (r: Array3)
    requires a.shape == b.shape
    ensures r.shape == a.shape
    ensures forall i, j, k :: InShape(a.shape, i, j, k) ==> At(r, i, j, k) == f(At(a, i, j, k), At(b, i, j, k))
  {
    var s := a.shape;
    var d := seq(s.freq, i requires 0 <= i < s.freq =>
               seq(s.time, j requires 0 <= j < s.time =>
                 seq(s.chan, k requires 0 <= k < s.chan => f(a.cells[i][j][k], b.cells[i][j][k]))));
    Cells(s, d)
  }

  /** Two arrays of one shape that agree on every cell are equal. */
  lemma {:induction false} CellwiseEqual(a: Array3, b: Array3)
    requires a.shape == b.shape
    requires forall i, j, k :: InShape(a.shape, i, j, k) ==> At(a, i, j, k) == At(b, i, j, k)
    ensures a == b
  {
    var s := a.shape;
    forall i | 0 <= i < s.freq
      ensures a.cells[i] == b.cells[i]
    {
      forall j | 0 <= j < s.time
        ensures a.cells[i][j] == b.cells[i][j]
      {
        forall k | 0 <= k < s.chan
          ensures a.cells[i][j][k] == b.cells[i][j][k]
        {
          assert At(a, i, j, k) == At(b, i, j, k);
        }
      }
    }
  }
}
