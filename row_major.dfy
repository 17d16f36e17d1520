/** Row-major indexing of a two-dimensional grid stored in a flat buffer, shared
    by the chunk grid of the scene and the pixel buffer of the render image. */
module RowMajor {

  lemma MulMonotone(a: int, b: int, g: nat)
    ensures a <= b ==> a * g <= b * g
  {
    if a <= b {
      assert b * g - a * g == (b - a) * g;
    }
  }

  lemma RowMajorBounds(g: nat, row: int, col: int)
    requires 0 <= row < g && 0 <= col < g
    ensures 0 <= row * g + col < g * g
  {
    MulMonotone(0, row, g);
    MulMonotone(row, g - 1, g);
    assert (g - 1) * g == g * g - g;
  }

  lemma RowMajorUnique(g: nat, row1: int, col1: int, row2: int, col2: int)
    requires 0 <= col1 < g && 0 <= col2 < g
    requires row1 * g + col1 == row2 * g + col2
    ensures row1 == row2 && col1 == col2
  {
    MulMonotone(row1 + 1, row2, g);
    MulMonotone(row2 + 1, row1, g);
    assert (row1 + 1) * g == row1 * g + g;
    assert (row2 + 1) * g == row2 * g + g;
  }

  /** Slot `row * g + col` is recovered by `/` and `%`. */
  lemma RowMajorDivMod(g: nat, row: int, col: int)
    requires 0 <= col < g
    ensures (row * g + col) / g == row && (row * g + col) % g == col
  {
    var j := row * g + col;
    assert j == (j / g) * g + j % g;
    RowMajorUnique(g, j / g, j % g, row, col);
  }

  /** Slot `i` of a row-major `g x g` grid is row `i / g`, column `i % g`, both
      in range. */
  lemma SlotRowColumn(g: nat, i: int)
    requires g > 0 && 0 <= i < g * g
    ensures 0 <= i / g < g && 0 <= i % g < g && i == (i / g) * g + i % g
  {
    var row := i / g;
    assert i == row * g + i % g;
    MulMonotone(g, row, g);
    MulMonotone(0, row, g);
  }
}
