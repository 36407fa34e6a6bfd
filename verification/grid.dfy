/**
 The per-instance offsets of the 20 building blocks: two rows (y = -3 and
 y = 0) of ten columns (x = -10, -8, ..., 8), each shifted by 1 in x and z
 and stored in row-major order into a 20-element array.
 */
module Grid {
  import opened Vectors

  /** Number of building instances. */
  const Count: int := 20

  /** Offset of instance `i`: x = -9 + 2 (i mod 10), z = -2 + 3 (i div 10). */
  function Entry(i: int): Vec3 {
    Vec3((-9 + 2 * (i % 10)) as real, 0.0, (-2 + 3 * (i / 10)) as real)
  }

  /**
   The nested loop that fills `translations`.  Every write is in bounds,
   exactly 20 writes happen (`index` ends at 20), and entry `i` holds the
   closed form `Entry(i)`.
   */
  method Translations() returns (translations: seq<Vec3>, index: int)
    ensures index == Count && |translations| == Count
    ensures forall i :: 0 <= i < Count ==> translations[i] == Entry(i)
  {
    var a := new Vec3[Count](_ => Zero);
    index := 0;
    var offset := 1.0;
    var y := -3;
    ghost var row := 0;
    while y < 2
      invariant 0 <= row <= 2 && y == -3 + 3 * row
      invariant index == 10 * row
      invariant forall k :: 0 <= k < index ==> a[k] == Entry(k)
    {
      var x := -10;
      ghost var column := 0;
      while x < 10
        invariant 0 <= column <= 10 && x == -10 + 2 * column
        invariant index == 10 * row + column
        invariant forall k :: 0 <= k < index ==> a[k] == Entry(k)
      {
        var translation := Vec3(x as real + offset, 0.0, y as real + offset);
        EntryAt(row, column);
        a[index] := translation;
        index := index + 1;
        x := x + 2;
        column := column + 1;
      }
      y := y + 3;
      row := row + 1;
    }
    translations := a[..];
  }

  /** Row `row`, column `column` is entry 10 * row + column. */
  lemma EntryAt(row: int, column: int)
    requires 0 <= row && 0 <= column < 10
    ensures Entry(10 * row + column) == Vec3((-9 + 2 * column) as real, 0.0, (-2 + 3 * row) as real)
  {
    var i := 10 * row + column;
    assert i / 10 == row && i % 10 == column;
  }

  /** No two buildings share an offset. */
  lemma EntriesDistinct(i: int, j: int)
    requires 0 <= i < Count && 0 <= j < Count && i != j
    ensures Entry(i) != Entry(j)
  {
  }

  /** The offsets lie in two rows, z = -2 and z = 1, with x between -9 and 9. */
  lemma EntriesInBounds(i: int)
    requires 0 <= i < Count
    ensures -9.0 <= Entry(i).x <= 9.0
    ensures Entry(i).z == -2.0 || Entry(i).z == 1.0
    ensures Entry(i).y == 0.0
  {
  }
}
