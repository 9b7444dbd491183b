/** The worksheet as the auditor reads it: a map from cell coordinates to
    values.  A coordinate is also the identity of a cell, so a finding names
    the cell it is about by its coordinate. */
module Grid {
  import opened Wrappers

  /** A cell value is text or a date (a day number, see module Calendar). */
  datatype Value = Text(s: string) | Date(day: int)

  datatype Coord = Coord(row: int, col: int)

  /** The cells that hold a value (absent cells read as `None`), and the
      last row `iter_rows` visits. */
  datatype Sheet = Sheet(cells: map<Coord, Value>, maxRow: int) {

    function ValueAt(c: Coord): (v: Option<Value>)
      ensures v.Some? <==> c in cells
      ensures v.Some? ==> v.value == cells[c]
    {
      if c in cells then Some(cells[c]) else None
    }
  }
}
