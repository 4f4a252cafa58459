/** The values a spreadsheet row hands to the per-row code: pandas cells and the
    Python objects `row.get` can return. */
module Values {
  import opened Text

  datatype Option<T> = None | Some(value: T)

  datatype Result<T, E> = Ok(value: T) | Err(error: E)

  /** A cell value: Python's None, a float NaN (what pandas reads from an empty
      cell), an integer, or a string. */
  datatype Value = Null | NaN | Int(i: int) | Str(s: string)

  /** One spreadsheet row: its position in the sheet and its cells by column name.
      A column the sheet does not have is absent from `cells`. */
  datatype Row = Row(index: nat, cells: map<string, Value>)

  /** `row.get(column, default)`: the cell when the column exists, else the default. */
  function Get(row: Row, column: string, default: Value): (v: Value)
    ensures column in row.cells ==> v == row.cells[column]
    ensures column !in row.cells ==> v == default
  {
    if column in row.cells then row.cells[column] else default
  }

  /** `pd.isna(v)`: None and NaN are missing, everything else is present. */
  predicate IsMissing(v: Value) {
    v.Null? || v.NaN?
  }

  /** `str(v)`: the text Python prints for a value. */
  function PyStr(v: Value): (r: string)
    ensures v.Str? ==> r == v.s
    ensures v.Null? ==> r == "None"
    ensures v.NaN? ==> r == "nan"
    ensures v.Int? ==> r == IntText(v.i)
    ensures !v.Str? ==> 'c' !in Lower(r)
  {
    match v
    case Null => "None"
    case NaN => "nan"
    case Int(i) => IntText(i)
    case Str(s) => s
  }
}
