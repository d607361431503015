/** The struct children of table rows and the ways both writers read them. */
module Cells {
  import opened Prelude
  import opened Text

  /**
   A struct child of one row. A value that is not of an integer type comes with its text and with
   the outcomes of DuckDB's casts to TIMESTAMP_NS and BIGINT.
   */
  datatype Cell =
    | Absent
    | NullCell
    | Integral(value: int)
    | Other(text: string, asTimestampNs: Option<int64>, asBigint: Option<int64>)

  function StringField(cell: Cell): string {
    match cell
    case Absent => ""
    case NullCell => ""
    case Integral(value) => IntText(value)
    case Other(text, _, _) => text
  }

  function IntegerField(cell: Cell): Option<int64> {
    match cell
    case Integral(value) => if FitsInt64(value) then Some(value) else None
    case Other(_, _, asBigint) => asBigint
    case _ => None
  }

  function TimestampField(cell: Cell): Option<int64> {
    match cell
    case Integral(value) => if FitsInt64(value) then Some(value) else None
    case Other(_, asTimestampNs, _) => asTimestampNs
    case _ => None
  }

  function OrDefault(text: string, default: string): string {
    if text == "" then default else text
  }
}
