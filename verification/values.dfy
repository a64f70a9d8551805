/** The scalar values that travel through an export: cell values fetched from
    the database, column headings, and metadata values. */
module Values {

  /** A Python scalar as stored in a cell or a metadata entry. */
  datatype Scalar =
    | Null
    | Bool(b: bool)
    | Int(i: int)
    | Str(s: string)
}
