/** Decoded delimited-text records, as `csv.DictReader` yields them. */
module Rows {
  import opened PyJson

  /** One record: column name to cell text. */
  type Row = map<string, string>

  /** `row[column]`: a missing column raises `KeyError`. */
  function Cell(r: Row, column: string): Eval<string> {
    if column in r then Ok(r[column]) else Raised
  }

  /** A decoded delimited file: its header and its records in file
      order. */
  datatype Table = Table(columns: seq<string>, rows: seq<Row>)

  /** A record as the JSON object `jsonify` sends. */
  function RowJson(r: Row): Json {
    Obj(map k | k in r :: Str(r[k]))
  }

  /** A list of records as a JSON array, element by element. */
  function RowsJson(rows: seq<Row>): (j: Json)
    ensures j.Arr? && |j.items| == |rows|
    ensures forall i :: 0 <= i < |rows| ==> j.items[i] == RowJson(rows[i])
  {
    Arr(seq(|rows|, i requires 0 <= i < |rows| => RowJson(rows[i])))
  }
}
