/** The shapes the CSV readers hand to the scripts: every row is a dictionary from
    column names to strings, read with `row.get(key, default)`. */
module Records {

  type Row = map<string, string>

  /** row.get(key, default) */
  function Get(row: Row, key: string, default: string): (v: string)
    ensures key in row ==> v == row[key]
    ensures key !in row ==> v == default
  {
    if key in row then row[key] else default
  }

  /** A map position. */
  datatype Coord = Coord(lat: real, lng: real)
}
