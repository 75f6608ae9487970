/** JSON values as serde_json holds them. */
module JsonValues {

  /** An object keeps its entries in order and has no key twice (see `WellFormed`); a number is the
      text serde_json prints for it. */
  datatype Json =
    | Null
    | Bool(b: bool)
    | Number(text: string)
    | String(s: string)
    | Array(items: seq<Json>)
    | Object(entries: seq<(string, Json)>)
}
