/** Value types shared by the whole model: optional values, results with an
    error, and a JSON-like picture of the Python values that flow through
    filters, field specs and the document-store query. */
module Values {

  datatype Option<+T> = None | Some(value: T)

  datatype Result<+T, +E> = Ok(value: T) | Err(error: E)

  /** A Python value as the core sees it. A dict is a map from string keys;
      `None` is JNull. */
  datatype Json =
    | JNull
    | JBool(b: bool)
    | JInt(i: int)
    | JStr(s: string)
    | JArr(items: seq<Json>)
    | JObj(fields: map<string, Json>)

  /** A dict with exactly one entry, the shape every translated condition has. */
  function Single(key: string, value: Json): (r: Json)
  {
    JObj(map[key := value])
  }
}
