/** Values exchanged with the message bus: decoded JSON documents and the
    outcome of decoding an inbound payload. */
module Values {

  datatype Option<+T> = None | Some(value: T)

  datatype Result<+T, +E> = Success(value: T) | Failure(error: E)

  /** A decoded JSON document as `json.loads` returns it: null, a boolean,
      an integer, a string, a list or an object (a dict keyed by strings).
      Non-integral numbers are not modelled. */
  datatype Json =
    | JNull
    | JBool(b: bool)
    | JInt(i: int)
    | JStr(s: string)
    | JArray(items: seq<Json>)
    | JObject(fields: map<string, Json>)

  /** An inbound payload after `json.loads`: either it raised, or it produced
      a document (which need not be an object). */
  datatype Payload = Malformed | Decoded(doc: Json)
}
