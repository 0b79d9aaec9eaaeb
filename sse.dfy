/** The values that flow through the patch transformer: JSON documents and
    Server-Sent Events whose data payload is a JSON document. */
module Sse {
  import opened Wrappers

  /** A JSON document, as a Jackson `JsonNode` holds one. `JNull` is the JSON
      literal null, which is a present document, unlike an absent reference. */
  datatype Json =
    | JNull
    | JBool(b: bool)
    | JNum(n: int)
    | JStr(s: string)
    | JArr(items: seq<Json>)
    | JObj(members: seq<(string, Json)>)

  /** One Server-Sent Event as delivered by the transport: its `event:` field
      (the event type) and its `data:` field, each of which may be absent. */
  datatype Event = Event(eventType: Option<string>, data: Option<Json>)

  /** The three event types the transformer recognizes. */
  const DataType: string := "data"
  const PatchType: string := "patch"
  const ErrorType: string := "error"
}
