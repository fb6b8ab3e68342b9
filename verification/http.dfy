/** The HTTP reply exchanged between the generation endpoint and the page. */
module Http {
  import opened Wrappers
  import opened Text

  /** A JSON object whose values the model reads are strings. */
  type JsonObject = map<string, string>

  /** A reply: its status code and its body, `None` when the body is not JSON
      (the plain-text "Internal Server Error" page of an unhandled exception, for one). */
  datatype Reply = Reply(status: int, body: Option<JsonObject>)

  /** `Response.ok` of the Fetch standard: a status in the range 200 to 299. */
  predicate IsOk(status: int) {
    200 <= status <= 299
  }

  /** JavaScript `obj.key` read in a boolean context: the value when present and truthy. */
  function TruthyField(obj: JsonObject, key: string): (r: Option<string>)
    ensures r.Some? <==> key in obj && Truthy(obj[key])
    ensures r.Some? ==> r.value == obj[key]
  {
    if key in obj && Truthy(obj[key]) then Some(obj[key]) else None
  }

  /** The body FastAPI sends for a raised `HTTPException`: `{"detail": ...}`. */
  function ErrorReply(status: int, detail: string): (r: Reply)
    ensures r.status == status && r.body.Some?
    ensures r.body.value.Keys == {"detail"} && r.body.value["detail"] == detail
  {
    Reply(status, Some(map["detail" := detail]))
  }
}
