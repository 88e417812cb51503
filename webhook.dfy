/**
  What the three Dialogflow CX webhook wrappers share: the reply shapes, the
  outbound calls a handler makes, and the reading of the tag and the session
  parameters out of the request body.
 */
module Webhook {
  import opened Wrappers
  import opened Json

  /** The JSON a handler answers with, or an unhandled exception (HTTP 500). */
  datatype Reply = Json(body: Value) | Crash

  /**
    An outbound request: a GET of the report URL, a download of a Cloud
    Storage blob, a multipart POST of the PDF bytes, or a JSON POST.
   */
  datatype Call =
    | HttpGet(reportUrl: Value)
    | GcsDownload(bucket: string, blob: string)
    | PostFile(url: string, pdf: seq<bv8>)
    | PostJson(url: string, payload: Value)

  /** The reply and the outbound requests made before it, in order. */
  datatype Outcome = Outcome(reply: Reply, calls: seq<Call>)

  /** `{"text": {"text": [msg]}}`. */
  function TextMessage(msg: string): Value {
    Obj([("text", Obj([("text", List([Str(msg)]))]))])
  }

  /** `{"fulfillment_response": {"messages": [{"text": {"text": [msg]}}]}}`. */
  function TextReply(msg: string): Value {
    Obj([("fulfillment_response", Obj([("messages", List([TextMessage(msg)]))]))])
  }

  /** A reply that only says `msg`, given before any outbound request. */
  function Say(msg: string): Outcome {
    Outcome(Json(TextReply(msg)), [])
  }

  /** The text a reply carries in its first message, when it has that shape. */
  function FirstText(reply: Value): Option<string> {
    match Resolve(reply, ["fulfillment_response", "messages"])
    case Some(List(ms)) =>
      if ms != [] then
        match Resolve(ms[0], ["text", "text"])
        case Some(List(ts)) => if ts != [] && ts[0].Str? then Some(ts[0].s) else None
        case _ => None
      else None
    case _ => None
  }

  /** A text reply reads back as its message. */
  lemma TextReplyReads(msg: string)
    ensures FirstText(TextReply(msg)) == Some(msg)
  {
    assert ["fulfillment_response", "messages"][1..] == ["messages"];
    assert ["text", "text"][1..] == ["text"];
  }

  const TagPath: seq<string> := ["fulfillmentInfo", "tag"]
  const ParamsPath: seq<string> := ["sessionInfo", "parameters"]

  /** `_get(body, ["fulfillmentInfo", "tag"], "")`. */
  function TagOf(body: Value): Value {
    Walk(body, TagPath, Str(""))
  }

  /** `_get(body, ["sessionInfo", "parameters"], {}) or {}`. */
  function ParamsOf(body: Value): Value {
    Or(Walk(body, ParamsPath, EmptyObj), EmptyObj)
  }

  /** `tag and tag != name`: a tag is given and it names another handler. */
  predicate TagRejected(tag: Value, name: string) {
    Truthy(tag) && tag != Str(name)
  }

  /** `f"Unhandled tag: {tag}"`. */
  function UnhandledTag(tag: Value): string {
    "Unhandled tag: " + PyStr(tag)
  }

  /** The service URL read from the environment is set and not empty. */
  predicate Configured(url: Option<string>) {
    url.Some? && url.value != ""
  }

  /** The two reads every handler starts with: the tag, then the parameters (each a `_get` walk). */
  method ReadRequest(body: Value) returns (tag: Value, params: Value)
    ensures tag == TagOf(body) && params == ParamsOf(body)
  {
    tag := GetPath(body, TagPath, Str(""));
    var p := GetPath(body, ParamsPath, EmptyObj);
    params := Or(p, EmptyObj);
  }

  /** The parameters are `{}` when the body carries none, or carries falsy ones. */
  lemma ParamsDefault(body: Value)
    ensures !Truthy(Walk(body, ParamsPath, EmptyObj)) ==> ParamsOf(body) == EmptyObj
    ensures Resolve(body, ParamsPath).None? ==> ParamsOf(body) == EmptyObj
  {
  }
}
