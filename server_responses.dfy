/**
  The JSON and document responses of the letter server, and how its
  handlers' `catch` blocks turn a failure into a response.
*/
module ServerResponses {
  import opened JsStrings
  import opened JsValues


  /** The parts of a rendered document: fixed template text, or a tag's value. */
  datatype Piece = Literal(text: string) | Filled(value: Value)

  datatype Response =
    | JsonResponse(status: nat, body: Record)
    | DocumentResponse(disposition: string, contentType: string, content: seq<Piece>)

  /**
    What a handler's `catch` receives: an error from the document engine
    carrying `properties.errors` (one message per offending tag), or any other
    thrown error with its `message`.
  */
  datatype Failure = Thrown(message: string) | TemplateErrors(messages: seq<string>)

  /** Separator the server puts between the engine's per-tag messages. */
  const MessageSeparator := ", "

  /** The `catch` block: template errors are reported apart from every other failure. */
  function ErrorResponse(f: Failure): (r: Response)
    ensures r.JsonResponse? && r.status == 500 && r.body.Keys == {"msg", "error"}
    ensures r.body["msg"] == Str("Template Error") <==> f.TemplateErrors?
    ensures r.body["msg"] == Str("Server Error") <==> f.Thrown?
    ensures f.Thrown? ==> r.body["error"] == Str(f.message)
    ensures f.TemplateErrors? ==> r.body["error"].Str?
  {
    match f
    case TemplateErrors(ms) =>
      JsonResponse(500, map["msg" := Str("Template Error"), "error" := Str(Join(ms, MessageSeparator))])
    case Thrown(m) =>
      JsonResponse(500, map["msg" := Str("Server Error"), "error" := Str(m)])
  }

  /**
    Every per-tag message is in the reported text, in order: splitting it at
    ", " gives the messages back, as long as no message contains a comma.
  */
  lemma TemplateErrorListsEveryMessage(ms: seq<string>)
    requires |ms| > 0
    requires forall k :: 0 <= k < |ms| ==> ',' !in ms[k]
    ensures ErrorResponse(TemplateErrors(ms)).body["error"] == Str(Join(ms, ", "))
    ensures SplitOn(ErrorResponse(TemplateErrors(ms)).body["error"].s, ", ") == ms
  {
    SplitJoin(ms, ", ");
  }

  const NotFoundResponse := JsonResponse(404, map["msg" := Str("Surat tidak ditemukan")])
}
