/**
 * What the node functions exchange with the Tencent Cloud API and with the
 * browser: the errors the SDK throws, how an awaited call settles, and the
 * JSON replies the routes send.
 */
module Upstream {
  import opened Wrappers
  import opened JsValue

  /** An error thrown by the SDK: its `code`, `message` and `requestId`, each possibly undefined. */
  datatype TeoError = TeoError(code: Option<string>, message: Option<string>, requestId: Option<string>)

  /** How an awaited API call settled: the response object, or the error it threw. */
  datatype Outcome = Succeeded(data: map<string, Json>) | Failed(err: TeoError)

  /** An HTTP reply: its status and its JSON body. */
  datatype Reply = Reply(status: nat, body: Json)

  /** `{ ...fields, [name]: value }` as `JSON.stringify` writes it: an undefined value adds no field. */
  function WithText(fields: map<string, Json>, name: string, value: Option<string>): map<string, Json> {
    if value.Some? then fields[name := Str(value.value)] else fields
  }

  /** `res.status(status).json({ error: message })`. */
  function ErrorReply(status: nat, message: Option<string>): Reply {
    Reply(status, Obj(WithText(map[], "error", message)))
  }

  /** `res.status(500).json({ error: err.message, code: err.code, requestId: err.requestId })`. */
  function DetailedErrorReply(err: TeoError): Reply {
    Reply(500, Obj(WithText(WithText(WithText(map[], "error", err.message), "code", err.code), "requestId", err.requestId)))
  }

  /** `res.json(data)`. */
  function DataReply(data: Json): Reply {
    Reply(200, data)
  }

  /** `String(req.query.noCache || "") === "1"`. */
  predicate NoCacheRequested(noCache: Option<string>) {
    noCache == Some("1")
  }

  /** The text every route answers with status 500 when the keys are missing. */
  const MissingCredentials: string := "Missing credentials"
}
