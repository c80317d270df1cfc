/**
 * What the stores and components see of an HTTP call. The requests themselves
 * are input: a call either delivers its response data or fails with an axios
 * error, which carries its own `message` and, when the server answered, the
 * response body.
 */
module Http {
  import opened Wrappers

  /** A response body: a JSON string, or a JSON object whose fields are strings. */
  datatype Body = Text(text: string) | Record(fields: map<string, string>)

  /** An axios error: `error.message` and `error.response?.data`. */
  datatype HttpError = HttpError(message: string, body: Option<Body>)

  /** The result of one request. */
  datatype Response<+T> = Ok(data: T) | Failed(error: HttpError)

  /** How an async thunk settles: its fulfilled payload, or the reason it was rejected with. */
  datatype Settled<+T, +E> = Fulfilled(payload: T) | Rejected(reason: E)

  /** JavaScript truthiness of a body: only the empty string is falsy. */
  predicate Truthy(b: Body) {
    !(b.Text? && b.text == "")
  }

  /** JavaScript truthiness of a string that may be null: present and not the empty string. */
  predicate TruthyText(s: Option<string>) {
    s.Some? && s.value != ""
  }

  /** `body?.message`: present only when the body is an object with a `message` field. */
  function MessageField(body: Option<Body>): (m: Option<string>)
    ensures m.Some? <==> body.Some? && body.value.Record? && "message" in body.value.fields
    ensures m.Some? ==> m.value == body.value.fields["message"]
  {
    match body
    case Some(Record(fields)) => if "message" in fields then Some(fields["message"]) else None
    case _ => None
  }

  /** `body?.message || fallback`: the server's message when it is a non-empty string, else the fallback. */
  function MessageOr(body: Option<Body>, fallback: string): (m: string)
    ensures MessageField(body).Some? && MessageField(body).value != "" ==> m == MessageField(body).value
    ensures (MessageField(body).None? || MessageField(body).value == "") ==> m == fallback
    ensures fallback != "" ==> m != ""
  {
    var field := MessageField(body);
    if field.Some? && field.value != "" then field.value else fallback
  }

  /** `body || fallback`: the whole response body when it is truthy, else the fallback text. */
  function BodyOr(body: Option<Body>, fallback: string): (b: Body)
    ensures body.Some? && Truthy(body.value) ==> b == body.value
    ensures (body.None? || !Truthy(body.value)) ==> b == Text(fallback)
    ensures fallback != "" ==> Truthy(b)
  {
    if body.Some? && Truthy(body.value) then body.value else Text(fallback)
  }
}
