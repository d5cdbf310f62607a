/** What the browser side sees of a request made with axios: the response
    body when the status is a success, otherwise the failure. */
module Client {
  import opened Json

  /** A rejected request: no response at all (a network error, or an error
      thrown before the response was read), or a response whose status is an
      error, with its body. */
  datatype HttpFailure = NoResponse | Status(code: int, data: Json)

  /** The result of awaiting one request: `response.data`, or the failure. */
  datatype Outcome = Success(body: Json) | Failure(failure: HttpFailure)

  /** `error.response?.data?.message`. */
  function ServerMessage(f: HttpFailure): (r: Option<Json>)
    ensures f.NoResponse? ==> r.None?
    ensures r.Some? ==> f.Status? && f.data.Obj? && "message" in f.data.fields && r.value == f.data.fields["message"]
    ensures f.Status? && f.data.Obj? && "message" in f.data.fields ==> r == Some(f.data.fields["message"])
  {
    if f.Status? then Field(Some(f.data), "message") else None
  }

  /** `error.response?.data?.message || fallback`: the server's message when
      it has a truthy one, otherwise the fixed text; never falsy. */
  function MessageOr(f: HttpFailure, fallback: string): (r: Json)
    requires fallback != ""
    ensures Truthy(r)
    ensures Present(ServerMessage(f)) ==> r == ServerMessage(f).value
    ensures !Present(ServerMessage(f)) ==> r == Str(fallback)
  {
    OrDefault(ServerMessage(f), fallback)
  }

  /** `response.data.data`: the payload the server's `{ success, data }`
      envelope carries, undefined when the body has none. */
  function Payload(body: Json): (r: Option<Json>)
    ensures body.Obj? && "data" in body.fields <==> r.Some?
    ensures r.Some? ==> r.value == body.fields["data"]
  {
    Field(Some(body), "data")
  }
}
