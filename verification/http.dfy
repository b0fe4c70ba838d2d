/** `safeFetch` (packages/lib/src/http.ts): the classification of one fetch
    into a value or a network, HTTP or parse error. The fetch itself and
    `Response.json()` are abstracted into their observable outcomes. */
module Http {

  /** What a rejected promise carried: an `Error` with its message, or any
      other value together with its `String(...)` rendering. */
  datatype Thrown = ThrownError(message: string) | ThrownValue(text: string)

  /** A JavaScript `Error`, by its message. */
  datatype Error = Error(message: string)

  /** How `response.json()` settled. */
  datatype BodyParse<J> = Parsed(json: J) | Unparseable(reason: Thrown)

  datatype Response<J> = Response(ok: bool, status: int, headers: map<string, string>, body: BodyParse<J>)

  /** How `fetch(input, init)` settled. */
  datatype FetchOutcome<J> = Rejected(reason: Thrown) | Resolved(response: Response<J>)

  /** The body attached to an HTTP error: the parsed JSON, or the `{}` put in
      its place when the error body does not parse. A caller sees `{}` in
      both cases when the body itself parses to `{}`; telling them apart is
      a distinction of this model only. */
  datatype ErrorBody<J> = JsonBody(value: J) | EmptyObject

  datatype FetchError<J> =
    | NetworkError(error: Error)
    | HttpError(status: int, headers: map<string, string>, json: ErrorBody<J>)
    | ParseError(error: Error)

  datatype FetchResult<J> = Success(value: J) | Failure(error: FetchError<J>)

  /** `error instanceof Error ? error : new Error(String(error))`: an
      `Error` is kept, anything else is wrapped with its string form. */
  function AsError(t: Thrown): (e: Error)
    ensures t.ThrownError? ==> e.message == t.message
    ensures t.ThrownValue? ==> e.message == t.text
  {
    match t
    case ThrownError(m) => Error(m)
    case ThrownValue(s) => Error(s)
  }

  /** The body of a non-ok response: `response.json().catch(() => ({}))`,
      which cannot reject, so the parse-error mapping around it never
      applies. */
  function ErrorBodyOf<J>(body: BodyParse<J>): (b: ErrorBody<J>)
    ensures body.Parsed? <==> b.JsonBody?
    ensures body.Parsed? ==> b.value == body.json
  {
    match body
    case Parsed(j) => JsonBody(j)
    case Unparseable(_) => EmptyObject
  }

  /** `safeFetch(input, init)` once the fetch and the body parse have
      settled as `outcome`. */
  function SafeFetch<J>(outcome: FetchOutcome<J>): (r: FetchResult<J>)
    ensures outcome.Rejected? ==> r == Failure(NetworkError(AsError(outcome.reason)))
    ensures outcome.Resolved? && !outcome.response.ok ==>
      && r.Failure? && r.error.HttpError?
      && r.error.status == outcome.response.status
      && r.error.headers == outcome.response.headers
      && (r.error.json.EmptyObject? <==> outcome.response.body.Unparseable?)
    ensures outcome.Resolved? && outcome.response.ok && outcome.response.body.Unparseable? ==>
      r == Failure(ParseError(AsError(outcome.response.body.reason)))
  {
    match outcome
    case Rejected(reason) => Failure(NetworkError(AsError(reason)))
    case Resolved(response) =>
      if !response.ok then
        Failure(HttpError(response.status, response.headers, ErrorBodyOf(response.body)))
      else
        match response.body
        case Parsed(json) => Success(json)
        case Unparseable(reason) => Failure(ParseError(AsError(reason)))
  }

  /** The result kinds exactly: a value precisely when the fetch resolved,
      the response is ok and its body parses, and then it is that body; a
      network error precisely when the fetch rejected; an HTTP error
      precisely for a non-ok response; a parse error precisely for an ok
      response whose body does not parse. */
  lemma SafeFetchKinds<J>(outcome: FetchOutcome<J>)
    ensures SafeFetch(outcome).Success? <==>
      outcome.Resolved? && outcome.response.ok && outcome.response.body.Parsed?
    ensures SafeFetch(outcome).Success? ==> SafeFetch(outcome).value == outcome.response.body.json
    ensures SafeFetch(outcome).Failure? && SafeFetch(outcome).error.NetworkError? <==> outcome.Rejected?
    ensures SafeFetch(outcome).Failure? && SafeFetch(outcome).error.HttpError? <==>
      outcome.Resolved? && !outcome.response.ok
    ensures SafeFetch(outcome).Failure? && SafeFetch(outcome).error.ParseError? <==>
      outcome.Resolved? && outcome.response.ok && outcome.response.body.Unparseable?
  {
  }
}
