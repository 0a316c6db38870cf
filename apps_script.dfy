/**
 * One write attempt against the Apps Script endpoint (`postRow`): the network's answer is
 * an input, and this module decides what the attempt amounted to. Both the immediate save
 * and the queue drain use this one classification.
 */
module AppsScript {
  import opened Wrappers
  import opened Records
  import Text

  /** The JSON envelope the Apps Script answers with. */
  datatype Envelope = Envelope(ok: bool, error: Option<string>, rowId: RowId, message: Option<string>)

  /** What `response.json()` produced. */
  datatype Body = Parsed(envelope: Envelope) | Unparsable(reason: string)

  /** What `fetch` produced: no response at all (the promise rejected), or a status and a body. */
  datatype Response = NoResponse(reason: string) | Reply(status: nat, body: Body)

  /** Why an attempt failed; each kind carries what its error message is built from. */
  datatype PostError =
    | NotConfigured         // URL or token missing: no request is made
    | AuthFailed            // 401 or 403
    | ServerError(status: nat)  // 500 and above
    | HttpError(status: nat)    // any other status outside 200..299
    | Unreachable(reason: string)  // `fetch` rejected
    | BadBody(reason: string)      // the body is not JSON
    | Rejected(error: string)      // the envelope says `ok: false`

  datatype PostResult = Posted(rowId: RowId, message: Option<string>) | Failed(error: PostError)

  /** `response.ok`: the status is in the range 200..299. */
  predicate StatusOk(status: nat) {
    200 <= status <= 299
  }

  const DefaultRejection := "Unknown error from Apps Script"

  /** `postRow(payload, mode)` given the answer the network gives to its request. */
  function PostRow(settings: Settings, response: Response): (r: PostResult)
    // configuration is checked before any request
    ensures !Configured(settings) ==> r == Failed(NotConfigured)
    ensures r == Failed(NotConfigured) <==> !Configured(settings)
    // only a 2xx reply whose envelope says ok is a success, and it reports the envelope's row
    ensures r.Posted? <==>
      Configured(settings) && response.Reply? && StatusOk(response.status)
      && response.body.Parsed? && response.body.envelope.ok
    ensures r.Posted? ==> r.rowId == response.body.envelope.rowId && r.message == response.body.envelope.message
    // a rejected `fetch`, and a 2xx body that is not JSON
    ensures Configured(settings) && response.NoResponse? ==> r == Failed(Unreachable(response.reason))
    ensures Configured(settings) && response.Reply? && StatusOk(response.status) && response.body.Unparsable? ==>
      r == Failed(BadBody(response.body.reason))
    // the status classes, in the order the code tests them
    ensures r == Failed(AuthFailed) <==>
      Configured(settings) && response.Reply? && response.status in {401, 403}
    ensures r.Failed? && r.error.ServerError? <==>
      Configured(settings) && response.Reply? && response.status >= 500
    ensures r.Failed? && r.error.HttpError? <==>
      Configured(settings) && response.Reply? && !StatusOk(response.status)
      && response.status !in {401, 403} && response.status < 500
    ensures r.Failed? && (r.error.ServerError? || r.error.HttpError?) ==>
      r.error.status == response.status
    // an envelope that reports failure: its own error text, or the default one when that is empty
    ensures r.Failed? && r.error.Rejected? <==>
      Configured(settings) && response.Reply? && StatusOk(response.status) && response.body.Parsed?
      && !response.body.envelope.ok
    ensures r.Failed? && r.error.Rejected? ==>
      response.Reply? && response.body.Parsed? &&
      r.error.error == (match response.body.envelope.error
                        case Some(e) => if e != "" then e else DefaultRejection
                        case None => DefaultRejection)
  {
    if !Configured(settings) then Failed(NotConfigured)
    else match response
      case NoResponse(reason) => Failed(Unreachable(reason))
      case Reply(status, body) =>
        if !StatusOk(status) then
          if status == 401 || status == 403 then Failed(AuthFailed)
          else if status >= 500 then Failed(ServerError(status))
          else Failed(HttpError(status))
        else match body
          case Unparsable(reason) => Failed(BadBody(reason))
          case Parsed(env) =>
            if !env.ok then
              Failed(Rejected(match env.error
                              case Some(e) => if e != "" then e else DefaultRejection
                              case None => DefaultRejection))
            else Posted(env.rowId, env.message)
  }

  /** What `postRow` sends: a POST to the configured URL, the token as bearer, and the body `{mode, ...payload}`. */
  datatype Request = Request(url: string, token: string, mode: Mode, payload: Payload)

  /** The request `postRow(payload, mode)` makes; none when the URL or token is missing. */
  function RequestFor(settings: Settings, payload: Payload, mode: Mode): (q: Option<Request>)
    ensures q.None? <==> !Configured(settings)
    ensures q.Some? ==> q.value.url == settings.appsScriptUrl && q.value.token == settings.token
    ensures q.Some? ==> q.value.mode == mode && q.value.payload == payload
  {
    if Configured(settings) then Some(Request(settings.appsScriptUrl, settings.token, mode, payload)) else None
  }

  /** An attempt fails as not configured exactly when it sends no request. */
  lemma NotConfiguredIffNoRequest(settings: Settings, payload: Payload, mode: Mode, response: Response)
    ensures PostRow(settings, response) == Failed(NotConfigured) <==> RequestFor(settings, payload, mode).None?
  {
  }

  /** `error.message` of the exception `postRow` throws. */
  function ErrorMessage(e: PostError): (m: string)
    ensures e == NotConfigured ==> m == "Apps Script URL or token not configured"
    ensures e == AuthFailed ==> m == "Authentication failed - check your token"
    // a status failure names its class and carries the status in decimal, which reads back
    ensures e.ServerError? ==>
      |m| > 14 && m[..14] == "Server error: " && Text.DecimalValue(m[14..]) == e.status
    ensures e.HttpError? ==>
      |m| > 12 && m[..12] == "HTTP error: " && Text.DecimalValue(m[12..]) == e.status
    // the other kinds pass their own text through
    ensures e.Unreachable? || e.BadBody? ==> m == e.reason
    ensures e.Rejected? ==> m == e.error
  {
    match e
    case NotConfigured => "Apps Script URL or token not configured"
    case AuthFailed => "Authentication failed - check your token"
    case ServerError(status) => "Server error: " + Text.Decimal(status)
    case HttpError(status) => "HTTP error: " + Text.Decimal(status)
    case Unreachable(reason) => reason
    case BadBody(reason) => reason
    case Rejected(error) => error
  }

  /** A throttled reply (429) has no class of its own: it is an ordinary HTTP error. */
  lemma TooManyRequestsIsHttpError(settings: Settings, body: Body)
    requires Configured(settings)
    ensures PostRow(settings, Reply(429, body)) == Failed(HttpError(429))
  {
  }
}
