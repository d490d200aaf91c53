/**
 * POST /api/whm/create (app/api/whm/create/route.js): creates a cPanel
 * account through WHM's createacct call and classifies the outcome into
 * an HTTP status and message. The HTTP client is replaced by its outcome,
 * a parameter; the function returns the request it sent.
 */
module WhmCreate {
  import opened Common

  /** WHM_API_TOKEN, WHM_USERNAME and WHM_HOST, read once at start-up; "" means unset. */
  datatype WhmConfig = WhmConfig(apiToken: string, username: string, host: string)

  /** The five members the route reads from its JSON body. */
  datatype AccountRequest = AccountRequest(username: string, domain: string, password: string, plan: string,
                                           contactemail: string)

  /** The GET request sent to WHM: endpoint, Authorization header, `api.version` and the account fields. */
  datatype WhmCall = WhmCall(url: string, authorization: string, apiVersion: int, account: AccountRequest)

  /** WHM's `metadata` object; `result` is `None` when it is absent or not a number. */
  datatype WhmMetadata = WhmMetadata(result: Option<int>, reason: string)

  /** The JSON WHM answered with; `payload` stands for everything besides `metadata`. */
  datatype WhmData = WhmData(metadata: Option<WhmMetadata>, payload: string)

  /**
   * How the request ended: a 2xx answer, an error answer (a status outside
   * 2xx, with the `error` member of its body, "" when absent), no answer
   * at all, or any other thrown error, before sending (a setup error) or
   * after it (a TypeError while reading the answer).
   */
  datatype WhmOutcome =
    | Replied(data: WhmData)
    | ErrorReply(status: nat, error: string)
    | NoReply
    | SetupFailure(message: string)

  datatype Body = PassThrough(data: WhmData) | ErrorBody(error: string)

  datatype WhmResponse = WhmResponse(status: nat, body: Body)

  /** The route's answer and the WHM request it sent, if any. */
  datatype Created = Created(response: WhmResponse, sent: Option<WhmCall>)

  const ConfigError: string := "Server configuration error: WHM credentials not set."
  const UnknownWhmError: string := "Unknown error from WHM."
  const ConnectError: string := "Could not connect to the WHM server. Please check the host and network configuration."

  predicate Configured(cfg: WhmConfig) {
    Truthy(cfg.apiToken) && Truthy(cfg.username) && Truthy(cfg.host)
  }

  /** WHM confirmed the account: `metadata.result === 1`. */
  predicate Confirmed(data: WhmData) {
    data.metadata.Some? && data.metadata.value.result == Some(1)
  }

  /** The request built from the body: createacct on the configured host, API version 1, fields unchanged. */
  function AccountCall(cfg: WhmConfig, account: AccountRequest): WhmCall {
    WhmCall(cfg.host + "/json-api/createacct", "whm " + cfg.username + ":" + cfg.apiToken, 1, account)
  }

  /** The reason of a refusal: WHM's own when it gave a non-empty one. */
  function RefusalReason(data: WhmData): (reason: string)
    ensures data.metadata.Some? && Truthy(data.metadata.value.reason) ==> reason == data.metadata.value.reason
    ensures !(data.metadata.Some? && Truthy(data.metadata.value.reason)) ==> reason == UnknownWhmError
  {
    if data.metadata.Some? && Truthy(data.metadata.value.reason) then data.metadata.value.reason else UnknownWhmError
  }

  /**
   * `body` is the parsed request body, or the message of the error that
   * parsing it threw.
   */
  function CreateAccount(cfg: WhmConfig, body: Result<AccountRequest, string>, outcome: WhmOutcome): (c: Created)
    ensures !Configured(cfg) ==> c == Created(WhmResponse(500, ErrorBody(ConfigError)), None)
    ensures c.sent.Some? <==> Configured(cfg) && body.Ok?
    ensures c.sent.Some? ==> c.sent.value == AccountCall(cfg, body.value)
    ensures Configured(cfg) && body.Err? ==> c.response == WhmResponse(500, ErrorBody(body.error))
    ensures c.response.body.PassThrough? <==> c.sent.Some? && outcome.Replied? && Confirmed(outcome.data)
    ensures c.response.body.PassThrough? ==> c.response == WhmResponse(200, PassThrough(outcome.data))
    ensures c.sent.Some? && outcome.Replied? && !Confirmed(outcome.data) ==>
              c.response == WhmResponse(400, ErrorBody("WHM Error: " + RefusalReason(outcome.data)))
    ensures c.sent.Some? && outcome.ErrorReply? ==>
              c.response.status == outcome.status
              && c.response.body == ErrorBody(if Truthy(outcome.error) then outcome.error
                                              else "WHM server responded with status " + NatToString(outcome.status))
    ensures c.sent.Some? && outcome.NoReply? ==> c.response == WhmResponse(500, ErrorBody(ConnectError))
    ensures c.sent.Some? && outcome.SetupFailure? ==> c.response == WhmResponse(500, ErrorBody(outcome.message))
  {
    if !Configured(cfg) then Created(WhmResponse(500, ErrorBody(ConfigError)), None)
    else match body
      case Err(message) => Created(WhmResponse(500, ErrorBody(message)), None)
      case Ok(account) =>
        var sent := Some(AccountCall(cfg, account));
        match outcome
        case Replied(data) =>
          if Confirmed(data) then Created(WhmResponse(200, PassThrough(data)), sent)
          else Created(WhmResponse(400, ErrorBody("WHM Error: " + RefusalReason(data))), sent)
        case ErrorReply(status, error) =>
          var message := if Truthy(error) then error else "WHM server responded with status " + NatToString(status);
          Created(WhmResponse(status, ErrorBody(message)), sent)
        case NoReply => Created(WhmResponse(500, ErrorBody(ConnectError)), sent)
        case SetupFailure(message) => Created(WhmResponse(500, ErrorBody(message)), sent)
  }

  /**
   * The caller learns about a refusal or a failure only through an error
   * body; every status other than WHM's own error status is 200, 400 or
   * 500, and 200 always carries WHM's data.
   */
  lemma WhmStatusesClassify(cfg: WhmConfig, body: Result<AccountRequest, string>, outcome: WhmOutcome)
    requires outcome.ErrorReply? ==> !(200 <= outcome.status < 300)
    ensures var r := CreateAccount(cfg, body, outcome).response;
            && (r.status == 200 <==> r.body.PassThrough?)
            && (r.status in {200, 400, 500} || (outcome.ErrorReply? && r.status == outcome.status))
            && (r.status == 400 && !outcome.ErrorReply? ==>
                  r.body.ErrorBody? && |r.body.error| >= 11 && r.body.error[..11] == "WHM Error: ")
  {
  }
}
