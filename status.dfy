// How the transport client turns a finished exchange into a result
// (the response callback of BaseClient.request, src/base_client.ts:70-108).

module Status {
  import opened Common
  import Decimal

  /** What the transport library reports: a transport error, or a response. */
  datatype Exchange =
    | TransportFailure(cause: string)
    | Completed(statusCode: int, headers: Headers, body: string)

  /**
   * The three members read out of a parsed error body; a member the JSON
   * text does not have is `None` (it reads as `undefined`).
   */
  datatype ErrorBody = ErrorBody(error: Option<string>, errorDescription: Option<string>, errorUri: Option<string>)

  /**
   * The object literal handed to `new ErrorResponse(...)`:
   * `{error, error_description, error_uri?, headers?, status}`.
   */
  datatype ErrorInfo = ErrorInfo(
    error: Option<string>,
    errorDescription: Option<string>,
    errorUri: Option<string>,
    headers: Option<Headers>,
    status: int)

  /** A request either resolves with the response or rejects with one error. */
  datatype Outcome =
    | Success(statusCode: int, headers: Headers, body: string)
    | Redirect(code: int, message: string)
    | ErrResp(info: ErrorInfo)
    | Unsupported(code: int, message: string)
    | Transport(cause: string)

  const UnparsableError := "Something went wrong, but could not parse the response"
  const RedirectPrefix := "Unsupported Redirect Response: "
  const UnsupportedPrefix := "Unsupported Response Code: "

  function RedirectMessage(code: int): string
  {
    RedirectPrefix + Decimal.IntToString(code)
  }

  function UnsupportedMessage(code: int): string
  {
    UnsupportedPrefix + Decimal.IntToString(code)
  }

  /** The rejection for a 4xx or 5xx status, given what parsing the body gave. */
  function ErrorResponseFor(statusCode: int, headers: Headers, parsed: Option<ErrorBody>): (info: ErrorInfo)
    ensures info.status == statusCode
    ensures parsed.None? ==>
      info == ErrorInfo(Some(UnparsableError), Some(""), None, None, statusCode)
    ensures parsed.Some? ==>
      && info.error == parsed.value.error
      && info.errorDescription == parsed.value.errorDescription
      && info.errorUri == parsed.value.errorUri
      && info.headers == Some(headers)
  {
    match parsed
    case None => ErrorInfo(Some(UnparsableError), Some(""), None, None, statusCode)
    case Some(b) => ErrorInfo(b.error, b.errorDescription, b.errorUri, Some(headers), statusCode)
  }

  /**
   * The if/else chain over the status code. `parse` stands for `JSON.parse`
   * (`None` when it throws); it is consulted only for 4xx and 5xx.
   */
  function Classify(exchange: Exchange, parse: string -> Option<ErrorBody>): (r: Outcome)
    ensures exchange.TransportFailure? ==> r == Transport(exchange.cause)
    ensures r.Transport? ==> exchange.TransportFailure?
    ensures r.Success? <==> exchange.Completed? && 200 <= exchange.statusCode <= 299
    ensures r.Redirect? <==> exchange.Completed? && 300 <= exchange.statusCode <= 399
    ensures r.ErrResp? <==> exchange.Completed? && 400 <= exchange.statusCode <= 599
    ensures r.Unsupported? <==> exchange.Completed? && !(200 <= exchange.statusCode <= 599)
    ensures r.Success? ==> r == Success(exchange.statusCode, exchange.headers, exchange.body)
    ensures r.Redirect? ==> r == Redirect(exchange.statusCode, RedirectMessage(exchange.statusCode))
    ensures r.ErrResp? ==>
      r.info == ErrorResponseFor(exchange.statusCode, exchange.headers, parse(exchange.body))
    ensures r.Unsupported? ==> r == Unsupported(exchange.statusCode, UnsupportedMessage(exchange.statusCode))
  {
    match exchange
    case TransportFailure(cause) => Transport(cause)
    case Completed(statusCode, headers, body) =>
      if 200 <= statusCode <= 299 then
        Success(statusCode, headers, body)
      else if 300 <= statusCode <= 399 then
        Redirect(statusCode, RedirectMessage(statusCode))
      else if 400 <= statusCode <= 599 then
        ErrResp(ErrorResponseFor(statusCode, headers, parse(body)))
      else
        Unsupported(statusCode, UnsupportedMessage(statusCode))
  }

  /** The rejection messages carry the status code, which can be read back from them. */
  lemma MessagesCarryCode(code: int)
    ensures RedirectMessage(code)[..|RedirectPrefix|] == RedirectPrefix
    ensures UnsupportedMessage(code)[..|UnsupportedPrefix|] == UnsupportedPrefix
    ensures var digits := RedirectMessage(code)[|RedirectPrefix|..];
      digits == Decimal.IntToString(code) && Decimal.ParseInt(digits) == code
    ensures var digits := UnsupportedMessage(code)[|UnsupportedPrefix|..];
      digits == Decimal.IntToString(code) && Decimal.ParseInt(digits) == code
  {
    Decimal.IntToStringRoundTrip(code);
    assert RedirectMessage(code)[|RedirectPrefix|..] == Decimal.IntToString(code);
    assert UnsupportedMessage(code)[|UnsupportedPrefix|..] == Decimal.IntToString(code);
  }

  /** Two different codes never produce the same rejection. */
  lemma RejectionsDistinguishCodes(e1: Exchange, e2: Exchange, parse: string -> Option<ErrorBody>)
    requires e1.Completed? && e2.Completed? && e1.statusCode != e2.statusCode
    requires !(200 <= e1.statusCode <= 299)
    ensures Classify(e1, parse) != Classify(e2, parse)
  {
    var r1, r2 := Classify(e1, parse), Classify(e2, parse);
    if r1.Redirect? && r2.Redirect? {
      assert r1.code != r2.code;
    } else if r1.Unsupported? && r2.Unsupported? {
      assert r1.code != r2.code;
    } else if r1.ErrResp? && r2.ErrResp? {
      assert r1.info.status != r2.info.status;
    }
  }
}
