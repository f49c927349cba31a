/**
 * What the two entry points share: the OAuth token and the token file, the
 * code exchange, the effect of writing the token file, the observable steps
 * of the callback handler, and the authorization request.
 * The OAuth library (`Exchange`, `AuthCodeURL`) is not modelled: the exchange
 * is a parameter, the request is described by its state and access type.
 */
module OAuth {
  import opened Outcomes

  /** An OAuth 2.0 token as the provider issues it. */
  datatype Token = Token(accessToken: string, tokenType: string, refreshToken: string, expiry: int)

  /** The token Go's decoder starts from (`&oauth2.Token{}`). */
  const ZeroToken: Token := Token("", "", "", 0)

  /** What `token.json` holds. */
  datatype TokenFile =
    | Missing            // os.Open fails
    | Undecodable        // the JSON decoder fails (empty or partly written file)
    | Holds(token: Token)

  const TokenPath: string := "token.json"

  /** How the two file steps of `saveToken` go: `os.Create` and the JSON encoder. */
  datatype SaveConditions = SaveConditions(createError: Option<string>, encodeError: Option<string>)

  /** What `saveToken` returns, and what `token.json` holds afterwards. */
  datatype SaveResult = SaveResult(error: Option<string>, file: TokenFile)

  /** `token.json` after `saveToken`: untouched if creation fails, truncated and then rewritten otherwise. */
  function WrittenTokenFile(token: Token, cond: SaveConditions, before: TokenFile): (file: TokenFile)
    ensures cond.createError.Some? ==> file == before
    ensures cond.createError.None? ==> (file == Holds(token) <==> cond.encodeError.None?)
    ensures cond.createError.None? ==> file != Missing
  {
    if cond.createError.Some? then before
    else if cond.encodeError.None? then Holds(token)
    else Undecodable
  }

  /** The error `saveToken` reports when `os.Create` fails. */
  function CacheError(createError: string): string {
    "unable to cache oauth token: " + createError
  }

  /** `oauthConfig.Exchange`: the token for an authorization code, or an error message. */
  type Exchanger = string -> Result<Token, string>

  /** `exchangeToken`: the exchange, with its error message prefixed. */
  function ExchangeToken(exchange: Exchanger, code: string): (r: Result<Token, string>)
    ensures r.Success? <==> exchange(code).Success?
    ensures r.Success? ==> r.value == exchange(code).value
    ensures r.Failure? ==> r.error == "exchange token: " + exchange(code).error
  {
    match exchange(code)
    case Success(token) => Success(token)
    case Failure(e) => Failure("exchange token: " + e)
  }

  /** An HTTP response: status code and body. */
  datatype Response = Response(status: int, body: string)

  const StatusOK: int := 200
  const StatusBadRequest: int := 400
  const StatusInternalServerError: int := 500

  /** `http.Error(w, message, status)`: the given status, and a body that is the message followed by a newline. */
  function ErrorResponse(message: string, status: int): (r: Response)
    ensures r.status == status
    ensures |r.body| == |message| + 1 && r.body[..|message|] == message && r.body[|message|] == '\n'
  {
    Response(status, message + "\n")
  }

  const CodeNotFound: string := "Authorization code not found"

  /** The steps of a callback that are visible outside the HTTP response, in order. */
  datatype Effect =
    | Exchanged(code: string)           // oauthConfig.Exchange called with the code
    | SavingCredential(path: string)    // saveToken entered: "Saving credential file to: ..."
    | ConfirmationPrinted               // the success line printed on the terminal
    | ImportRun(token: Token)           // importSubscription run with a client for the token
    | Cancelled                         // cancel(): cancels the context main created before starting the listener

  /** What one callback request produces. */
  datatype CallbackResult = CallbackResult(response: Response, effects: seq<Effect>, tokenFile: TokenFile)

  datatype AccessType = AccessTypeOnline | AccessTypeOffline

  /** The parameters `AuthCodeURL` is called with. */
  datatype AuthCodeRequest = AuthCodeRequest(state: string, access: AccessType)

  const StateToken: string := "state-token"

  /** The arguments `getTokenFromWeb` passes to `AuthCodeURL` in both entry points: a fixed state and offline access. */
  const AuthRequest: AuthCodeRequest := AuthCodeRequest(StateToken, AccessTypeOffline)
}
