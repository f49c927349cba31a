/**
 * The credential handling of `import_subscriptions.go`: reading `token.json`
 * at start-up (`tokenFromFile`, `getClient`), writing it (`saveToken`, which
 * ignores the JSON encoder's error) and the OAuth callback, which on success
 * runs the import and then cancels the context `main` created before starting the listener.
 */
module ImportFlow {
  import opened Outcomes
  import opened OAuth

  datatype LoadError = OpenError | DecodeError

  /** `tokenFromFile`: Go returns a token pointer and an error; both can be set. */
  datatype TokenRead = TokenRead(token: Option<Token>, error: Option<LoadError>)

  function TokenFromFile(file: TokenFile): (r: TokenRead)
    ensures r.token.None? <==> file.Missing?
    ensures r.error.None? <==> file.Holds?
    ensures file.Holds? ==> r.token == Some(file.token)
  {
    match file
    case Missing => TokenRead(None, Some(OpenError))
    case Undecodable => TokenRead(Some(ZeroToken), Some(DecodeError))
    case Holds(token) => TokenRead(Some(token), None)
  }

  datatype ClientError = LoadFailed(cause: LoadError) | TokenBlank

  /**
   * `getClient`: the token an HTTP client is built from. It succeeds exactly
   * when `token.json` decodes, and the "token blank" check never fires,
   * because `tokenFromFile` never returns a nil token without an error.
   */
  function GetClient(file: TokenFile): (r: Result<Token, ClientError>)
    ensures r.Success? <==> file.Holds?
    ensures r.Success? ==> r.value == file.token
    ensures r.Failure? ==> r.error != TokenBlank
  {
    var read := TokenFromFile(file);
    if read.error.Some? then Failure(LoadFailed(read.error.value))
    else if read.token.None? then Failure(TokenBlank)
    else Success(read.token.value)
  }

  /** `saveToken`: fails only when the file cannot be created; an encoding failure is not reported. */
  function SaveToken(token: Token, cond: SaveConditions, before: TokenFile): (r: SaveResult)
    ensures r.error.Some? <==> cond.createError.Some?
    ensures r.error.Some? ==> r.error.value == CacheError(cond.createError.value) && r.file == before
    ensures r.error.None? ==> (GetClient(r.file) == Success(token) <==> cond.encodeError.None?)
  {
    var file := WrittenTokenFile(token, cond, before);
    match cond.createError
    case Some(e) => SaveResult(Some(CacheError(e)), file)
    case None => SaveResult(None, file)
  }

  /**
   * `handleOAuthCallback`: an empty code is refused with 400 before anything
   * else; a failed exchange or save answers 500; only full success runs the
   * import with the new token and then cancels, in that order. The success
   * line goes to the terminal (`fmt.Println(w, ...)`), so the browser gets
   * 200 with an empty body, sent only when the handler returns, after the
   * import and the cancellation.
   */
  function HandleOAuthCallback(code: string, exchange: Exchanger, cond: SaveConditions, before: TokenFile)
    : (r: CallbackResult)
    ensures r.response.status == StatusBadRequest <==> code == ""
    ensures code == "" ==>
      r.effects == [] && r.tokenFile == before && r.response.body == CodeNotFound + "\n"
    ensures r.response.status == StatusOK <==>
      code != "" && exchange(code).Success? && cond.createError.None?
    ensures r.response.status == StatusInternalServerError <==>
      code != "" && (exchange(code).Failure? || cond.createError.Some?)
    ensures code != "" && exchange(code).Failure? ==>
      r.effects == [Exchanged(code)] && r.tokenFile == before
    ensures Cancelled in r.effects <==> r.response.status == StatusOK
    ensures r.response.status != StatusOK ==> forall e :: e in r.effects ==> !e.ImportRun?
    ensures r.response.status == StatusOK ==>
      && r.effects == [Exchanged(code), SavingCredential(TokenPath), ConfirmationPrinted,
                       ImportRun(exchange(code).value), Cancelled]
      && r.response.body == ""
      && (GetClient(r.tokenFile) == Success(exchange(code).value) <==> cond.encodeError.None?)
  {
    if code == "" then
      CallbackResult(ErrorResponse(CodeNotFound, StatusBadRequest), [], before)
    else
      match ExchangeToken(exchange, code)
      case Failure(e) =>
        CallbackResult(ErrorResponse("Failed to exchange token: " + e, StatusInternalServerError),
                       [Exchanged(code)], before)
      case Success(token) =>
        var saved := SaveToken(token, cond, before);
        var steps := [Exchanged(code), SavingCredential(TokenPath)];
        if saved.error.Some? then
          CallbackResult(ErrorResponse("Failed to save token: " + saved.error.value, StatusInternalServerError),
                         steps, saved.file)
        else
          CallbackResult(Response(StatusOK, ""),
                         steps + [ConfirmationPrinted, ImportRun(token), Cancelled], saved.file)
  }
}
