/**
 * The token-only entry point of `store_token.go`: the same callback chain,
 * but `saveToken` reports the encoder's error, success is written to the
 * browser, and nothing follows it (no import, no cancellation).
 */
module StoreToken {
  import opened Outcomes
  import opened OAuth
  import ImportFlow

  const SavedText: string := "Token successfully saved to " + TokenPath + ". You can close this window."

  /** `saveToken`: fails if the file cannot be created, and otherwise reports exactly the encoder's result. */
  function SaveToken(token: Token, cond: SaveConditions, before: TokenFile): (r: SaveResult)
    ensures cond.createError.Some? ==>
      r.error == Some(CacheError(cond.createError.value)) && r.file == before
    ensures cond.createError.None? ==> r.error == cond.encodeError
    ensures r.error.None? ==> ImportFlow.GetClient(r.file) == Success(token)
  {
    var file := WrittenTokenFile(token, cond, before);
    match cond.createError
    case Some(e) => SaveResult(Some(CacheError(e)), file)
    case None => SaveResult(cond.encodeError, file)
  }

  /**
   * `handleOAuthCallback`: an empty code is refused with 400 before the
   * exchange; a failed exchange answers 500 without saving; a failed save
   * answers 500 without the success text; the success text is written only
   * when both succeed. This variant never imports and never cancels.
   */
  function HandleOAuthCallback(code: string, exchange: Exchanger, cond: SaveConditions, before: TokenFile)
    : (r: CallbackResult)
    ensures r.response.status == StatusBadRequest <==> code == ""
    ensures code == "" ==>
      r.effects == [] && r.tokenFile == before && r.response.body == CodeNotFound + "\n"
    ensures code != "" && exchange(code).Failure? ==>
      r.response.status == StatusInternalServerError && r.effects == [Exchanged(code)] && r.tokenFile == before
    ensures r.response.status == StatusOK <==>
      code != "" && exchange(code).Success? && cond.createError.None? && cond.encodeError.None?
    ensures r.response.body == SavedText <==> r.response.status == StatusOK
    ensures r.response.status in {StatusOK, StatusBadRequest, StatusInternalServerError}
    ensures forall e :: e in r.effects ==> e.Exchanged? || e.SavingCredential?
    ensures r.response.status == StatusOK ==>
      ImportFlow.GetClient(r.tokenFile) == Success(exchange(code).value)
  {
    if code == "" then
      CallbackResult(ErrorResponse(CodeNotFound, StatusBadRequest), [], before)
    else
      match ExchangeToken(exchange, code)
      case Failure(e) =>
        FailureBodyIsNotSavedText("Failed to exchange token: ", e);
        CallbackResult(ErrorResponse("Failed to exchange token: " + e, StatusInternalServerError),
                       [Exchanged(code)], before)
      case Success(token) =>
        var saved := SaveToken(token, cond, before);
        var steps := [Exchanged(code), SavingCredential(TokenPath)];
        if saved.error.Some? then
          var response := ErrorResponse("Failed to save token: " + saved.error.value, StatusInternalServerError);
          FailureBodyIsNotSavedText("Failed to save token: ", saved.error.value);
          CallbackResult(response, steps, saved.file)
        else
          CallbackResult(Response(StatusOK, SavedText), steps, saved.file)
  }

  /** An error message starting with "Failed" is never taken for the success text. */
  lemma FailureBodyIsNotSavedText(prefix: string, detail: string)
    requires |prefix| > 0 && prefix[0] == 'F'
    ensures ErrorResponse(prefix + detail, StatusInternalServerError).body != SavedText
  {
    var body := ErrorResponse(prefix + detail, StatusInternalServerError).body;
    assert body[0] == 'F';
    assert SavedText[0] == 'T';
  }

  /**
   * The two `saveToken` copies agree except when the file is created but the
   * token cannot be encoded: there the import copy reports success and leaves
   * a `token.json` that the next start-up cannot load, while this copy
   * reports the encoder's error.
   */
  lemma SaveTokenCopiesDiffer(token: Token, cond: SaveConditions, before: TokenFile)
    ensures SaveToken(token, cond, before).file == ImportFlow.SaveToken(token, cond, before).file
    ensures SaveToken(token, cond, before) != ImportFlow.SaveToken(token, cond, before) <==>
      cond.createError.None? && cond.encodeError.Some?
    ensures cond.createError.None? && cond.encodeError.Some? ==>
      && ImportFlow.SaveToken(token, cond, before).error.None?
      && ImportFlow.GetClient(ImportFlow.SaveToken(token, cond, before).file).Failure?
  {
  }

  /**
   * The same callback, run by the two entry points, answers the same except
   * that an encoding failure is 200 (with the import run and the server
   * cancelled) in the import flow and 500 here.
   */
  lemma CallbackVariantsAgree(code: string, exchange: Exchanger, cond: SaveConditions, before: TokenFile)
    ensures var mine := HandleOAuthCallback(code, exchange, cond, before);
      var importing := ImportFlow.HandleOAuthCallback(code, exchange, cond, before);
      && mine.tokenFile == importing.tokenFile
      && (mine.response.status == importing.response.status <==>
          !(code != "" && exchange(code).Success? && cond.createError.None? && cond.encodeError.Some?))
  {
  }
}
