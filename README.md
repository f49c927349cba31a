# YouTube subscription importer — a Dafny model of its core

The importer moves a list of YouTube channel subscriptions into a user's account.
It has two entry points:

- `import_subscriptions.go` reuses the OAuth token in `token.json`, or runs the browser
  authorization flow to get one, and then replays every row of `subscriptions.csv` as one
  subscription request;
- `store_token.go` only runs the authorization flow and stores the token.

This project models the parts of both that hold decisions:

- **Channel-ID extraction** (`extractChannelID`), in modules `PathSegments` and `ChannelId`.
  The URL's path is split on `/` with Go's `strings.Split`. Segment 1 must be `channel`, and
  segment 2 is the ID. `Split` is modelled with its inverse `Join`, and both round trips are
  proved. Extraction is characterised without `Split`: a path yields `id` exactly when it reads
  `head/channel/id`, optionally followed by `/...`, where neither `head` nor `id` contains `/`.
- **The import loop** (`importSubscription`), in module `ImportLoop`. It is a method whose
  loop builds the log of printed events. The method is proved equal to a specification
  function. Lemmas about that function give the following properties:
  - data row `i` prints exactly log entry `i - 1`, so rows keep their input order;
  - every event depends only on its own row, so a failed row never stops later rows;
  - the subscribe calls are exactly the extracted IDs, in order;
  - the header row is skipped;
  - a setup failure makes no call and prints no completion line.

  `ImportScenarios` works one three-row run through.
- **The OAuth callback and the token file**, in modules `OAuth` (shared by both entry points),
  `ImportFlow` (`import_subscriptions.go`) and `StoreToken` (`store_token.go`). Each callback
  is a short-circuiting chain: empty code, then exchange, then save. Each is modelled as a
  function that returns the HTTP response, the ordered side effects and the resulting
  `token.json`. The two `saveToken` copies are modelled separately: one ignores the JSON
  encoder's error and the other reports it. Lemmas state where the two entry points differ.

External collaborators are parameters:

- `url.Parse` is a function from the URL to its path, or None on a parse error;
- the OAuth exchange is a function from the code to a token or an error;
- each YouTube subscription request is a function from the row index and the channel ID to
  accepted or refused;
- `os.Create` and the JSON encoder are the two optional errors in `SaveConditions`;
- the CSV file is what opening and reading it produced.

Behaviour of the code that is easy to miss, kept as written:

- The code checks segment 1, not the first non-empty segment. So `x/channel/A` yields `A`, and
  `//channel/A` is rejected.
- Nothing is counted or summarised after the loop. Only "Subscription process completed." is
  printed.
- The token file is not written atomically: a failed encode leaves a truncated file.
- The callback's `state` parameter is not checked.
- On success, the import variant's confirmation goes to the terminal, because it uses
  `fmt.Println(w, ...)`, not `Fprintln`. The browser gets status 200 with an empty body. The
  model records this as written.
- On success the import variant writes nothing to the response before it returns, so the implicit
  200 reaches the browser only after `importSubscription` and `cancel()` have finished: the
  browser waits through the whole import. The model's response is what the handler leaves behind
  when it returns.
- The callback's `cancel()` never stops the server: `main` stays blocked in `ListenAndServe`, so
  its wait for the cancellation and the `Shutdown` after it are not reached. The model records
  the cancellation only as the `Cancelled` effect.

## Model

| member | source | states |
|---|---|---|
| `PathSegments.Split` | import_subscriptions.go:119 | `strings.Split(path, "/")` gives at least one segment, and no segment contains `/` |
| `PathSegments.JoinSplit` | import_subscriptions.go:119 | joining the segments with `/` rebuilds the path exactly |
| `PathSegments.SplitJoin` | import_subscriptions.go:119 | splitting a join of `/`-free segments gives back exactly those segments |
| `PathSegments.SplitAtSeparator` | import_subscriptions.go:119 | a `/` splits the path into the segments on its left followed by those on its right |
| `ChannelId.ChannelIdOfPath` | import_subscriptions.go:119-124 | the only error after parsing is the invalid-format error, and a returned ID never contains `/` |
| `ChannelId.ExtractChannelID` | import_subscriptions.go:113-125 | a `url.Parse` failure gives the parse error; otherwise the result is decided by the path alone; a returned ID has no `/` |
| `ChannelId.ExtractChannelIDSpec` | import_subscriptions.go:113-125 | extraction returns `id` if and only if the URL parses and its path reads `head/channel/id[/...]` |
| `ChannelId.ChannelPathComplete` | import_subscriptions.go:119-124 | every path `head/channel/id[/...]` with `/`-free `head` and `id` yields `id` |
| `ChannelId.ChannelPathSound` | import_subscriptions.go:119-124 | every path that yields an ID has the shape `head/channel/id[/...]` |
| `ChannelId.ExampleChannelUrl` | import_subscriptions.go:119-124 | `/channel/UC123` yields `UC123` |
| `ChannelId.ExampleEmptyId` | import_subscriptions.go:119-124 | `/channel/` yields the empty ID with no error |
| `ChannelId.ExampleTrailingSegments` | import_subscriptions.go:119-124 | `/channel/A/videos` yields only `A` |
| `ChannelId.ExampleRelativeWithHead` | import_subscriptions.go:119-124 | segment 0 is not inspected, so `x/channel/A` yields `A` |
| `ChannelId.ExampleRelativeRejected` | import_subscriptions.go:119-121 | the relative path `channel/A` has two segments and is rejected |
| `ChannelId.ExampleUserPathRejected` | import_subscriptions.go:119-121 | `/user/B` is rejected |
| `ChannelId.ExampleMissingIdRejected` | import_subscriptions.go:119-121 | `/channel` is rejected |
| `ChannelId.ExampleDoubleSlashRejected` | import_subscriptions.go:119-121 | `//channel/A` is rejected, because empty segments are not skipped |
| `ImportLoop.RowEvent` | import_subscriptions.go:101-107 | a data row prints one event: a subscribe call if and only if extraction succeeds, with that ID and the service's answer for that row; otherwise the invalid-URL report with the URL and the reason |
| `ImportLoop.ImportSubscription` | import_subscriptions.go:72-111 | the loop prints exactly the log given by the specification functions `ImportLoop.ImportLog` and `ImportLoop.RowsLog` for the same service, file, parser and service answers |
| `ImportLoop.RowsLogAt` | import_subscriptions.go:97-108 | after the rows before index `k`, the log has `k - 1` events, and event `i - 1` belongs to data row `i` |
| `ImportLoop.ImportLogShape` | import_subscriptions.go:97-110 | a run over readable rows prints one event per data row in input order, each depending only on its own row, and then the completion line |
| `ImportLoop.CallsAreExtractedIds` | import_subscriptions.go:101-107 | subscribe is called once for each data row whose URL yields an ID, in order, and for no other row |
| `ImportLoop.RunCalls` | import_subscriptions.go:74-110 | a whole run calls subscribe with the extracted IDs if the service and the file are usable, and never otherwise |
| `ImportLoop.SetupFailureStopsRun` | import_subscriptions.go:74-94 | if the service, the file open or the CSV read fails, one error line is printed, with no subscribe call and no completion line |
| `ImportLoop.HeaderOnlyNoCalls` | import_subscriptions.go:97-100 | a file with only a header row, or with no rows, prints only the completion line |
| `ImportScenarios.ExampleRun` | import_subscriptions.go:97-110 | header, `/channel/UC123`, `/user/B` print one subscription, one rejected row and the completion line |
| `OAuth.WrittenTokenFile` | import_subscriptions.go:210-215 | a failed create leaves `token.json` untouched; otherwise the file holds the token if and only if encoding succeeded, and it is never missing |
| `OAuth.ErrorResponse` | store_token.go:46 | `http.Error` answers with the given status and a body that is the message followed by one newline |
| `OAuth.ExchangeToken` | store_token.go:66-72 | the exchange succeeds exactly when the provider's exchange does, with its token; an error is prefixed `exchange token: ` |
| `ImportFlow.TokenFromFile` | import_subscriptions.go:157-166 | no token only when the file is missing; no error only when it decodes; a decodable file gives its token |
| `ImportFlow.GetClient` | import_subscriptions.go:145-155 | a client exists exactly when `token.json` decodes, built from that token; the "token blank" error is never returned |
| `ImportFlow.SaveToken` | import_subscriptions.go:208-217 | fails exactly when the file cannot be created; on reported success the token can be loaded again only if encoding succeeded |
| `ImportFlow.HandleOAuthCallback` | import_subscriptions.go:173-198 | empty code means 400 with no effect; an exchange or save failure means 500 with no import and no cancel; only full success runs the import with the new token, then cancels; the 200 with an empty body is sent when the handler returns |
| `StoreToken.SaveToken` | store_token.go:74-82 | a create failure is reported with the file untouched; otherwise the encoder's result is returned; reported success means the token loads back |
| `StoreToken.HandleOAuthCallback` | store_token.go:43-64 | empty code means 400 before any exchange; an exchange failure means 500 with no save; success text is written only when exchange and save both succeed; never an import or a cancel |
| `StoreToken.SaveTokenCopiesDiffer` | store_token.go:74-82 | the two `saveToken` copies write the same file and differ only when creation succeeds and encoding fails; there the import copy reports success over a file that cannot be loaded |
| `StoreToken.CallbackVariantsAgree` | store_token.go:43-64 | the two callbacks leave the same `token.json` and answer with the same status, except when only encoding fails |

## Left out

- Both `main` functions: reading `client_secret.json`, `ConfigFromJSON`, handler registration, `ListenAndServe`, waiting for cancellation and the 5-second `server.Shutdown`. They are process, network and concurrency plumbing ending in `log.Fatalf`.
- The OAuth library (`Exchange`, `AuthCodeURL`, `config.Client`) and the YouTube API (`NewService`, `Subscriptions.Insert(...).Do()`) are foreign network code. They appear only as success or failure results given to the model.
- `encoding/csv`, `encoding/json` and `os` are not modelled. The CSV file is given as its rows or as an open or read failure. `token.json` is one of missing, undecodable, or holding a token.
- `url.Parse` is not modelled. A parameter gives the parsed path, or the absence of one on a parse error. Percent-decoding and similar details belong to that parameter.
- `ImportLoop.ImportSubscription` requires every data row to have a second column. Go indexes `record[1]` and would panic on a shorter row, and the model does not represent the panic.
- `ImportLoop.RowEvent`: the request body (part `snippet`, kind `youtube#channel`) is not modelled. The event carries only the channel ID and whether the request succeeded.
- `ImportLoop.ImportSubscription`: the exact wording and `%v` formatting of the printed lines are not modelled. Each line is an event that carries its data.
- `ImportFlow.TokenFromFile`: when decoding fails, Go returns a partly decoded token together with the error. The model returns the zero token in its place.
- `ImportFlow.HandleOAuthCallback`: the `importSubscription` run inside the callback is one effect carrying the token. Its own log is the subject of `ImportLoop`.
- `getTokenFromWeb` (store_token.go:84-87, import_subscriptions.go:168-171) is recorded only by its two fixed arguments, the constant `OAuth.AuthRequest` (state `state-token`, offline access). The URL that `AuthCodeURL` builds and the printing of it are not modelled.
- Printing to the terminal outside the import log, such as "Saving credential file to", is recorded only as the `SavingCredential` and `ConfirmationPrinted` effects.
