/**
 * `importSubscription`: create the YouTube service, read every row of
 * `subscriptions.csv`, skip the header row, and for each data row extract the
 * channel ID from the second column and ask the service to subscribe to it.
 * A row that fails either step is reported and the loop moves on.
 *
 * What the program prints is modelled as a log of events. The service, the
 * CSV file and the subscription request are parameters: whether the service
 * could be created, what reading the file produced, and which requests the
 * remote side accepts.
 */
module ImportLoop {
  import opened Outcomes
  import opened ChannelId

  /** What opening and reading `subscriptions.csv` produced. */
  datatype CsvFile =
    | CannotOpen                          // os.Open failed
    | CannotRead                          // csv.Reader.ReadAll failed
    | Records(rows: seq<seq<string>>)     // every row, header included

  /** One line of the program's output, in the order printed. */
  datatype Event =
    | ServiceCreationFailed                                  // "Unable to create YouTube service"
    | CsvOpenFailed                                          // "Unable to open CSV file"
    | CsvReadFailed                                          // "Unable to read CSV file"
    | InvalidChannelUrl(channelUrl: string, reason: ExtractError)  // "Invalid channel URL"
    | Subscribe(channelId: string, accepted: bool)           // one Subscriptions.Insert call and its report
    | Completed                                              // "Subscription process completed."

  /**
   * Whether the subscription request for `channelId`, sent while processing
   * the row at index `row`, succeeds. Each row sends at most one request, so
   * this covers every pattern of remote answers.
   */
  type Subscriber = (nat, string) -> bool

  /** The channel URL column of a row (`record[1]`). */
  const UrlColumn: nat := 1

  /** Every data row has the column the loop reads; Go would panic otherwise. */
  predicate DataRowsHaveUrl(rows: seq<seq<string>>) {
    forall i :: 1 <= i < |rows| ==> |rows[i]| > UrlColumn
  }

  /** The single event printed for data row `i`. */
  function RowEvent(rows: seq<seq<string>>, i: nat, parse: UrlPathParser, subscribe: Subscriber): (e: Event)
    requires 1 <= i < |rows| && DataRowsHaveUrl(rows)
    ensures e.Subscribe? || e.InvalidChannelUrl?
    ensures e.Subscribe? <==> ExtractChannelID(rows[i][UrlColumn], parse).Success?
    ensures e.Subscribe? ==>
      e.channelId == ExtractChannelID(rows[i][UrlColumn], parse).value && e.accepted == subscribe(i, e.channelId)
    ensures e.InvalidChannelUrl? ==>
      e.channelUrl == rows[i][UrlColumn] && e.reason == ExtractChannelID(rows[i][UrlColumn], parse).error
  {
    var channelUrl := rows[i][UrlColumn];
    match ExtractChannelID(channelUrl, parse)
    case Failure(reason) => InvalidChannelUrl(channelUrl, reason)
    case Success(channelId) => Subscribe(channelId, subscribe(i, channelId))
  }

  /** The events printed for the rows before index `k`; row 0 is the header and prints nothing. */
  function RowsLog(rows: seq<seq<string>>, k: nat, parse: UrlPathParser, subscribe: Subscriber): seq<Event>
    requires k <= |rows| && DataRowsHaveUrl(rows)
  {
    if k <= 1 then []
    else RowsLog(rows, k - 1, parse, subscribe) + [RowEvent(rows, k - 1, parse, subscribe)]
  }

  /** Everything `importSubscription` prints, given its inputs. */
  function ImportLog(serviceCreated: bool, csv: CsvFile, parse: UrlPathParser, subscribe: Subscriber): seq<Event>
    requires csv.Records? ==> DataRowsHaveUrl(csv.rows)
  {
    if !serviceCreated then [ServiceCreationFailed]
    else match csv
      case CannotOpen => [CsvOpenFailed]
      case CannotRead => [CsvReadFailed]
      case Records(rows) => RowsLog(rows, |rows|, parse, subscribe) + [Completed]
  }

  /** The row loop, run step by step. */
  method ImportSubscription(serviceCreated: bool, csv: CsvFile, parse: UrlPathParser, subscribe: Subscriber)
    returns (log: seq<Event>)
    requires csv.Records? ==> DataRowsHaveUrl(csv.rows)
    ensures log == ImportLog(serviceCreated, csv, parse, subscribe)
  {
    if !serviceCreated {
      return [ServiceCreationFailed];
    }
    if csv.CannotOpen? {
      return [CsvOpenFailed];
    }
    if csv.CannotRead? {
      return [CsvReadFailed];
    }
    var rows := csv.rows;
    log := [];
    for i := 0 to |rows|
      invariant log == RowsLog(rows, i, parse, subscribe)
    {
      if i == 0 {
        continue;
      }
      var channelUrl := rows[i][UrlColumn];
      var extracted := ExtractChannelID(channelUrl, parse);
      if extracted.Failure? {
        log := log + [InvalidChannelUrl(channelUrl, extracted.error)];
        continue;
      }
      var channelId := extracted.value;
      log := log + [Subscribe(channelId, subscribe(i, channelId))];
    }
    log := log + [Completed];
  }

  /** Data row `i` (header excluded) prints exactly the event at position `i - 1`. */
  lemma {:induction false} RowsLogAt(rows: seq<seq<string>>, k: nat, parse: UrlPathParser, subscribe: Subscriber)
    requires 1 <= k <= |rows| && DataRowsHaveUrl(rows)
    ensures |RowsLog(rows, k, parse, subscribe)| == k - 1
    ensures forall i :: 1 <= i < k ==> RowsLog(rows, k, parse, subscribe)[i - 1] == RowEvent(rows, i, parse, subscribe)
  {
    if k > 1 {
      RowsLogAt(rows, k - 1, parse, subscribe);
    }
  }

  /**
   * A run over readable rows prints one event per data row, in input order,
   * each depending only on its own row, and then the completion line. So a
   * failed extraction or a refused subscription never stops the rows after it,
   * and the header row, whatever it holds, prints nothing.
   */
  lemma ImportLogShape(csv: CsvFile, parse: UrlPathParser, subscribe: Subscriber)
    requires csv.Records? && DataRowsHaveUrl(csv.rows)
    ensures var log := ImportLog(true, csv, parse, subscribe);
      && |log| == (if |csv.rows| == 0 then 1 else |csv.rows|)
      && log[|log| - 1] == Completed
      && forall i :: 1 <= i < |csv.rows| ==> log[i - 1] == RowEvent(csv.rows, i, parse, subscribe)
  {
    if |csv.rows| > 0 {
      RowsLogAt(csv.rows, |csv.rows|, parse, subscribe);
    }
  }

  /** The channel IDs sent to the subscribe call, in order. */
  function Calls(log: seq<Event>): (ids: seq<string>)
    ensures |ids| <= |log|
  {
    if log == [] then []
    else (if log[0].Subscribe? then [log[0].channelId] else []) + Calls(log[1..])
  }

  /** The IDs of the data rows before index `k` whose URL yields one, in order. */
  function ExtractedIds(rows: seq<seq<string>>, k: nat, parse: UrlPathParser): seq<string>
    requires k <= |rows| && DataRowsHaveUrl(rows)
  {
    if k <= 1 then []
    else
      var extracted := ExtractChannelID(rows[k - 1][UrlColumn], parse);
      ExtractedIds(rows, k - 1, parse) + (if extracted.Success? then [extracted.value] else [])
  }

  lemma {:induction false} CallsAppend(a: seq<Event>, b: seq<Event>)
    ensures Calls(a + b) == Calls(a) + Calls(b)
    decreases |a|
  {
    if a != [] {
      assert (a + b)[1..] == a[1..] + b;
      CallsAppend(a[1..], b);
    } else {
      assert a + b == b;
    }
  }

  /**
   * Subscribe is called once for each data row whose URL yields a channel ID,
   * in input order, and for no other row; the answers of earlier calls do not
   * matter.
   */
  lemma {:induction false} CallsAreExtractedIds(rows: seq<seq<string>>, k: nat, parse: UrlPathParser, subscribe: Subscriber)
    requires k <= |rows| && DataRowsHaveUrl(rows)
    ensures Calls(RowsLog(rows, k, parse, subscribe)) == ExtractedIds(rows, k, parse)
  {
    if k > 1 {
      CallsAreExtractedIds(rows, k - 1, parse, subscribe);
      var e := RowEvent(rows, k - 1, parse, subscribe);
      CallsAppend(RowsLog(rows, k - 1, parse, subscribe), [e]);
      assert Calls([e]) == (if e.Subscribe? then [e.channelId] else []);
    }
  }

  /** The subscribe calls of a whole run: none unless the service and the file are usable. */
  lemma RunCalls(serviceCreated: bool, csv: CsvFile, parse: UrlPathParser, subscribe: Subscriber)
    requires csv.Records? ==> DataRowsHaveUrl(csv.rows)
    ensures Calls(ImportLog(serviceCreated, csv, parse, subscribe)) ==
      if serviceCreated && csv.Records? then ExtractedIds(csv.rows, |csv.rows|, parse) else []
  {
    var log := ImportLog(serviceCreated, csv, parse, subscribe);
    if serviceCreated && csv.Records? {
      var rows := csv.rows;
      CallsAreExtractedIds(rows, |rows|, parse, subscribe);
      CallsAppend(RowsLog(rows, |rows|, parse, subscribe), [Completed]);
      assert Calls([Completed]) == [];
    } else {
      assert Calls(log[1..]) == [];
    }
  }

  /**
   * If the service cannot be created or the file cannot be opened or read,
   * one error line is printed: no subscribe call and no completion line.
   */
  lemma SetupFailureStopsRun(serviceCreated: bool, csv: CsvFile, parse: UrlPathParser, subscribe: Subscriber)
    requires csv.Records? ==> DataRowsHaveUrl(csv.rows)
    requires !serviceCreated || !csv.Records?
    ensures var log := ImportLog(serviceCreated, csv, parse, subscribe);
      |log| == 1 && Completed !in log && Calls(log) == []
  {
  }

  /** A file holding only its header row (or nothing) leads to no subscribe call. */
  lemma HeaderOnlyNoCalls(rows: seq<seq<string>>, parse: UrlPathParser, subscribe: Subscriber)
    requires |rows| <= 1
    ensures ImportLog(true, Records(rows), parse, subscribe) == [Completed]
  {
  }
}
