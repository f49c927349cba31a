/** A worked run of the import loop, stated against its specification function. */
module ImportScenarios {
  import opened Outcomes
  import opened ChannelId
  import opened ImportLoop

  /** The rows of the worked run: a header of any content, a channel URL and a user URL. */
  predicate ScenarioInputs(rows: seq<seq<string>>, parse: UrlPathParser, subscribe: Subscriber) {
    && |rows| == 3 && DataRowsHaveUrl(rows)
    && rows[1][UrlColumn] == "/channel/UC123" && rows[2][UrlColumn] == "/user/B"
    && parse("/channel/UC123") == Some("/channel/UC123") && parse("/user/B") == Some("/user/B")
    && subscribe(1, "UC123")
  }

  /** The channel URL row subscribes; the user URL row is rejected. */
  lemma ScenarioRowEvents(rows: seq<seq<string>>, parse: UrlPathParser, subscribe: Subscriber)
    requires ScenarioInputs(rows, parse, subscribe)
    ensures RowEvent(rows, 1, parse, subscribe) == Subscribe("UC123", true)
    ensures RowEvent(rows, 2, parse, subscribe) == InvalidChannelUrl("/user/B", InvalidFormat)
  {
    ExampleChannelUrl();
    ExampleUserPathRejected();
  }

  /**
   * With URLs whose parsed paths are themselves and a service that accepts
   * the request, the run prints one subscription, one rejected row, then the
   * completion line.
   */
  lemma ExampleRun(rows: seq<seq<string>>, parse: UrlPathParser, subscribe: Subscriber)
    requires ScenarioInputs(rows, parse, subscribe)
    ensures ImportLog(true, Records(rows), parse, subscribe)
         == [Subscribe("UC123", true), InvalidChannelUrl("/user/B", InvalidFormat), Completed]
  {
    ScenarioRowEvents(rows, parse, subscribe);
    assert RowsLog(rows, 2, parse, subscribe) == [RowEvent(rows, 1, parse, subscribe)];
  }
}
