/**
 * `extractChannelID`: the channel ID of a channel URL is the third `/`-separated
 * segment of the URL's path, provided the second segment is `channel`.
 * Parsing the URL is Go's `url.Parse`, which is not modelled: it is a parameter
 * that yields the parsed path, or None when parsing fails.
 */
module ChannelId {
  import opened Outcomes
  import opened PathSegments

  /** Why no channel ID could be extracted. */
  datatype ExtractError =
    | ParseError     // url.Parse rejected the string
    | InvalidFormat  // "invalid channel URL format"

  /** `url.Parse(s).Path`, or None when `url.Parse` returns an error. */
  type UrlPathParser = string -> Option<string>

  const ChannelSegment: string := "channel"

  /** The part of `extractChannelID` that works on the parsed path. */
  function ChannelIdOfPath(path: string): (r: Result<string, ExtractError>)
    ensures r.Failure? ==> r.error == InvalidFormat
    ensures r.Success? ==> '/' !in r.value
  {
    var segments := Split(path, '/');
    if |segments| < 3 || segments[1] != ChannelSegment then Failure(InvalidFormat)
    else Success(segments[2])
  }

  /** The channel ID of a channel URL, or why there is none. */
  function ExtractChannelID(channelUrl: string, parse: UrlPathParser): (r: Result<string, ExtractError>)
    ensures parse(channelUrl).None? ==> r == Failure(ParseError)
    ensures parse(channelUrl).Some? ==> r == ChannelIdOfPath(parse(channelUrl).value)
    ensures r.Success? ==> '/' !in r.value
  {
    match parse(channelUrl)
    case None => Failure(ParseError)
    case Some(path) => ChannelIdOfPath(path)
  }

  /**
   * A channel URL yields `id` exactly when it parses and its path reads
   * `head/channel/id`, optionally followed by `/...`.
   */
  lemma ExtractChannelIDSpec(channelUrl: string, parse: UrlPathParser, id: string)
    ensures ExtractChannelID(channelUrl, parse) == Success(id) <==>
      parse(channelUrl).Some? && exists head, tail :: IsChannelPath(parse(channelUrl).value, head, id, tail)
  {
    if parse(channelUrl).Some? {
      var path := parse(channelUrl).value;
      if ChannelIdOfPath(path) == Success(id) {
        ChannelPathSound(path, id);
      } else {
        forall head, tail | IsChannelPath(path, head, id, tail) ensures false {
          ChannelPathComplete(path, head, id, tail);
        }
      }
    }
  }

  /**
   * `path` reads `head/channel/id` followed by nothing or by a further `/...`,
   * where neither `head` nor `id` contains a `/`. This describes the accepted
   * paths without `Split`.
   */
  predicate IsChannelPath(path: string, head: string, id: string, tail: string) {
    && '/' !in head
    && '/' !in id
    && (tail == [] || tail[0] == '/')
    && path == head + ("/" + (ChannelSegment + ("/" + (id + tail))))
  }

  /** The first segment of `id + tail` is `id` when `tail` is empty or starts a new segment. */
  lemma FirstSegment(id: string, tail: string)
    requires '/' !in id
    requires tail == [] || tail[0] == '/'
    ensures Split(id + tail, '/')[0] == id
  {
    SplitWithoutSeparator(id, '/');
    if tail != [] {
      assert id + tail == id + ['/'] + tail[1..];
      SplitAtSeparator(id, tail[1..], '/');
    } else {
      assert id + tail == id;
    }
  }

  /** The segments of `head/channel/rest`: `head`, `channel`, then those of `rest`. */
  lemma SplitChannelPrefix(head: string, rest: string)
    requires '/' !in head
    ensures Split(head + ("/" + (ChannelSegment + ("/" + rest))), '/') == [head, ChannelSegment] + Split(rest, '/')
  {
    assert '/' !in ChannelSegment;
    SplitLeadingSegment(ChannelSegment, rest, '/');
    SplitLeadingSegment(head, ChannelSegment + ("/" + rest), '/');
  }

  /** Every path of the shape `head/channel/id[/...]` yields `id`. */
  lemma ChannelPathComplete(path: string, head: string, id: string, tail: string)
    requires IsChannelPath(path, head, id, tail)
    ensures ChannelIdOfPath(path) == Success(id)
  {
    SplitChannelPrefix(head, id + tail);
    FirstSegment(id, tail);
    var segments := Split(path, '/');
    assert segments[1] == ChannelSegment && segments[2] == id;
  }

  /** Every path that yields an ID has the shape `head/channel/id[/...]`. */
  lemma ChannelPathSound(path: string, id: string)
    requires ChannelIdOfPath(path) == Success(id)
    ensures exists head, tail :: IsChannelPath(path, head, id, tail)
  {
    var segments := Split(path, '/');
    JoinSplit(path, '/');
    assert segments[0..] == segments;
    var tail := if |segments| == 3 then "" else "/" + Join(segments[3..], '/');
    JoinFrom(segments, 2, '/');
    JoinFrom(segments, 1, '/');
    JoinFrom(segments, 0, '/');
    assert path == segments[0] + ("/" + (ChannelSegment + ("/" + (id + tail))));
    assert IsChannelPath(path, segments[0], id, tail);
  }

  /** `/channel/UC123` yields `UC123`. */
  lemma ExampleChannelUrl()
    ensures ChannelIdOfPath("/channel/UC123") == Success("UC123")
  {
    ChannelPathComplete("/channel/UC123", "", "UC123", "");
  }

  /** `/channel/` yields the empty ID without an error. */
  lemma ExampleEmptyId()
    ensures ChannelIdOfPath("/channel/") == Success("")
  {
  }

  /** Only the segment right after `channel` is returned. */
  lemma ExampleTrailingSegments()
    ensures ChannelIdOfPath("/channel/A/videos") == Success("A")
  {
    ChannelPathComplete("/channel/A/videos", "", "A", "/videos");
  }

  /** The segment before `channel` is not inspected, so a relative `x/channel/A` is accepted. */
  lemma ExampleRelativeWithHead()
    ensures ChannelIdOfPath("x/channel/A") == Success("A")
  {
    ChannelPathComplete("x/channel/A", "x", "A", "");
  }

  /** A relative `channel/A` has only two segments and is rejected. */
  lemma ExampleRelativeRejected()
    ensures ChannelIdOfPath("channel/A") == Failure(InvalidFormat)
  {
  }

  /** A path without a `channel` segment is rejected. */
  lemma ExampleUserPathRejected()
    ensures ChannelIdOfPath("/user/B") == Failure(InvalidFormat)
  {
  }

  /** `/channel` with no ID segment is rejected. */
  lemma ExampleMissingIdRejected()
    ensures ChannelIdOfPath("/channel") == Failure(InvalidFormat)
  {
  }

  /** An empty segment before `channel` (`//channel/A`) is not skipped: rejected. */
  lemma ExampleDoubleSlashRejected()
    ensures ChannelIdOfPath("//channel/A") == Failure(InvalidFormat)
  {
  }
}
