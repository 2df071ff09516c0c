/**
 * The `POST` route of src/pages/api/chat.ts: it forwards the newest message
 * to the agent's `/trends` endpoint and turns the agent's per-platform trends
 * into one Markdown text, or into a JSON error envelope.
 *
 * The network call is a parameter `fetch` from the request sent to its
 * outcome; the 25-second abort timer shows up only as the `Aborted` outcome.
 */
module ChatApi {
  import opened Optional
  import opened Strings
  import opened Messages

  /** One entry of the agent's `platformTrends` array. */
  datatype TrendEntry = TrendEntry(platform: string, trendsResponse: string)

  /**
   * The agent's JSON body. `Trends(None)` is a body whose `platformTrends` is
   * missing or falsy; `Unreadable` is one on which reading or mapping throws
   * (not JSON, `null`, or `platformTrends` truthy but not an array, or holding a
   * `null` entry).
   */
  datatype Payload = Unreadable | Trends(platformTrends: Option<seq<TrendEntry>>)

  /** How the outbound `fetch` settled. */
  datatype Outcome =
    | Aborted                                    // rejected with an AbortError by the timer
    | Failed                                     // rejected for any other reason
    | Responded(status: int, payload: Payload)   // an HTTP response arrived

  /** The outbound call: method, URL, content type and the `text` field of the JSON body. */
  datatype FetchRequest = FetchRequest(httpMethod: string, url: string, contentType: string, text: string)

  /** The route's HTTP response. */
  datatype Response = Response(status: int, contentType: string, body: string)

  /** `Uncaught`: the route threw before its `try`, so no response of its own is produced. */
  datatype Reply = Uncaught | Served(sent: FetchRequest, response: Response)

  /** Four newlines: the gap inside an entry and between entries. */
  const BlankLines: string := "\n\n\n\n"
  const TimeoutBody: string := "{\"error\":\"Request timed out\"}"
  const FailureBody: string := "{\"error\":\"Failed to fetch from agent server\"}"

  /** `process.env.AGENT_URL || ""`. */
  function BaseUrl(agentUrl: Option<string>): (base: string)
    ensures agentUrl.None? ==> base == ""
    ensures agentUrl.Some? ==> base == agentUrl.value
  {
    agentUrl.GetOr("")
  }

  /** The request sent for a transcript; none when the transcript is empty. */
  function Outbound(messages: seq<Message>, agentUrl: Option<string>): (req: Option<FetchRequest>)
    ensures req.Some? <==> messages != []
    ensures req.Some? ==> req.value.text == messages[|messages| - 1].content
    ensures req.Some? ==> req.value.url == BaseUrl(agentUrl) + "/trends"
    ensures req.Some? ==> req.value.httpMethod == "POST" && req.value.contentType == "application/json"
  {
    if |messages| == 0 then None
    else Some(FetchRequest("POST", BaseUrl(agentUrl) + "/trends", "application/json", messages[|messages| - 1].content))
  }

  /** One trend entry as Markdown: bold platform name, its text, a horizontal rule. */
  function RenderEntry(e: TrendEntry): (text: string)
    ensures |text| == |e.platform| + |e.trendsResponse| + 16
  {
    "**" + e.platform + "**:" + BlankLines + e.trendsResponse + BlankLines + "---"
  }

  /**
   * The layout of a rendered entry, position by position: the bold platform
   * name and a colon, four newlines, the entry's text, four newlines, `---`.
   */
  lemma RenderEntryLayout(e: TrendEntry)
    ensures var text, p := RenderEntry(e), |e.platform|;
      && text[..p + 5] == "**" + e.platform + "**:"
      && text[p + 5..p + 9] == BlankLines
      && text[p + 9..p + 9 + |e.trendsResponse|] == e.trendsResponse
      && text[|text| - 7..] == BlankLines + "---"
  {
  }

  /** Every entry rendered, in order. */
  function RenderAll(entries: seq<TrendEntry>): (parts: seq<string>)
    ensures |parts| == |entries|
    ensures forall i :: 0 <= i < |entries| ==> parts[i] == RenderEntry(entries[i])
  {
    if entries == [] then [] else [RenderEntry(entries[0])] + RenderAll(entries[1..])
  }

  /** The success body: the rendered entries joined by blank lines. */
  function FormatTrends(entries: seq<TrendEntry>): (text: string)
    ensures text == "" <==> entries == []
    ensures entries != [] ==> |RenderEntry(entries[0])| <= |text| && text[..|RenderEntry(entries[0])|] == RenderEntry(entries[0])
  {
    Join(RenderAll(entries), BlankLines)
  }

  /** `response.ok`. */
  function IsOk(status: int): (ok: bool)
    ensures ok <==> status / 100 == 2
  {
    200 <= status <= 299
  }

  /** The response for an outcome of the outbound call. */
  function Respond(outcome: Outcome): (r: Response)
    ensures r.status == 200 || r.status == 500 || r.status == 504
    ensures r.status == 200 <==> outcome.Responded? && IsOk(outcome.status) && outcome.payload.Trends?
    ensures r.status == 504 <==> outcome.Aborted?
    ensures r.status == 200 ==>
              r.contentType == "text/plain" && r.body == FormatTrends(outcome.payload.platformTrends.GetOr([]))
    ensures r.status == 504 ==> r.contentType == "application/json" && r.body == TimeoutBody
    ensures r.status == 500 ==> r.contentType == "application/json" && r.body == FailureBody
  {
    match outcome
    case Aborted => Response(504, "application/json", TimeoutBody)
    case Failed => Response(500, "application/json", FailureBody)
    case Responded(status, payload) =>
      if !IsOk(status) then Response(500, "application/json", FailureBody)
      else
        match payload
        case Unreadable => Response(500, "application/json", FailureBody)
        case Trends(platformTrends) =>
          Response(200, "text/plain", FormatTrends(platformTrends.GetOr([])))
  }

  /** The route: build the request, call `fetch` once with it, answer from its outcome. */
  function Handle(messages: seq<Message>, agentUrl: Option<string>, fetch: FetchRequest -> Outcome): (reply: Reply)
    ensures reply.Uncaught? <==> messages == []
    ensures reply.Served? ==> Outbound(messages, agentUrl) == Some(reply.sent)
    ensures reply.Served? ==> reply.response == Respond(fetch(reply.sent))
  {
    match Outbound(messages, agentUrl)
    case None => Uncaught
    case Some(req) => Served(req, Respond(fetch(req)))
  }

  /**
   * The agent receives exactly the newest message's content at `AGENT_URL/trends`,
   * and the route's answer is decided by that single call alone.
   */
  lemma HandleForwardsNewestMessage(messages: seq<Message>, agentUrl: Option<string>, fetch: FetchRequest -> Outcome)
    requires messages != []
    ensures var reply := Handle(messages, agentUrl, fetch);
      && reply.Served?
      && reply.sent.text == messages[|messages| - 1].content
      && reply.sent.url == agentUrl.GetOr("") + "/trends"
      && (reply.response.status == 504 <==> fetch(reply.sent).Aborted?)
  {
  }

  /** A success body is empty or starts with the `*` of a bold platform name. */
  lemma SuccessBodyStart(entries: seq<TrendEntry>)
    ensures FormatTrends(entries) == "" || FormatTrends(entries)[0] == '*'
  {
    if entries != [] {
      assert FormatTrends(entries)[0] == RenderEntry(entries[0])[0];
    }
  }

  /** A timed-out call never yields a success body, whatever the trends would have been. */
  lemma TimeoutIsNeverSuccess(outcome: Outcome)
    requires outcome.Aborted?
    ensures Respond(outcome).status == 504
    ensures forall entries :: Respond(outcome).body != FormatTrends(entries)
  {
    forall entries
      ensures Respond(outcome).body != FormatTrends(entries)
    {
      SuccessBodyStart(entries);
    }
  }

  /** Missing trends give an empty success, as do `[]` trends. */
  lemma MissingTrendsAreEmpty(status: int)
    requires IsOk(status)
    ensures Respond(Responded(status, Trends(None))) == Response(200, "text/plain", "")
    ensures Respond(Responded(status, Trends(Some([])))) == Response(200, "text/plain", "")
  {
  }

  /** Entries keep their order: the text of `a + b` is the text of `a`, a separator, the text of `b`. */
  lemma {:induction false} FormatTrendsAppend(a: seq<TrendEntry>, b: seq<TrendEntry>)
    requires a != [] && b != []
    ensures FormatTrends(a + b) == FormatTrends(a) + BlankLines + FormatTrends(b)
  {
    RenderAllAppend(a, b);
    JoinAppend(RenderAll(a), RenderAll(b), BlankLines);
  }

  lemma {:induction false} RenderAllAppend(a: seq<TrendEntry>, b: seq<TrendEntry>)
    ensures RenderAll(a + b) == RenderAll(a) + RenderAll(b)
  {
  }

  /** `k >= 1` entries produce exactly `k - 1` separators between their renderings. */
  lemma FormatTrendsLength(entries: seq<TrendEntry>)
    requires entries != []
    ensures |FormatTrends(entries)| == TotalLength(RenderAll(entries)) + (|entries| - 1) * |BlankLines|
  {
    JoinLength(RenderAll(entries), BlankLines);
  }

  /** The two-platform example: X with text A, then Y with text B. */
  lemma TwoPlatformExample()
    ensures FormatTrends([TrendEntry("X", "A"), TrendEntry("Y", "B")])
      == "**X**:\n\n\n\nA\n\n\n\n---\n\n\n\n**Y**:\n\n\n\nB\n\n\n\n---"
  {
    var x, y := TrendEntry("X", "A"), TrendEntry("Y", "B");
    var parts := [RenderEntry(x), RenderEntry(y)];
    assert RenderAll([x, y]) == parts;
    assert parts[1..] == [RenderEntry(y)];
    assert Join(parts[1..], BlankLines) == RenderEntry(y);
    assert Join(parts, BlankLines) == parts[0] + BlankLines + Join(parts[1..], BlankLines);
    assert FormatTrends([x, y]) == RenderEntry(x) + BlankLines + RenderEntry(y);
    assert RenderEntry(x) == "**X**:\n\n\n\nA\n\n\n\n---";
    assert RenderEntry(y) == "**Y**:\n\n\n\nB\n\n\n\n---";
  }
}
