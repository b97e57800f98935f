/**
 * The web-search tool of lib/agents/tools/search.tsx.
 *
 * `tavilySearch` is modelled as the pure function TavilySearch: it shapes the
 * outbound request, hands it to the provider (a function parameter standing for
 * the HTTP round trip) and normalises the reply. The tool's `execute` is the
 * method SearchChannel.Execute over the tool's shared UI slot and one call's
 * streamable value.
 */
module Search {
  import opened Wrappers
  import opened Utils
  import opened SeqFacts

  // ---------------------------------------------------------------------------
  // Data
  // ---------------------------------------------------------------------------

  datatype SearchDepth = Basic | Advanced

  /** The parameters the agent passes to `execute`; `None` is `undefined`. */
  datatype ToolArgs = ToolArgs(
    query: string,
    maxResults: Option<int>,
    searchDepth: Option<SearchDepth>,
    includeDomains: Option<seq<string>>,
    excludeDomains: Option<seq<string>>)

  /** The JSON body posted to the provider. */
  datatype ProviderRequest = ProviderRequest(
    apiKey: string,
    query: string,
    maxResults: int,
    searchDepth: SearchDepth,
    includeImages: bool,
    includeImageDescriptions: bool,
    includeAnswers: bool,
    includeDomains: seq<string>,
    excludeDomains: seq<string>)

  /** A provider result record, passed through untouched. */
  datatype ResultRecord = ResultRecord(fields: map<string, string>)

  /** An image entry as the provider sends it; `description` may be missing. */
  datatype RawImage = RawImage(url: string, description: Option<string>)

  /** An image of the canonical result: a bare URL or a URL with its description. */
  datatype SearchResultImage = Bare(url: string) | Described(url: string, description: string)

  /**
   * The provider's JSON body: the fields the tool looks at or echoes, and every
   * other property (`answer`, timings, ...) as an opaque map.
   */
  datatype ProviderBody = ProviderBody(
    results: seq<ResultRecord>,
    images: seq<RawImage>,
    query: Option<string>,
    numberOfResults: Option<int>,
    others: map<string, string>)

  /** The canonical result returned to the agent and streamed to the UI. */
  datatype SearchResults = SearchResults(
    results: seq<ResultRecord>,
    images: seq<SearchResultImage>,
    query: Option<string>,
    numberOfResults: Option<int>,
    others: map<string, string>)

  /**
   * What the HTTP round trip yields: a response with its `ok` flag, status and
   * parsed body, or an exception thrown by `fetch` or `response.json()`.
   */
  datatype ProviderReply =
    | Response(ok: bool, status: int, statusText: string, body: ProviderBody)
    | Thrown(reason: string)

  /** The three ways `tavilySearch` throws. */
  datatype SearchError = MissingApiKey | HttpError(status: int, statusText: string) | TransportError(reason: string)

  /** A call of `tavilySearch`: the request it sent, if any, and what it returned or threw. */
  datatype SearchAttempt = SearchAttempt(sent: Option<ProviderRequest>, outcome: Result<SearchResults, SearchError>)

  // ---------------------------------------------------------------------------
  // Request shaping
  // ---------------------------------------------------------------------------

  /** The provider rejects queries shorter than this. */
  const MinQueryLength: nat := 5
  /** The default of `tavilySearch`'s `maxResults` parameter. */
  const DefaultMaxResults: int := 10
  /** The least `max_results` ever sent. */
  const MinMaxResults: int := 5

  /** `' '.repeat(n)` */
  function Spaces(n: nat): (r: string)
    ensures |r| == n && forall i :: 0 <= i < n ==> r[i] == ' '
  {
    seq(n, _ => ' ')
  }

  /**
   * The query actually sent: one shorter than five characters (its raw length,
   * not trimmed) is right-padded with spaces to exactly five.
   */
  function FillQuery(query: string): (r: string)
    ensures |r| == if |query| < MinQueryLength then MinQueryLength else |query|
    ensures r[..|query|] == query
    ensures forall i :: |query| <= i < |r| ==> r[i] == ' '
  {
    if |query| < MinQueryLength then query + Spaces(MinQueryLength - |query|) else query
  }

  /** Padding an already padded query changes nothing. */
  lemma FillQueryIdempotent(query: string)
    ensures FillQuery(FillQuery(query)) == FillQuery(query)
  {
  }

  /** `search_depth || 'basic'` */
  function EffectiveDepth(depth: Option<SearchDepth>): (r: SearchDepth)
    ensures depth.None? ==> r == Basic
    ensures depth.Some? ==> r == depth.value
  {
    depth.GetOr(Basic)
  }

  /** `Math.max` */
  function Max(a: int, b: int): int {
    if a < b then b else a
  }

  /** `Math.max(maxResults, 5)` with `maxResults` defaulting to 10. */
  function MaxResultsSent(maxResults: Option<int>): (r: int)
    ensures r >= MinMaxResults
    ensures maxResults.None? ==> r == DefaultMaxResults
    ensures maxResults.Some? && maxResults.value >= MinMaxResults ==> r == maxResults.value
    ensures maxResults.Some? && maxResults.value < MinMaxResults ==> r == MinMaxResults
  {
    Max(maxResults.GetOr(DefaultMaxResults), MinMaxResults)
  }

  /** `!apiKey` is false: the key is defined and not the empty string. */
  predicate ApiKeyPresent(apiKey: Option<string>) {
    apiKey.Some? && apiKey.value != ""
  }

  /** The body `tavilySearch` posts, with its parameter defaults applied. */
  function BuildRequest(
    apiKey: string, query: string, maxResults: Option<int>, searchDepth: Option<SearchDepth>,
    includeDomains: Option<seq<string>>, excludeDomains: Option<seq<string>>): (req: ProviderRequest)
    ensures req.apiKey == apiKey && req.query == query
    ensures req.maxResults == MaxResultsSent(maxResults) && req.searchDepth == EffectiveDepth(searchDepth)
    ensures req.includeImages && req.includeImageDescriptions && req.includeAnswers
    ensures req.includeDomains == includeDomains.GetOr([]) && req.excludeDomains == excludeDomains.GetOr([])
  {
    ProviderRequest(
      apiKey, query, MaxResultsSent(maxResults), searchDepth.GetOr(Basic),
      true, true, true, includeDomains.GetOr([]), excludeDomains.GetOr([]))
  }

  // ---------------------------------------------------------------------------
  // Image normalisation
  // ---------------------------------------------------------------------------

  /** The `map` step: the URL goes through `sanitizeUrl`, the description is kept. */
  function SanitizeImages(images: seq<RawImage>): (r: seq<RawImage>)
    ensures |r| == |images|
    ensures forall i :: 0 <= i < |r| ==> r[i] == RawImage(SanitizeUrl(images[i].url), images[i].description)
  {
    seq(|images|, i requires 0 <= i < |images| => images[i].(url := SanitizeUrl(images[i].url)))
  }

  /** The `filter` guard: the description is neither `undefined` nor `''`. */
  predicate HasDescription(image: RawImage) {
    image.description.Some? && image.description.value != ""
  }

  /** The `filter` step, which also narrows each kept entry to a described image. */
  function KeepDescribed(images: seq<RawImage>): (r: seq<SearchResultImage>)
    ensures |r| <= |images|
    ensures forall j :: 0 <= j < |r| ==> r[j].Described? && r[j].description != ""
  {
    if images == [] then []
    else
      var head := if HasDescription(images[0]) then [Described(images[0].url, images[0].description.value)] else [];
      head + KeepDescribed(images[1..])
  }

  /** The processed `images` of `tavilySearch`: map with `sanitizeUrl`, then filter. */
  function ProcessImages(images: seq<RawImage>): (r: seq<SearchResultImage>)
    ensures |r| <= |images|
    ensures forall j :: 0 <= j < |r| ==> r[j].Described? && r[j].description != ""
  {
    KeepDescribed(SanitizeImages(images))
  }

  /**
   * The positions from `from` on, in increasing order, of the entries that have
   * a description: the reference against which ProcessImages is proved.
   */
  function DescribedFrom(images: seq<RawImage>, from: nat): (idx: seq<nat>)
    requires from <= |images|
    ensures forall j :: 0 <= j < |idx| ==> from <= idx[j] < |images| && HasDescription(images[idx[j]])
    ensures forall j, k :: 0 <= j < k < |idx| ==> idx[j] < idx[k]
    ensures forall i :: from <= i < |images| && HasDescription(images[i]) ==> i in idx
    decreases |images| - from
  {
    if from == |images| then []
    else (if HasDescription(images[from]) then [from] else []) + DescribedFrom(images, from + 1)
  }

  /**
   * The image pipeline keeps exactly the entries that have a description, in
   * their original order, each with its description and its sanitised URL.
   */
  lemma {:induction false} ProcessImagesSelects(images: seq<RawImage>, from: nat)
    requires from <= |images|
    ensures var idx := DescribedFrom(images, from);
      && |ProcessImages(images[from..])| == |idx|
      && forall j :: 0 <= j < |idx| ==>
           ProcessImages(images[from..])[j] == Described(SanitizeUrl(images[idx[j]].url), images[idx[j]].description.value)
    decreases |images| - from
  {
    if from < |images| {
      var idx, rest := DescribedFrom(images, from), DescribedFrom(images, from + 1);
      var out, restOut := ProcessImages(images[from..]), ProcessImages(images[from + 1..]);
      ProcessImagesSelects(images, from + 1);
      SuffixTail(images, from);
      ProcessImagesStep(images[from..]);
      if HasDescription(images[from]) {
        assert idx == [from] + rest;
        assert out == [Described(SanitizeUrl(images[from].url), images[from].description.value)] + restOut;
        forall j | 0 < j < |idx|
          ensures out[j] == Described(SanitizeUrl(images[idx[j]].url), images[idx[j]].description.value)
        {
          assert idx[j] == rest[j - 1] && out[j] == restOut[j - 1];
        }
      } else {
        assert idx == rest;
        ConcatEmpty(restOut);
      }
    }
  }

  /** One step of the pipeline: the first entry is handled, then the rest. */
  lemma ProcessImagesStep(images: seq<RawImage>)
    requires images != []
    ensures ProcessImages(images) ==
      (if HasDescription(images[0]) then [Described(SanitizeUrl(images[0].url), images[0].description.value)] else [])
      + ProcessImages(images[1..])
  {
    var mapped := SanitizeImages(images);
    assert mapped[1..] == SanitizeImages(images[1..]);
  }

  /** The pipeline works entry by entry: it distributes over concatenation. */
  lemma {:induction false} ProcessImagesAppend(a: seq<RawImage>, b: seq<RawImage>)
    ensures ProcessImages(a + b) == ProcessImages(a) + ProcessImages(b)
    decreases |a|
  {
    if a == [] {
      ConcatEmpty(b);
      ConcatEmpty(ProcessImages(b));
    } else {
      ConcatHead(a, b);
      ProcessImagesStep(a + b);
      ProcessImagesStep(a);
      ProcessImagesAppend(a[1..], b);
      var head := if HasDescription(a[0]) then [Described(SanitizeUrl(a[0].url), a[0].description.value)] else [];
      ConcatAssoc(head, ProcessImages(a[1..]), ProcessImages(b));
    }
  }

  /** The provider body with only its `images` replaced (`{...data, images}`). */
  function Normalize(body: ProviderBody): (r: SearchResults)
    ensures r.results == body.results && r.query == body.query
    ensures r.numberOfResults == body.numberOfResults && r.others == body.others
    ensures r.images == ProcessImages(body.images)
  {
    SearchResults(body.results, ProcessImages(body.images), body.query, body.numberOfResults, body.others)
  }

  // ---------------------------------------------------------------------------
  // tavilySearch
  // ---------------------------------------------------------------------------

  /** Every image of a result handed to the agent carries a non-empty description. */
  predicate WellFormed(r: SearchResults) {
    forall j :: 0 <= j < |r.images| ==> r.images[j].Described? && r.images[j].description != ""
  }

  /** What `tavilySearch` makes of the provider's reply. */
  function HandleReply(reply: ProviderReply): (r: Result<SearchResults, SearchError>)
    ensures r.Success? <==> reply.Response? && reply.ok
    ensures r.Success? ==> r.value == Normalize(reply.body) && WellFormed(r.value)
    ensures reply.Response? && !reply.ok ==> r == Failure(HttpError(reply.status, reply.statusText))
  {
    match reply
    case Thrown(reason) => Failure(TransportError(reason))
    case Response(ok, status, statusText, body) =>
      if !ok then Failure(HttpError(status, statusText)) else Success(Normalize(body))
  }

  /**
   * `tavilySearch`: without an API key it throws before any request is sent;
   * otherwise it sends one request and either throws or returns the normalised body.
   */
  function TavilySearch(
    apiKey: Option<string>, query: string, maxResults: Option<int>, searchDepth: Option<SearchDepth>,
    includeDomains: Option<seq<string>>, excludeDomains: Option<seq<string>>,
    provider: ProviderRequest -> ProviderReply): (a: SearchAttempt)
    ensures a.sent.None? <==> !ApiKeyPresent(apiKey)
    ensures a.sent.None? ==> a.outcome == Failure(MissingApiKey)
    ensures a.sent.Some? ==>
      && a.sent.value == BuildRequest(apiKey.value, query, maxResults, searchDepth, includeDomains, excludeDomains)
      && a.outcome == HandleReply(provider(a.sent.value))
    ensures a.outcome.Success? ==> WellFormed(a.outcome.value)
  {
    if !ApiKeyPresent(apiKey) then SearchAttempt(None, Failure(MissingApiKey))
    else
      var request := BuildRequest(apiKey.value, query, maxResults, searchDepth, includeDomains, excludeDomains);
      SearchAttempt(Some(request), HandleReply(provider(request)))
  }

  // ---------------------------------------------------------------------------
  // execute
  // ---------------------------------------------------------------------------

  /** The call of `tavilySearch` that `execute` makes. */
  function Attempt(args: ToolArgs, apiKey: Option<string>, provider: ProviderRequest -> ProviderReply): SearchAttempt {
    TavilySearch(
      apiKey, FillQuery(args.query), args.maxResults, Some(EffectiveDepth(args.searchDepth)),
      args.includeDomains, args.excludeDomains, provider)
  }

  /** The result built in the `catch` block. */
  function Degraded(filledQuery: string): SearchResults {
    SearchResults([], [], Some(filledQuery), Some(0), map[])
  }

  /**
   * What `execute` returns: the search result, or, whatever `tavilySearch`
   * threw, the empty result echoing the padded query. It never throws.
   */
  function ToolResult(args: ToolArgs, apiKey: Option<string>, provider: ProviderRequest -> ProviderReply): (r: SearchResults)
    ensures WellFormed(r)
    ensures Attempt(args, apiKey, provider).outcome.Failure? ==>
      && r.results == [] && r.images == []
      && r.numberOfResults == Some(0) && r.query == Some(FillQuery(args.query))
      && r.others == map[]
    ensures Attempt(args, apiKey, provider).outcome.Success? ==>
      r == Attempt(args, apiKey, provider).outcome.value
  {
    match Attempt(args, apiKey, provider).outcome
    case Success(v) => v
    case Failure(_) => Degraded(FillQuery(args.query))
  }

  /** The effects one call has on the outside world, in the order they happen. */
  datatype Effect =
    | UiUpdate(node: UiNode)
    | Fetch(request: ProviderRequest)
    | StreamDone(final: Option<string>)

  /** What the UI slot shows. */
  datatype UiNode =
    | Absent                                               // `null`
    | SearchSection(includeDomains: Option<seq<string>>)   // bound to this call's streamable value
    | Other(name: string)                                  // whatever the slot held before

  /** The streamable value's lifecycle: not yet created, open, or closed with its final value. */
  datatype Phase = Idle | Streaming | Closed(final: Option<string>)

  /** The outbound request of an attempt, as an effect, if one was sent. */
  function FetchEffects(a: SearchAttempt): seq<Effect> {
    if a.sent.Some? then [Fetch(a.sent.value)] else []
  }

  /** The effects `execute` produces for a given provider and serialiser. */
  function ExpectedEffects(
    args: ToolArgs, apiKey: Option<string>, provider: ProviderRequest -> ProviderReply,
    serialize: SearchResults -> string): seq<Effect>
  {
    var a := Attempt(args, apiKey, provider);
    var pending := [UiUpdate(SearchSection(args.includeDomains))];
    if a.outcome.Failure? then pending + FetchEffects(a) + [UiUpdate(Absent), StreamDone(None)]
    else pending + FetchEffects(a) + [StreamDone(Some(serialize(ToolResult(args, apiKey, provider))))]
  }

  /** How many times a trace closes the stream. */
  function DoneCount(trace: seq<Effect>): nat {
    if trace == [] then 0 else (if trace[0].StreamDone? then 1 else 0) + DoneCount(trace[1..])
  }

  lemma {:induction false} DoneCountAppend(a: seq<Effect>, b: seq<Effect>)
    ensures DoneCount(a + b) == DoneCount(a) + DoneCount(b)
    decreases |a|
  {
    if a == [] {
      assert a + b == b;
    } else {
      assert (a + b)[1..] == a[1..] + b;
      DoneCountAppend(a[1..], b);
    }
  }

  /**
   * The lifecycle of one call: the pending section is shown first, the request
   * (if any) goes out next, and the stream is closed exactly once, as the last
   * effect, with the serialised result on success and with nothing on failure,
   * after the UI has been cleared.
   */
  lemma ExpectedEffectsLifecycle(
    args: ToolArgs, apiKey: Option<string>, provider: ProviderRequest -> ProviderReply,
    serialize: SearchResults -> string)
    ensures var t := ExpectedEffects(args, apiKey, provider, serialize);
      && |t| >= 2
      && t[0] == UiUpdate(SearchSection(args.includeDomains))
      && DoneCount(t) == 1
      && t[|t| - 1].StreamDone?
      && (forall k :: 0 <= k < |t| - 1 ==> !t[k].StreamDone?)
      && (forall k :: 0 <= k < |t| && t[k].Fetch? ==> k == 1 && t[k].request.query == FillQuery(args.query))
      && (!ApiKeyPresent(apiKey) ==> forall k :: 0 <= k < |t| ==> !t[k].Fetch?)
      && (Attempt(args, apiKey, provider).outcome.Failure? <==> t[|t| - 1].final.None?)
      && (Attempt(args, apiKey, provider).outcome.Failure? ==> t[|t| - 2] == UiUpdate(Absent))
  {
    var a := Attempt(args, apiKey, provider);
    var t := ExpectedEffects(args, apiKey, provider, serialize);
    var pending := [UiUpdate(SearchSection(args.includeDomains))];
    var fetched := FetchEffects(a);
    var closing := if a.outcome.Failure? then [UiUpdate(Absent), StreamDone(None)]
                   else [StreamDone(Some(serialize(ToolResult(args, apiKey, provider))))];
    assert t == pending + fetched + closing;
    DoneCountAppend(pending + fetched, closing);
    DoneCountAppend(pending, fetched);
    if a.outcome.Failure? {
      assert closing[1..][1..] == [];
    } else {
      assert closing[1..] == [];
    }
  }

  /**
   * One call of the tool. `ui` is the UI slot the tool shares across calls
   * (`initial` is whatever it held before this call); `phase` is this call's
   * own streamable value. `trace` records the effects on the outside world in
   * order, including the outbound request.
   */
  class SearchChannel {
    var ui: UiNode
    var phase: Phase
    ghost var trace: seq<Effect>

    constructor (initial: UiNode)
      ensures ui == initial && phase == Idle && trace == []
    {
      ui := initial;
      phase := Idle;
      trace := [];
    }

    /** `createStreamableValue()` */
    method CreateStream()
      requires phase == Idle
      modifies this`phase
      ensures phase == Streaming
    {
      phase := Streaming;
    }

    /** `uiStream.update(node)` */
    method UpdateUi(node: UiNode)
      modifies this`ui, this`trace
      ensures ui == node && trace == old(trace) + [UiUpdate(node)]
    {
      ui := node;
      trace := trace + [UiUpdate(node)];
    }

    /** `streamResults.done(final)`: allowed only once, on an open stream. */
    method Done(final: Option<string>)
      requires phase == Streaming
      modifies this`phase, this`trace
      ensures phase == Closed(final) && trace == old(trace) + [StreamDone(final)]
    {
      phase := Closed(final);
      trace := trace + [StreamDone(final)];
    }

    /**
     * `execute`: shows the pending search section, runs the search with the
     * padded query, and either closes the stream with the serialised result or,
     * when the search threw, clears the UI and closes the stream with no value.
     * `serialize` stands for `JSON.stringify`.
     */
    method Execute(
      args: ToolArgs, apiKey: Option<string>, provider: ProviderRequest -> ProviderReply,
      serialize: SearchResults -> string) returns (r: SearchResults)
      requires phase == Idle
      modifies this
      ensures r == ToolResult(args, apiKey, provider) && WellFormed(r)
      ensures trace == old(trace) + ExpectedEffects(args, apiKey, provider, serialize)
      ensures Attempt(args, apiKey, provider).outcome.Failure? ==> ui == Absent && phase == Closed(None)
      ensures Attempt(args, apiKey, provider).outcome.Success? ==>
        ui == SearchSection(args.includeDomains) && phase == Closed(Some(serialize(r)))
    {
      ghost var before := trace;
      var hasError := false;
      CreateStream();
      UpdateUi(SearchSection(args.includeDomains));
      var filledQuery := FillQuery(args.query);
      var searchResult: SearchResults;
      var attempt := TavilySearch(
        apiKey, filledQuery, args.maxResults, Some(EffectiveDepth(args.searchDepth)),
        args.includeDomains, args.excludeDomains, provider);
      trace := trace + FetchEffects(attempt);
      match attempt.outcome {
        case Success(v) =>
          searchResult := v;
        case Failure(_) =>
          hasError := true;
          searchResult := Degraded(filledQuery);
      }
      if hasError {
        UpdateUi(Absent);
        Done(None);
        AppendSteps2(before, [UiUpdate(SearchSection(args.includeDomains))], FetchEffects(attempt),
                     UiUpdate(Absent), StreamDone(None));
        return searchResult;
      }
      Done(Some(serialize(searchResult)));
      AppendSteps1(before, [UiUpdate(SearchSection(args.includeDomains))], FetchEffects(attempt),
                   StreamDone(Some(serialize(searchResult))));
      return searchResult;
    }
  }

  // ---------------------------------------------------------------------------
  // Failure containment and worked scenarios
  // ---------------------------------------------------------------------------

  /** A missing or empty API key sends nothing and still yields the empty result. */
  lemma MissingApiKeyIsContained(args: ToolArgs, apiKey: Option<string>, provider: ProviderRequest -> ProviderReply)
    requires !ApiKeyPresent(apiKey)
    ensures Attempt(args, apiKey, provider).sent.None?
    ensures ToolResult(args, apiKey, provider) == Degraded(FillQuery(args.query))
  {
  }

  /** Any error status from the provider yields the empty result echoing the padded query. */
  lemma HttpErrorIsContained(args: ToolArgs, key: string, provider: ProviderRequest -> ProviderReply)
    requires key != ""
    requires var reply := provider(BuildRequest(key, FillQuery(args.query), args.maxResults,
               Some(EffectiveDepth(args.searchDepth)), args.includeDomains, args.excludeDomains));
             reply.Response? && !reply.ok
    ensures ToolResult(args, Some(key), provider) == Degraded(FillQuery(args.query))
  {
  }

  /** A provider call that throws (a network failure, an unreadable body) yields the empty result too. */
  lemma TransportErrorIsContained(args: ToolArgs, key: string, provider: ProviderRequest -> ProviderReply)
    requires key != ""
    requires provider(BuildRequest(key, FillQuery(args.query), args.maxResults,
               Some(EffectiveDepth(args.searchDepth)), args.includeDomains, args.excludeDomains)).Thrown?
    ensures ToolResult(args, Some(key), provider) == Degraded(FillQuery(args.query))
  {
  }

  /** On success the agent gets the provider's body with only `images` replaced. */
  lemma SuccessIsNormalizedBody(args: ToolArgs, key: string, provider: ProviderRequest -> ProviderReply)
    requires key != ""
    requires var reply := provider(BuildRequest(key, FillQuery(args.query), args.maxResults,
               Some(EffectiveDepth(args.searchDepth)), args.includeDomains, args.excludeDomains));
             reply.Response? && reply.ok
    ensures var body := provider(Attempt(args, Some(key), provider).sent.value).body;
      ToolResult(args, Some(key), provider) == Normalize(body)
  {
  }

  /** The query "cat" with `max_results` 3 goes out as "cat  " with 5 results requested. */
  lemma ShortQueryScenario(key: string, provider: ProviderRequest -> ProviderReply)
    requires key != ""
    ensures var sent := Attempt(ToolArgs("cat", Some(3), None, None, None), Some(key), provider).sent;
      sent.Some? && sent.value.query == "cat  " && sent.value.maxResults == 5 && sent.value.searchDepth == Basic
  {
    assert FillQuery("cat") == "cat" + Spaces(2);
  }

  /** The space in the example image URL is percent-encoded. */
  lemma ScenarioUrl(url: string)
    requires url == "http://a.com/x y.png"
    ensures SanitizeUrl(url) == "http://a.com/x%20y.png"
  {
    ScenarioUrlParts();
    SanitizeUrlGap("http://a.com/x", " ", "y.png");
  }

  /** The pieces of the example URL around its space. */
  lemma ScenarioUrlParts()
    ensures NoWhitespace("http://a.com/x") && NoWhitespace("y.png")
    ensures "http://a.com/x" + " " + "y.png" == "http://a.com/x y.png"
    ensures "http://a.com/x" + EncodedSpace + "y.png" == "http://a.com/x%20y.png"
  {
  }

  /** An image with an empty description is dropped; the space in a kept URL is encoded. */
  lemma ImageScenario(images: seq<RawImage>)
    requires images == [
      RawImage("http://a.com/x y.png", Some("a cat")),
      RawImage("http://b.com/z.png", Some(""))]
    ensures ProcessImages(images) == [Described("http://a.com/x%20y.png", "a cat")]
  {
    var mapped := SanitizeImages(images);
    assert mapped[0].url == "http://a.com/x%20y.png" by {
      ScenarioUrl(images[0].url);
    }
    assert KeepDescribed(mapped[1..]) == [] by {
      assert !HasDescription(mapped[1..][0]);
      assert mapped[1..][1..] == [];
    }
    assert mapped[0].description == Some("a cat");
  }
}
