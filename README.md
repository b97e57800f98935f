# Search tool of the conversational search assistant, modelled in Dafny

This project models the web-search tool of the assistant: the part that takes a
search request from the language-model agent, calls the Tavily search API,
normalises the reply and streams progress into the chat UI. It also models the
two pure helpers from `lib/utils/index.ts` that the tool and the agent layer use.

- `wrappers.dfy`, module `Wrappers`: `Option` (a property or argument that may be
  `undefined`) and `Result` (a call that returns or throws).
- `seqs.dfy`, module `SeqFacts`: small sequence identities the proofs use.
- `utils.dfy`, module `Utils`:
  - `sanitizeUrl` is `SanitizeUrl`. Each maximal run of JavaScript `\s`
    whitespace becomes one `%20`. It is proved equal to an independent
    character-at-a-time scanner (`Scan`). The proofs show the output has no
    whitespace, the function is idempotent, and it is the identity on
    whitespace-free input. They also show that a run, however long, becomes one
    `%20`, and that the function splits at any boundary that does not cut a run.
  - `transformToolMessages` is `TransformToolMessages`.
- `search.dfy`, module `Search`:
  - Request shaping. `FillQuery` pads the query, `EffectiveDepth` defaults the
    search depth, `MaxResultsSent` sets the result-count floor, and
    `BuildRequest` builds the request body.
  - The image pipeline. `ProcessImages` sanitises every URL, then keeps the
    entries whose description is present and non-empty. It is proved against a
    reference list of positions (`DescribedFrom`).
  - `tavilySearch` is the pure function `TavilySearch`. The HTTP round trip is a
    function parameter `provider` (request → reply). The API key is an
    `Option<string>` parameter. The function returns the request it sent, if
    any, together with its result or the error it threw.
  - `execute` is the method `SearchChannel.Execute`. The class holds the UI
    slot (`ui`) that every call of the tool shares through `ToolProps`; the
    constructor's `initial` stands for whatever that slot held before the call.
    It also holds this call's own streamable value (`phase`: `Idle`,
    `Streaming`, `Closed(final)`) and a ghost `trace` of the effects in order.
    The SDK primitives are the methods `CreateStream`, `UpdateUi` and `Done`.
    `Done` may only be called on an open stream, so the stream can be closed
    only once.

Notes on the code's behaviour:
- The query is padded by its raw length (`query.length`), not its trimmed length.
- A missing `TAVILY_API_KEY` throws inside the `try` block of `execute`. It is caught
  like any provider failure and yields the degraded result. It does not escape the tool call.
- The error sentence is assigned only to the destructured local `fullResponse`. It
  is not passed on anywhere, so the model has no counterpart for it.

## Model

| member | source | states |
|---|---|---|
| `Utils.SanitizeUrl` | lib/utils/index.ts:72-74 | the sanitised URL contains no whitespace character |
| `Utils.SanitizeUrlIsScan` | lib/utils/index.ts:73 | the run-by-run replacement equals a left-to-right scanner that emits `%20` at the first whitespace character of each run and copies every other character |
| `Utils.SanitizeUrlIdentity` | lib/utils/index.ts:73 | a URL without whitespace is returned unchanged |
| `Utils.SanitizeUrlIdempotent` | lib/utils/index.ts:73 | sanitising twice equals sanitising once |
| `Utils.SanitizeUrlRun` | lib/utils/index.ts:73 | a non-empty run of whitespace, of any length, becomes exactly one `%20` |
| `Utils.SanitizeUrlAppend` | lib/utils/index.ts:73 | when the boundary between two strings does not cut a whitespace run, sanitising their concatenation equals concatenating their sanitised forms |
| `Utils.SanitizeUrlGap` | lib/utils/index.ts:73 | a whitespace run between two whitespace-free pieces becomes one `%20`, and both pieces are kept in place |
| `Utils.SanitizeUrlExample` | lib/utils/index.ts:73 | `"x  y"` becomes `"x%20y"` |
| `Utils.TransformToolMessages` | lib/utils/index.ts:53-64 | same length and order; non-tool messages unchanged; each tool message becomes role assistant, type "tool", content the serialised original content, other properties unchanged; no output message has role tool |
| `Utils.TransformToolMessagesIdempotent` | lib/utils/index.ts:54-62 | transforming an already transformed list changes nothing |
| `Utils.TransformToolMessagesAppend` | lib/utils/index.ts:54 | the rewrite works message by message: it distributes over concatenation |
| `Search.FillQuery` | lib/agents/tools/search.tsx:31-33 | the padded query has length max(5, raw length), starts with the query, and every added character is a space; a query of 5 or more characters is sent as it is |
| `Search.FillQueryIdempotent` | lib/agents/tools/search.tsx:33 | padding an already padded query changes nothing |
| `Search.EffectiveDepth` | lib/agents/tools/search.tsx:42 | an absent search depth becomes `basic`; a given one is kept |
| `Search.MaxResultsSent` | lib/agents/tools/search.tsx:90 | the `max_results` sent is at least 5; it is 10 when the argument is absent, the caller's value when that is 5 or more, and 5 otherwise |
| `Search.BuildRequest` | lib/agents/tools/search.tsx:87-97 | the request body carries the key and the query as given, the result-count floor, the depth default, `include_images`, `include_image_descriptions` and `include_answers` all true, and `[]` for an absent domain list |
| `Search.SanitizeImages` | lib/agents/tools/search.tsx:108-112 | the map step keeps every entry and its description, with the URL sanitised |
| `Search.KeepDescribed` | lib/agents/tools/search.tsx:113-120 | the filter step keeps no more entries than it is given, and every kept image has a non-empty description |
| `Search.ProcessImages` | lib/agents/tools/search.tsx:107-120 | every image of the processed list has a defined, non-empty description |
| `Search.DescribedFrom` | lib/agents/tools/search.tsx:117-119 | the reference list holds exactly the positions whose description is defined and non-empty, each once, in increasing order |
| `Search.ProcessImagesSelects` | lib/agents/tools/search.tsx:107-120 | the processed images are exactly the entries with a non-empty description, in their original order; each keeps its description and has the sanitised URL of the original |
| `Search.ProcessImagesAppend` | lib/agents/tools/search.tsx:107-120 | the image pipeline distributes over concatenation |
| `Search.Normalize` | lib/agents/tools/search.tsx:123-126 | the result equals the provider body with only `images` replaced by the processed images |
| `Search.HandleReply` | lib/agents/tools/search.tsx:100-126 | the reply yields a result exactly when the response is ok; that result is the normalised body and is well formed; a non-ok response throws an error carrying its status and status text |
| `Search.TavilySearch` | lib/agents/tools/search.tsx:69-127 | no request is sent exactly when the API key is undefined or empty, and then the call throws the missing-key error; otherwise the request sent is the shaped body and the outcome is what the reply yields; a returned result is well formed |
| `Search.ToolResult` | lib/agents/tools/search.tsx:35-61 | what `execute` returns is always a well-formed result; whenever `tavilySearch` threw, it is exactly the four-property literal of the `catch` block: no results, no images, `number_of_results` 0, the padded query, nothing else; otherwise it is the search result itself |
| `Search.ExpectedEffectsLifecycle` | lib/agents/tools/search.tsx:20-65 | a call first shows the pending search section; the request, if any, goes out second, carrying the padded query; no request goes out without an API key; the stream is closed exactly once, as the last effect; it is closed with no value, right after the UI is set to `null`, exactly when the search threw |
| `Search.SearchChannel.CreateStream` | lib/agents/tools/search.tsx:23 | the stream is created once, from the idle phase, and is then open |
| `Search.SearchChannel.UpdateUi` | lib/agents/tools/search.tsx:24-29 | the UI slot shows the given node and the update is recorded |
| `Search.SearchChannel.Done` | lib/agents/tools/search.tsx:60 | only an open stream can be closed; it is then closed with the given final value, and the close is recorded |
| `Search.SearchChannel.Execute` | lib/agents/tools/search.tsx:13-66 | returns the well-formed result of ToolResult and produces exactly the effects of ExpectedEffects; on failure the UI ends `null` and the stream is closed with no value; on success the UI keeps the search section and the stream is closed with the serialised result |
| `Search.MissingApiKeyIsContained` | lib/agents/tools/search.tsx:76-78 | with no API key nothing is sent and the tool still returns the empty result echoing the padded query |
| `Search.HttpErrorIsContained` | lib/agents/tools/search.tsx:100-104 | any non-ok response, such as HTTP 500, makes the tool return the empty result echoing the padded query |
| `Search.TransportErrorIsContained` | lib/agents/tools/search.tsx:37-55 | a provider call that throws (network failure, unreadable body) makes the tool return exactly the empty result echoing the padded query |
| `Search.SuccessIsNormalizedBody` | lib/agents/tools/search.tsx:123-126 | on an ok response the tool returns the provider body with only `images` replaced |
| `Search.ShortQueryScenario` | lib/agents/tools/search.tsx:32-33 | the query "cat" with `max_results` 3 goes out as "cat  " with `max_results` 5 and depth `basic` |
| `Search.ScenarioUrl` | lib/agents/tools/search.tsx:110 | `http://a.com/x y.png` is sanitised to `http://a.com/x%20y.png` |
| `Search.ImageScenario` | lib/agents/tools/search.tsx:107-120 | of one image with description "a cat" and one with an empty description, only the first is kept, with its URL's space encoded |

## Left out

- The HTTP layer of `tavilySearch` is not modelled: the endpoint URL, the headers,
  `fetch` and `response.json()`. The function parameter `provider` stands for the
  whole round trip. Its reply is an ok flag with status and body, or an exception.
- `process.env.TAVILY_API_KEY` is read from the environment. The model takes it as
  an `Option<string>` parameter.
- `JSON.stringify` is a function parameter (`serialize`). JSON encoding is not modelled.
- `console.error`, the JSX of `SearchSection` and the `ai` SDK `tool(...)`/schema
  wiring are foreign calls. The model records only the order of the UI updates,
  the request and the stream close.
- The assignment to `fullResponse` has no effect outside the call, so it is not modelled.
- The branch for `includeImageDescriptions` false is dead code: the flag is the
  constant `true`. The model always takes the described branch. The `Bare` image
  variant exists only for the type.
- Malformed provider bodies are not modelled. The JavaScript code would throw a
  `TypeError` for a missing `images` array or an entry without a string `url`.
  `execute` catches that throw like any provider failure. A `null` description
  would pass the filter. In the model, an image has a string URL and an optional
  string description.
- Query lengths: JavaScript counts UTF-16 code units, and the model counts Dafny
  characters (Unicode scalar values). The two differ only for characters outside
  the Basic Multilingual Plane.
- `max_results` is an integer in the model. The JavaScript `number` values NaN and
  fractions are not modelled.
- Concurrency between tool calls and async suspension are not modelled. One call
  is one sequential path, and each call has its own channel object.
- `cn`, `getModel` and `components/followup-panel.tsx` are not part of this model.
  They are styling, client configuration and UI code.
