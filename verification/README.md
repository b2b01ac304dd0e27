# AICentral gateway core — a Dafny model

AICentral is a reverse-proxy gateway in front of Azure OpenAI and OpenAI
endpoints. This project models four pieces of its request pipeline and proves
properties of them.

- **The incoming-call detector** (`AzureOpenAIDetector`). It recognises
  `/openai/...` paths, splits the rest of the path on `/`, and reads the
  deployment (model) name and the call type (chat, completions, embeddings or
  other). For the three known call types it also extracts the prompt text from
  the parsed JSON body. The path it splits is the escaped text that
  `PathString.ToString()` produces, with characters outside the URI path set
  percent-encoded: a deployment named `my model` is read as `my%20model`.
  `Detect` takes that escaped text as its `path`. Module `Detector`
  (`detector.dfy`). The framework's
  `PathString.StartsWithSegments`, `String.Split` and `String.Join` are
  modelled in module `Text` (`text.dfy`).
- **The random endpoint selector** (`RandomEndpointSelector`). It copies its
  dispatchers into a work list. It then picks one at random, removes it and
  tries it, until a dispatcher answers, an exception it does not catch escapes,
  or the list runs out. Module `Selector` (`selector.dfy`):
  - The class keeps the source's array and its `while` loop.
  - `Handle` is proved equal to a recursive specification, `Failover`.
  - Every other property of the selector is proved about `Failover`.
  - The random generator is a parameter: the k-th pick takes index
    `rnd(k) % |toTry|`.
  - A dispatcher's call plus the selector's `HandleResponse` is also a
    parameter, `handle`. It receives the attempt number, the dispatcher and the
    "last attempt" flag.
- **The Azure OpenAI dispatcher builder** (`OpenAIEndpointDispatcherBuilder`).
  Module `DispatcherBuilder` (`dispatcher_builder.dfy`) covers:
  - the constructor's choice of authentication handler, with its two error
    cases;
  - `Build` and `BuildFromConfig`;
  - the predicate that decides which outcomes the retry and circuit-breaker
    layers treat as transient.
- **The buffered result handler** (`JsonResultHandler`). It copies the
  downstream status code, a duration header, the JSON content type and the
  downstream body onto the outgoing response. Module `ResultHandlers`
  (`result_handlers.dfy`):
  - The outgoing response is a class that carries the hosting framework's
    guards. Once the body has started, the status, the headers and the content
    type can no longer be set. Adding a header that is already present throws.
  - The downstream message is a class too: reading its content after it has
    been disposed throws.
  - A ghost event log with the invariant "no header change after the body"
    is kept by every operation.

`wrappers.dfy` holds `Option`, `Result` and `Outcome`. `http.dfy` holds the
status code 429 and the exception types the selector and the retry predicate
tell apart.

Behaviour of the code worth knowing:

- The retry and circuit-breaker predicate treats as transient only a 429
  response, or an `HttpRequestException` that carries 429. An
  `HttpRequestException` without a status code (a connection failure) is not
  retried.
- The selector fails over only when a dispatcher throws an
  `HttpRequestException`. Any other exception ends the request at once.
  A non-success response counts as an answer unless `HandleResponse` turns it
  into an `HttpRequestException`. `HandleResponse` is part of the `handle`
  parameter.
- An empty dispatcher array does not give "endpoints exhausted". The first
  pick indexes an empty list and throws `ArgumentOutOfRangeException`.
- The selector's closing `throw new InvalidOperationException("Failed to
  satisfy request")` is unreachable. Every loop iteration either returns,
  throws, or leaves a dispatcher in the work list. The method proves this with
  `assert false` after the loop.

## Model

| member | source | states |
|---|---|---|
| Text.RemainingSegments | AICentral/IncomingCallDetector/AzureAIServiceDetector.cs:16 | when the path starts with the segment, the path is that prefix followed by the remainder; when it does not, the remainder is the empty path; either way the remainder is empty or starts with `/` |
| Detector.CallTypeOf | AICentral/IncomingCallDetector/AzureAIServiceDetector.cs:28-34 | the call type is Chat, Completions or Embeddings exactly when the token is "chat", "completions" or "embeddings" (case-sensitive); every other token gives Other |
| Detector.Detect | AICentral/IncomingCallDetector/AzureAIServiceDetector.cs:14-64 | a successful detection happens only on a detectable path and is always of service type AzureOpenAI; an Other result carries no prompt, model or content; a known call type carries the parsed body as request content and the prompt text of that call type; a malformed-body failure happens only when the body is not a JSON object |
| Detector.CanDetectWholeSegment | AICentral/IncomingCallDetector/AzureAIServiceDetector.cs:9-12 | `/openai` followed by `rest` is detected exactly when `rest` is empty or starts a new segment, so `/openaix` is not detected |
| Detector.CanDetectFirstSegment | AICentral/IncomingCallDetector/AzureAIServiceDetector.cs:9-12 | reference definition by segments: a path is detected exactly when it is rooted and its first `/`-separated segment equals `openai` ignoring (ASCII) case |
| Detector.DetectDeploymentPath | AICentral/IncomingCallDetector/AzureAIServiceDetector.cs:18-39 | on `/openai/deployments/{model}/{op}...` the model is `{model}` (the segment as it appears in the escaped path) and the call type is that of `{op}`; an unknown `{op}` gives the bare Other result whatever the body; a known one fails only when the body is not a JSON object |
| Detector.DetectDirectPath | AICentral/IncomingCallDetector/AzureAIServiceDetector.cs:18-39 | on `/openai/{op}...` (with `{op}` not `deployments`) no model is extracted and the call type is that of `{op}`, with the same body behaviour |
| Detector.DetectChatExample | AICentralTests/the_azure_openai_pipeline.cs:31 | the chat path used by the pipeline tests is detected as a Chat call for model `random` |
| Detector.DetectForeignPath | AICentral/IncomingCallDetector/AzureAIServiceDetector.cs:16-19 | a path outside `/openai` leaves nothing to split, so `Detect` fails with an index error |
| Detector.DetectBarePrefix | AICentral/IncomingCallDetector/AzureAIServiceDetector.cs:18-19 | `/openai` alone has no call-type segment: index error |
| Detector.DetectTruncatedDeployment | AICentral/IncomingCallDetector/AzureAIServiceDetector.cs:22-25 | `/openai/deployments` alone or with just a model segment fails with an index error |
| Detector.DetectOtherIgnoresBody | AICentral/IncomingCallDetector/AzureAIServiceDetector.cs:36-39 | for the Other call type the body is never read: the result is the same for every body, parsed or not |
| Detector.ChatPromptLines | AICentral/IncomingCallDetector/AzureAIServiceDetector.cs:48-51 | chat prompt text is every message's content in order, one per line: splitting it on newlines gives the contents back (missing content as ""), when no content holds a newline |
| Detector.CompletionsPromptLines | AICentral/IncomingCallDetector/AzureAIServiceDetector.cs:53-54 | completions prompt text is the `prompt` entries in order, one per line, with the same round trip |
| Detector.PromptTextOfAbsentFields | AICentral/IncomingCallDetector/AzureAIServiceDetector.cs:46-56 | a missing `messages` or `prompt` field gives an empty prompt; embeddings take `input` verbatim, or "" when it is missing |
| Selector.RemoveFirst | AICentral/Steps/EndpointSelectors/Random/RandomEndpointSelector.cs:26 | removing the chosen dispatcher removes exactly one occurrence of it: the work list shrinks by one and loses one copy of it |
| Selector.Failover | AICentral/Steps/EndpointSelectors/Random/RandomEndpointSelector.cs:21-52 | the selection fails with an index error exactly when there are no dispatchers, and never ends in "Failed to satisfy request" |
| Selector.Conclusion | AICentral/Steps/EndpointSelectors/Random/RandomEndpointSelector.cs:31-49 | an attempt the selector does not fail over from ends the selection with its response or an exception; "No available Open AI hosts" comes exactly from an HttpRequestException, and every other exception is passed on |
| Selector.FailoverLastAttemptFlag | AICentral/Steps/EndpointSelectors/Random/RandomEndpointSelector.cs:37 | there are between one and N attempts for N dispatchers, and the "last attempt" flag passed to `HandleResponse` is set on exactly the N-th |
| Selector.FailoverTriesEachAtMostOnce | AICentral/Steps/EndpointSelectors/Random/RandomEndpointSelector.cs:25-26 | the dispatchers tried are a sub-multiset of those configured: each is tried at most once, whatever the random picks |
| Selector.FailoverEarlierAttemptsFailedOver | AICentral/Steps/EndpointSelectors/Random/RandomEndpointSelector.cs:40-50 | there is at least one attempt, and every attempt before the final one failed with an HttpRequestException: the selector moves on only after that exception |
| Selector.FailoverFinalAttempt | AICentral/Steps/EndpointSelectors/Random/RandomEndpointSelector.cs:27-49 | the final attempt decides the result (its response, "No available Open AI hosts" wrapping its HttpRequestException, or its other exception passed on), and it ends in an HttpRequestException only when it was flagged as the last attempt |
| Selector.ExhaustionTakesEveryAttempt | AICentral/Steps/EndpointSelectors/Random/RandomEndpointSelector.cs:42-46 | "No available Open AI hosts" comes only after as many attempts as there are dispatchers |
| Selector.ExhaustionTriesEveryDispatcher | AICentral/Steps/EndpointSelectors/Random/RandomEndpointSelector.cs:42-46 | on "No available Open AI hosts" the dispatchers tried are exactly the configured ones |
| Selector.HealthyDispatcherPreventsExhaustion | AICentral/Steps/EndpointSelectors/Random/RandomEndpointSelector.cs:23-50 | when some dispatcher always answers, the selection never exhausts its dispatchers, whatever the random order: it returns a response or passes on an uncaught exception |
| Selector.FailoverFindsHealthyDispatcher | AICentral/Steps/EndpointSelectors/Random/RandomEndpointSelector.cs:23-50 | with one dispatcher that answers and all others failing with HttpRequestException, the selection returns that dispatcher's response whatever the random order |
| Selector.RandomEndpointSelector.constructor | AICentral/Steps/EndpointSelectors/Random/RandomEndpointSelector.cs:11-14 | the selector keeps the given dispatcher array |
| Selector.RandomEndpointSelector.Handle | AICentral/Steps/EndpointSelectors/Random/RandomEndpointSelector.cs:16-53 | the loop's result is that of the `Failover` specification over the array's contents, so every property above holds of it; the trailing throw is unreachable |
| DispatcherBuilder.NewBuilder | AICentral/PipelineComponents/Endpoints/OpenAI/OpenAIEndpointDispatcherBuilder.cs:17-36 | construction fails exactly when an ApiKey endpoint has no key (ArgumentException with the source's message) or the authentication type is outside the enumeration (ArgumentOutOfRangeException naming the parameter and value); otherwise URL and model mappings are stored unchanged |
| DispatcherBuilder.AuthHandlerMatchesType | AICentral/PipelineComponents/Endpoints/OpenAI/OpenAIEndpointDispatcherBuilder.cs:26-34 | the chosen handler serves the requested authentication type; an ApiKey handler carries exactly the configured key and the others carry none |
| DispatcherBuilder.KeyIgnoredWithoutApiKey | AICentral/PipelineComponents/Endpoints/OpenAI/OpenAIEndpointDispatcherBuilder.cs:31-33 | for every authentication type other than ApiKey the configured key has no influence on the outcome |
| DispatcherBuilder.ConfiguredDispatcher | AICentral/PipelineComponents/Endpoints/OpenAI/OpenAIEndpointDispatcherBuilder.cs:71-83 | building from configuration fails exactly for a missing key or an unknown type; otherwise the built dispatcher holds the configured endpoint and mappings and a handler for the configured type carrying the configured key |
| DispatcherBuilder.ShouldHandleOnlyTooManyRequests | AICentral/PipelineComponents/Endpoints/OpenAI/OpenAIEndpointDispatcherBuilder.cs:42-45 | an outcome is transient exactly when it is a 429 response or an HttpRequestException carrying 429 |
| DispatcherBuilder.ExceptionAgreesWithResponse | AICentral/PipelineComponents/Endpoints/OpenAI/OpenAIEndpointDispatcherBuilder.cs:42-45 | an HttpRequestException with a status code is treated like a response with that code; one without a status code is never retried |
| ResultHandlers.AppendBeforeBody | AICentral/Steps/Endpoints/ResultHandlers/JsonResultHandler.cs:21-23 | a status, header or content-type change before the body keeps the invariant that nothing but body text follows the first body write |
| ResultHandlers.AppendBody | AICentral/Steps/Endpoints/ResultHandlers/JsonResultHandler.cs:24 | writing the body keeps that invariant and marks the response as started |
| ResultHandlers.HttpResponse.SetStatusCode | AICentral/Steps/Endpoints/ResultHandlers/JsonResultHandler.cs:21 | setting the status fails once the response has started (then nothing changes), otherwise changes the status only |
| ResultHandlers.HttpResponse.AddHeader | AICentral/Steps/Endpoints/ResultHandlers/JsonResultHandler.cs:22 | adding a header fails once the response has started or when the name is already present (then nothing changes), otherwise adds exactly that header |
| ResultHandlers.HttpResponse.SetContentType | AICentral/Steps/Endpoints/ResultHandlers/JsonResultHandler.cs:23 | setting the content type fails once the response has started, otherwise changes the content type only |
| ResultHandlers.HttpResponse.WriteAsync | AICentral/Steps/Endpoints/ResultHandlers/JsonResultHandler.cs:24 | writing appends the text to the body and starts the response, leaving status, headers and content type unchanged |
| ResultHandlers.HttpResponseMessage.ReadContent | AICentral/Steps/Endpoints/ResultHandlers/JsonResultHandler.cs:24 | the content is returned unless the message was disposed |
| ResultHandlers.JsonResultHandler.constructor | AICentral/Steps/Endpoints/ResultHandlers/JsonResultHandler.cs:11-17 | the handler keeps the downstream message and the usage information |
| ResultHandlers.JsonResultHandler.ExecuteAsync | AICentral/Steps/Endpoints/ResultHandlers/JsonResultHandler.cs:19-25 | succeeds exactly when the response has not started, has no duration header yet and the message is not disposed; then the response carries the downstream status, the duration header added to the earlier headers, `application/json`, and the downstream body appended verbatim, with all header changes before the body; each failure leaves the earlier steps done and the later ones undone |
| ResultHandlers.JsonResultHandler.Dispose | AICentral/Steps/Endpoints/ResultHandlers/JsonResultHandler.cs:27-30 | disposing the handler disposes the downstream message and changes nothing else about it |

## Left out

- Reading and parsing the request body are not modelled. The detector receives the parsed object, or None when the content is not a JSON object. The model does not cover a `prompt` given as a single string rather than an array, nor a `messages` entry that is not an object.
- Case folding in `StartsWithSegments` covers ASCII letters only. Culture-invariant folding of other characters is not modelled.
- `Environment.NewLine` is fixed to "\n", its value on Linux hosts.
- Detector.Detect: does not model cancellation or the stream reader's disposal.
- Detector.Detect: does not model the percent-encoding that `PathString.ToString()` applies; `path` is taken to be the already-escaped text, so the model name is the escaped segment (`my%20model` for a deployment named `my model`), and the encoding of non-ASCII characters as UTF-8 escapes is outside the model.
- The dispatcher's `Handle` (HTTP call, model mapping, authentication) and the selector's `HandleResponse` are not modelled. Together they are the `handle` parameter.
- `System.Random` is not modelled. The selector's choices are the `rnd` parameter, so the properties hold for every sequence of picks. Uniformity is not modelled.
- Logging in the selector is not modelled, nor is `WriteDebug` of the selector or of any other class.
- `RegisterServices` (dependency injection and the HTTP client) is not modelled. Only its `ShouldHandle` predicate is modelled, with the resilience settings recorded as constants. The circuit breaker, the retry backoff and the timeout are not modelled: their behaviour depends on time and belongs to the resilience library.
- DispatcherBuilder.BuildFromConfig: null `LanguageEndpoint` or `ModelMappings` values are not modelled. The code passes them through with the null-forgiving operator, so the model takes them as present.
- The formatting of the duration as milliseconds text is not modelled. The usage information carries the text it would produce.
- Header names are compared exactly. The framework's case-insensitive header dictionary is not modelled.
- Text encoding of the written body is not modelled, nor I/O failures while writing it.
- The streaming result handler, the Priority and Single selectors, and the configuration-based pipeline builder are not part of this model.
