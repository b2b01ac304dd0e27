/** The Azure OpenAI endpoint dispatcher builder: turns an endpoint's
    configuration into an immutable builder (choosing the downstream
    authentication handler), decides which downstream outcomes the resilience
    layer treats as transient, and builds the dispatcher. */
module DispatcherBuilder {
  import opened Wrappers
  import opened Http

  /** The configuration type name this builder is registered under. */
  const ConfigName: string := "AzureOpenAIEndpoint"

  /** The status codes the retry and circuit-breaker layers treat as transient. */
  const StatusCodesToRetry: seq<int> := [TooManyRequests]

  /** Settings of the resilience pipeline (its behaviour is not modelled). */
  const CircuitBreakerFailureRatioPercent: nat := 50
  const CircuitBreakerSamplingSeconds: nat := 5
  const CircuitBreakerBreakSeconds: nat := 30
  const RetryBaseDelayMilliseconds: nat := 200
  const MaxRetryAttempts: nat := 3
  const AttemptTimeoutSeconds: nat := 30

  /** The message of the exception raised for an ApiKey endpoint without a key. */
  const MissingKeyMessage: string := "Missing api-key for Authrntication Type"

  /** The `AuthenticationType` enumeration; `Undefined` stands for any other
      value the enumeration's underlying integer can hold. */
  datatype AuthenticationType = ApiKey | Entra | EntraPassThrough | Undefined(value: int)

  /** The downstream authorisation handlers, one per supported authentication type. */
  datatype AuthHandler = KeyAuth(apiKey: string) | EntraAuth | BearerTokenPassThroughAuth

  datatype BuilderError =
    | ArgumentException(message: string)
    | ArgumentOutOfRangeException(paramName: string, actualValue: AuthenticationType)

  /** The builder's read-only fields. */
  datatype OpenAIEndpointDispatcherBuilder = OpenAIEndpointDispatcherBuilder(
    languageUrl: string,
    modelMappings: map<string, string>,
    authHandler: AuthHandler)

  /** What `Build` constructs: a dispatcher over the same URL, mappings and handler. */
  datatype OpenAIEndpointDispatcher = OpenAIEndpointDispatcher(
    languageUrl: string,
    modelMappings: map<string, string>,
    authHandler: AuthHandler)

  /** The configuration properties `BuildFromConfig` reads. */
  datatype EndpointPropertiesConfig = EndpointPropertiesConfig(
    languageEndpoint: string,
    modelMappings: map<string, string>,
    authenticationType: AuthenticationType,
    apiKey: Option<string>)

  /** The authentication type a handler serves, and the key it carries. */
  function AuthTypeOf(handler: AuthHandler): AuthenticationType
  {
    match handler
    case KeyAuth(_) => ApiKey
    case EntraAuth => Entra
    case BearerTokenPassThroughAuth => EntraPassThrough
  }

  function KeyOf(handler: AuthHandler): Option<string>
  {
    if handler.KeyAuth? then Some(handler.apiKey) else None
  }

  /** The constructor. It fails exactly when an ApiKey endpoint has no key
      (ArgumentException) or the authentication type is not one of the three
      named ones (ArgumentOutOfRangeException); otherwise it stores the URL and
      the mappings as given. */
  function NewBuilder(
    languageUrl: string,
    modelMappings: map<string, string>,
    authenticationType: AuthenticationType,
    authenticationKey: Option<string>): (r: Result<OpenAIEndpointDispatcherBuilder, BuilderError>)
    ensures r.Failure? <==> (authenticationType == ApiKey && authenticationKey.None?) || authenticationType.Undefined?
    ensures authenticationType == ApiKey && authenticationKey.None? ==> r == Failure(ArgumentException(MissingKeyMessage))
    ensures authenticationType.Undefined? ==>
      r == Failure(ArgumentOutOfRangeException("authenticationType", authenticationType))
    ensures r.Success? ==> r.value.languageUrl == languageUrl && r.value.modelMappings == modelMappings
  {
    var handler :=
      match authenticationType
      case ApiKey =>
        if authenticationKey.Some? then Success(KeyAuth(authenticationKey.value))
        else Failure(ArgumentException(MissingKeyMessage))
      case Entra => Success(EntraAuth)
      case EntraPassThrough => Success(BearerTokenPassThroughAuth)
      case Undefined(_) => Failure(ArgumentOutOfRangeException("authenticationType", authenticationType));
    if handler.Failure? then Failure(handler.error)
    else Success(OpenAIEndpointDispatcherBuilder(languageUrl, modelMappings, handler.value))
  }

  /** The handler chosen by the constructor serves the requested authentication
      type; an ApiKey handler carries exactly the configured key and the other
      handlers carry none. */
  lemma AuthHandlerMatchesType(
    languageUrl: string,
    modelMappings: map<string, string>,
    authenticationType: AuthenticationType,
    authenticationKey: Option<string>)
    requires NewBuilder(languageUrl, modelMappings, authenticationType, authenticationKey).Success?
    ensures var handler := NewBuilder(languageUrl, modelMappings, authenticationType, authenticationKey).value.authHandler;
      && AuthTypeOf(handler) == authenticationType
      && KeyOf(handler) == (if authenticationType == ApiKey then authenticationKey else None)
  {
  }

  /** Entra and pass-through endpoints ignore the configured key. */
  lemma KeyIgnoredWithoutApiKey(
    languageUrl: string,
    modelMappings: map<string, string>,
    authenticationType: AuthenticationType,
    key: Option<string>,
    otherKey: Option<string>)
    requires authenticationType != ApiKey
    ensures NewBuilder(languageUrl, modelMappings, authenticationType, key)
         == NewBuilder(languageUrl, modelMappings, authenticationType, otherKey)
  {
  }

  /** `Build`. */
  function Build(builder: OpenAIEndpointDispatcherBuilder): OpenAIEndpointDispatcher
  {
    OpenAIEndpointDispatcher(builder.languageUrl, builder.modelMappings, builder.authHandler)
  }

  /** `BuildFromConfig`. */
  function BuildFromConfig(parameters: EndpointPropertiesConfig): Result<OpenAIEndpointDispatcherBuilder, BuilderError>
  {
    NewBuilder(parameters.languageEndpoint, parameters.modelMappings, parameters.authenticationType, parameters.apiKey)
  }

  /** From configuration to dispatcher: building fails only for a missing key
      or an unknown authentication type; otherwise the dispatcher holds the
      configured endpoint and mappings unchanged, and a handler for the
      configured authentication type carrying the configured key. */
  lemma ConfiguredDispatcher(parameters: EndpointPropertiesConfig)
    ensures var built := BuildFromConfig(parameters);
      built.Failure? <==>
        || (parameters.authenticationType == ApiKey && parameters.apiKey.None?)
        || parameters.authenticationType.Undefined?
    ensures var built := BuildFromConfig(parameters);
      built.Success? ==>
        var dispatcher := Build(built.value);
        && dispatcher.languageUrl == parameters.languageEndpoint
        && dispatcher.modelMappings == parameters.modelMappings
        && AuthTypeOf(dispatcher.authHandler) == parameters.authenticationType
        && (parameters.authenticationType == ApiKey ==> dispatcher.authHandler == KeyAuth(parameters.apiKey.value))
  {
  }

  /** A Polly outcome: a response with its status code, or an exception. */
  datatype ResilienceOutcome = ResponseOutcome(statusCode: int) | ExceptionOutcome(exception: HttpException)

  /** The `ShouldHandle` predicate shared by the retry and circuit-breaker
      strategies. */
  predicate ShouldHandle(outcome: ResilienceOutcome)
  {
    match outcome
    case ResponseOutcome(code) => code in StatusCodesToRetry
    case ExceptionOutcome(e) =>
      e.HttpRequestException? && e.statusCode.Some? && e.statusCode.value in StatusCodesToRetry
  }

  /** Only 429 is transient: a 429 response, or an HttpRequestException
      carrying 429. */
  lemma ShouldHandleOnlyTooManyRequests(outcome: ResilienceOutcome)
    ensures ShouldHandle(outcome) <==>
      || outcome == ResponseOutcome(429)
      || outcome == ExceptionOutcome(HttpRequestException(Some(429)))
  {
  }

  /** An HttpRequestException is treated like a response with its status code;
      one without a status code (a connection failure) is never retried. */
  lemma ExceptionAgreesWithResponse(code: int)
    ensures ShouldHandle(ExceptionOutcome(HttpRequestException(Some(code)))) == ShouldHandle(ResponseOutcome(code))
    ensures !ShouldHandle(ExceptionOutcome(HttpRequestException(None)))
  {
  }
}
