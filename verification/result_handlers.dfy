/** The buffered (JSON) result handler: copies the downstream response onto the
    outgoing HTTP response. The outgoing response is modelled with the guards
    the hosting framework puts on it: once the body has started, the status
    code, the headers and the content type can no longer be changed. */
module ResultHandlers {
  import opened Wrappers

  /** The diagnostic header carrying the call's duration in milliseconds. */
  const DurationHeader: string := "x-aicentral-duration"
  const JsonContentType: string := "application/json"
  /** The status code of a fresh response. */
  const DefaultStatusCode: int := 200

  /** What happened to an outgoing response, in order. */
  datatype ResponseEvent =
    | StatusCodeSet(code: int)
    | HeaderAdded(name: string, value: string)
    | ContentTypeSet(contentType: string)
    | BodyWritten(text: string)

  /** The exceptions the steps below can raise: changing a response that has
      started, adding a header that is already present, and reading the
      content of a disposed message. */
  datatype ResponseError = ResponseAlreadyStarted | DuplicateHeader(name: string) | ContentDisposed

  ghost predicate BodyStarted(log: seq<ResponseEvent>)
  {
    exists i :: 0 <= i < |log| && log[i].BodyWritten?
  }

  /** Nothing but body text follows the first body write. */
  ghost predicate HeadersBeforeBody(log: seq<ResponseEvent>)
  {
    forall i, j :: 0 <= i < j < |log| && log[i].BodyWritten? ==> log[j].BodyWritten?
  }

  /** Appending an event that is not a body write keeps the order when the
      body has not started. */
  lemma AppendBeforeBody(log: seq<ResponseEvent>, e: ResponseEvent)
    requires HeadersBeforeBody(log) && !BodyStarted(log) && !e.BodyWritten?
    ensures HeadersBeforeBody(log + [e]) && !BodyStarted(log + [e])
  {
    var log' := log + [e];
    forall i | 0 <= i < |log'| ensures !log'[i].BodyWritten? {
      if i < |log| { assert log'[i] == log[i]; }
    }
  }

  /** Appending a body write keeps the order and marks the body as started. */
  lemma AppendBody(log: seq<ResponseEvent>, text: string)
    requires HeadersBeforeBody(log)
    ensures HeadersBeforeBody(log + [BodyWritten(text)]) && BodyStarted(log + [BodyWritten(text)])
  {
    var log' := log + [BodyWritten(text)];
    assert log'[|log|].BodyWritten?;
    forall i, j | 0 <= i < j < |log'| && log'[i].BodyWritten? ensures log'[j].BodyWritten? {
      if j < |log| { assert log'[i] == log[i] && log'[j] == log[j]; }
    }
  }

  /** The outgoing HTTP response. */
  class HttpResponse {
    var statusCode: int
    var headers: map<string, string>
    var contentType: Option<string>
    var body: string
    var hasStarted: bool
    ghost var log: seq<ResponseEvent>

    ghost predicate Valid()
      reads this
    {
      (hasStarted <==> BodyStarted(log)) && HeadersBeforeBody(log)
    }

    constructor()
      ensures Valid()
      ensures statusCode == DefaultStatusCode && headers == map[] && contentType == None
      ensures body == "" && !hasStarted && log == []
    {
      statusCode := DefaultStatusCode;
      headers := map[];
      contentType := None;
      body := "";
      hasStarted := false;
      log := [];
    }

    /** `StatusCode = code`: refused once the response has started. */
    method SetStatusCode(code: int) returns (outcome: Outcome<ResponseError>)
      requires Valid()
      modifies this
      ensures Valid()
      ensures outcome == if old(hasStarted) then Fail(ResponseAlreadyStarted) else Pass
      ensures outcome.Fail? ==> unchanged(this)
      ensures outcome.Pass? ==>
        && statusCode == code && log == old(log) + [StatusCodeSet(code)]
        && headers == old(headers) && contentType == old(contentType)
        && body == old(body) && hasStarted == old(hasStarted)
    {
      if hasStarted {
        return Fail(ResponseAlreadyStarted);
      }
      AppendBeforeBody(log, StatusCodeSet(code));
      statusCode := code;
      log := log + [StatusCodeSet(code)];
      outcome := Pass;
    }

    /** `Headers.Add(name, value)`: refused once the response has started, and
        when the header is already present. */
    method AddHeader(name: string, value: string) returns (outcome: Outcome<ResponseError>)
      requires Valid()
      modifies this
      ensures Valid()
      ensures outcome ==
        if old(hasStarted) then Fail(ResponseAlreadyStarted)
        else if name in old(headers) then Fail(DuplicateHeader(name))
        else Pass
      ensures outcome.Fail? ==> unchanged(this)
      ensures outcome.Pass? ==>
        && headers == old(headers)[name := value] && log == old(log) + [HeaderAdded(name, value)]
        && statusCode == old(statusCode) && contentType == old(contentType)
        && body == old(body) && hasStarted == old(hasStarted)
    {
      if hasStarted {
        return Fail(ResponseAlreadyStarted);
      }
      if name in headers {
        return Fail(DuplicateHeader(name));
      }
      AppendBeforeBody(log, HeaderAdded(name, value));
      headers := headers[name := value];
      log := log + [HeaderAdded(name, value)];
      outcome := Pass;
    }

    /** `ContentType = contentType`: refused once the response has started. */
    method SetContentType(newContentType: string) returns (outcome: Outcome<ResponseError>)
      requires Valid()
      modifies this
      ensures Valid()
      ensures outcome == if old(hasStarted) then Fail(ResponseAlreadyStarted) else Pass
      ensures outcome.Fail? ==> unchanged(this)
      ensures outcome.Pass? ==>
        && contentType == Some(newContentType) && log == old(log) + [ContentTypeSet(newContentType)]
        && statusCode == old(statusCode) && headers == old(headers)
        && body == old(body) && hasStarted == old(hasStarted)
    {
      if hasStarted {
        return Fail(ResponseAlreadyStarted);
      }
      AppendBeforeBody(log, ContentTypeSet(newContentType));
      contentType := Some(newContentType);
      log := log + [ContentTypeSet(newContentType)];
      outcome := Pass;
    }

    /** `WriteAsync(text)`: starts the response and appends the text to the body. */
    method WriteAsync(text: string)
      requires Valid()
      modifies this
      ensures Valid()
      ensures body == old(body) + text && hasStarted && log == old(log) + [BodyWritten(text)]
      ensures statusCode == old(statusCode) && headers == old(headers) && contentType == old(contentType)
    {
      AppendBody(log, text);
      body := body + text;
      hasStarted := true;
      log := log + [BodyWritten(text)];
    }
  }

  /** The downstream response message: its status code, its content as text,
      and whether it has been disposed. */
  class HttpResponseMessage {
    var statusCode: int
    var content: string
    var disposed: bool

    constructor(statusCode: int, content: string)
      ensures this.statusCode == statusCode && this.content == content && !disposed
    {
      this.statusCode := statusCode;
      this.content := content;
      disposed := false;
    }

    /** `Content.ReadAsStringAsync()`: the content, unless disposed. */
    method ReadContent() returns (r: Result<string, ResponseError>)
      ensures r == if disposed then Failure(ContentDisposed) else Success(content)
    {
      if disposed {
        return Failure(ContentDisposed);
      }
      return Success(content);
    }

    method Dispose()
      modifies this
      ensures disposed && statusCode == old(statusCode) && content == old(content)
    {
      disposed := true;
    }
  }

  /** The usage information the handler reports: the call's duration, already
      formatted as milliseconds. */
  datatype AICentralUsageInformation = AICentralUsageInformation(durationMilliseconds: string)

  class JsonResultHandler {
    const openAiResponseMessage: HttpResponseMessage
    const aiCentralUsageInformation: AICentralUsageInformation

    constructor(openAiResponseMessage: HttpResponseMessage, aiCentralUsageInformation: AICentralUsageInformation)
      ensures this.openAiResponseMessage == openAiResponseMessage
      ensures this.aiCentralUsageInformation == aiCentralUsageInformation
    {
      this.openAiResponseMessage := openAiResponseMessage;
      this.aiCentralUsageInformation := aiCentralUsageInformation;
    }

    /** `ExecuteAsync`: status code, duration header and content type, then the
        body. On success the outgoing response carries the downstream status
        code, the duration header, `application/json` whatever the downstream
        content type was, and the downstream body verbatim, with every header
        change made before the body. A failing step leaves the steps before it
        done and the ones after it undone. */
    method ExecuteAsync(response: HttpResponse) returns (outcome: Outcome<ResponseError>)
      requires response.Valid()
      modifies response
      ensures response.Valid()
      ensures outcome.Pass? <==>
        !old(response.hasStarted) && DurationHeader !in old(response.headers) && !openAiResponseMessage.disposed
      ensures outcome.Pass? ==>
        && response.statusCode == openAiResponseMessage.statusCode
        && response.headers == old(response.headers)[DurationHeader := aiCentralUsageInformation.durationMilliseconds]
        && response.contentType == Some(JsonContentType)
        && response.body == old(response.body) + openAiResponseMessage.content
        && response.hasStarted
        && response.log == old(response.log) + [
             StatusCodeSet(openAiResponseMessage.statusCode),
             HeaderAdded(DurationHeader, aiCentralUsageInformation.durationMilliseconds),
             ContentTypeSet(JsonContentType),
             BodyWritten(openAiResponseMessage.content)]
      ensures old(response.hasStarted) ==> outcome == Fail(ResponseAlreadyStarted) && unchanged(response)
      ensures !old(response.hasStarted) && DurationHeader in old(response.headers) ==>
        && outcome == Fail(DuplicateHeader(DurationHeader))
        && response.log == old(response.log) + [StatusCodeSet(openAiResponseMessage.statusCode)]
        && response.statusCode == openAiResponseMessage.statusCode
        && response.headers == old(response.headers) && response.contentType == old(response.contentType)
        && response.body == old(response.body) && !response.hasStarted
      ensures !old(response.hasStarted) && DurationHeader !in old(response.headers) && openAiResponseMessage.disposed ==>
        && outcome == Fail(ContentDisposed)
        && response.log == old(response.log) + [
             StatusCodeSet(openAiResponseMessage.statusCode),
             HeaderAdded(DurationHeader, aiCentralUsageInformation.durationMilliseconds),
             ContentTypeSet(JsonContentType)]
        && response.statusCode == openAiResponseMessage.statusCode
        && response.headers == old(response.headers)[DurationHeader := aiCentralUsageInformation.durationMilliseconds]
        && response.contentType == Some(JsonContentType)
        && response.body == old(response.body) && !response.hasStarted
    {
      outcome := response.SetStatusCode(openAiResponseMessage.statusCode);
      if outcome.Fail? {
        return;
      }
      outcome := response.AddHeader(DurationHeader, aiCentralUsageInformation.durationMilliseconds);
      if outcome.Fail? {
        return;
      }
      outcome := response.SetContentType(JsonContentType);
      if outcome.Fail? {
        return;
      }
      var content := openAiResponseMessage.ReadContent();
      if content.Failure? {
        return Fail(content.error);
      }
      response.WriteAsync(content.value);
    }

    /** `Dispose`: disposes the downstream message and nothing else. */
    method Dispose()
      modifies openAiResponseMessage
      ensures openAiResponseMessage.disposed
      ensures openAiResponseMessage.statusCode == old(openAiResponseMessage.statusCode)
      ensures openAiResponseMessage.content == old(openAiResponseMessage.content)
    {
      openAiResponseMessage.Dispose();
    }
  }
}
