/** The Azure OpenAI incoming-call detector: decides whether a request path is
    in the Azure OpenAI dialect (`/openai/...`) and, if so, extracts the call
    type, the requested deployment (model) and the prompt text.

    The JSON body is an abstract, already-parsed value; reading the stream and
    parsing it are outside the model. */
module Detector {
  import opened Wrappers
  import opened Text

  /** The path segment that marks the Azure OpenAI dialect. */
  const OpenAISegment: string := "/openai"
  /** The path token that introduces a deployment (model) name. */
  const DeploymentsToken: string := "deployments"
  /** `Environment.NewLine` on the hosting platform (Linux). */
  const NewLine: string := "\n"

  datatype AIServiceType = AzureOpenAI

  datatype AICallType = Chat | Completions | Embeddings | Other

  /** One entry of the chat body's `messages` array; `content` may be missing or null. */
  datatype Message = Message(content: Option<string>)

  /** The parts of the parsed JSON object the detector looks at: the optional
      `messages` array, the optional `prompt` array (whose entries may be null)
      and the optional `input` string. */
  datatype RequestBody = RequestBody(
    messages: Option<seq<Message>>,
    prompt: Option<seq<Option<string>>>,
    input: Option<string>)

  datatype IncomingCallDetails = IncomingCallDetails(
    serviceType: AIServiceType,
    callType: AICallType,
    promptText: Option<string>,
    incomingModelName: Option<string>,
    requestContent: Option<RequestBody>)

  /** The exceptions `Detect` can end in: an index past the end of the split
      path, or a body that is not a JSON object. */
  datatype DetectError = IndexOutOfRange | MalformedBody

  /** The result for every call type the detector does not recognise. */
  const OtherCall := IncomingCallDetails(AzureOpenAI, Other, None, None, None)

  /** `CanDetect`: the path starts with the whole segment `/openai`. */
  predicate CanDetect(path: string)
  {
    StartsWithSegments(path, OpenAISegment)
  }

  /** The call-type switch: exact, case-sensitive string equality. */
  function CallTypeOf(token: string): (t: AICallType)
    ensures t == Chat <==> token == "chat"
    ensures t == Completions <==> token == "completions"
    ensures t == Embeddings <==> token == "embeddings"
  {
    match token
    case "chat" => Chat
    case "completions" => Completions
    case "embeddings" => Embeddings
    case _ => Other
  }

  /** `messages.Select(x => x.Value<string>("content"))`, with null joined as "". */
  function MessageContents(ms: seq<Message>): seq<string>
  {
    seq(|ms|, i requires 0 <= i < |ms| => ms[i].content.GetOr(""))
  }

  /** `prompt.Select(x => x.Value<string>())`, with null joined as "". */
  function PromptEntries(ps: seq<Option<string>>): seq<string>
  {
    seq(|ps|, i requires 0 <= i < |ps| => ps[i].GetOr(""))
  }

  /** The prompt-text switch for the three body-reading call types. */
  function PromptText(callType: AICallType, body: RequestBody): string
    requires callType != Other
  {
    match callType
    case Chat => Join(MessageContents(body.messages.GetOr([])), NewLine)
    case Embeddings => body.input.GetOr("")
    case Completions => Join(PromptEntries(body.prompt.GetOr([])), NewLine)
  }

  /** `Detect`: split what follows `/openai` on '/', read the model and the
      call-type token, and for every call type but Other read the body.
      `path` is the request path in its escaped form, as `PathString.ToString()`
      renders it (characters outside the URI path set percent-encoded), so a
      model segment such as `my model` arrives here as `my%20model`. The
      escaping leaves ASCII letters and '/' alone, so the `/openai` match reads
      the same on either form. `body` is None when the request content is not a
      JSON object. */
  function Detect(path: string, body: Option<RequestBody>): (r: Result<IncomingCallDetails, DetectError>)
    ensures r.Success? ==> CanDetect(path) && r.value.serviceType == AzureOpenAI
    ensures r.Success? && r.value.callType == Other ==> r.value == OtherCall
    ensures r.Success? && r.value.callType != Other ==>
      && body.Some?
      && r.value.requestContent == body
      && r.value.promptText == Some(PromptText(r.value.callType, body.value))
    ensures r == Failure(MalformedBody) ==> body.None?
  {
    var remaining := Split(RemainingSegments(path, OpenAISegment), '/');
    if |remaining| < 2 then Failure(IndexOutOfRange)
    else if remaining[1] == DeploymentsToken && |remaining| < 4 then Failure(IndexOutOfRange)
    else
      var isDeployment := remaining[1] == DeploymentsToken;
      var incomingModelName := if isDeployment then Some(remaining[2]) else None;
      var callType := CallTypeOf(if isDeployment then remaining[3] else remaining[1]);
      if callType == Other then Success(OtherCall)
      else if body.None? then Failure(MalformedBody)
      else Success(IncomingCallDetails(
        AzureOpenAI, callType, Some(PromptText(callType, body.value)), incomingModelName, body))
  }

  /** `/openai` followed by `rest` is detected exactly when `rest` is empty or a
      further path segment. */
  lemma CanDetectWholeSegment(rest: string)
    ensures CanDetect(OpenAISegment + rest) <==> rest == [] || rest[0] == '/'
  {
    var p := OpenAISegment + rest;
    assert p[..7] == OpenAISegment;
    if |rest| > 0 { assert p[7] == rest[0]; }
  }

  /** A reference definition of `CanDetect` through the path's segments: the
      path is rooted and its first segment is `openai`, ignoring case. */
  lemma CanDetectFirstSegment(path: string)
    ensures CanDetect(path) <==>
      var segments := Split(path, '/');
      |segments| >= 2 && segments[0] == "" && EqualsIgnoreCase(segments[1], "openai")
  {
    var segments := Split(path, '/');
    if path == [] {
      assert segments == [""];
    } else if path[0] != '/' {
      assert segments[0] != "";
      if |path| >= 7 {
        assert ToUpperAscii(path[..7][0]) != ToUpperAscii(OpenAISegment[0]);
      }
    } else {
      var tail := path[1..];
      assert segments == [""] + Split(tail, '/');
      SplitHeadIsPrefix(tail, '/');
      var h := Split(tail, '/')[0];
      assert segments[1] == h;
      if CanDetect(path) {
        var t6 := tail[..6];
        assert path[..7] == [path[0]] + t6;
        assert EqualsIgnoreCase(t6, "openai") by {
          forall i | 0 <= i < 6 ensures ToUpperAscii(t6[i]) == ToUpperAscii("openai"[i]) {
            assert t6[i] == path[..7][i + 1];
          }
        }
        assert '/' !in t6 by {
          forall i | 0 <= i < 6 ensures t6[i] != '/' {
            assert ToUpperAscii(t6[i]) == ToUpperAscii("openai"[i]);
          }
        }
        assert tail == t6 + tail[6..];
        SplitHead(t6, '/', tail[6..]);
      }
      if EqualsIgnoreCase(h, "openai") {
        assert |h| == 6;
        assert path[..7] == [path[0]] + h;
        assert EqualsIgnoreCase(path[..7], OpenAISegment) by {
          forall i | 0 <= i < 7 ensures ToUpperAscii(path[..7][i]) == ToUpperAscii(OpenAISegment[i]) {
            if i > 0 { assert path[..7][i] == h[i - 1]; }
          }
        }
      }
    }
  }

  /** What follows `/openai` is the remaining path whenever it is a whole segment. */
  lemma RemainingAfterPrefix(rest: string)
    requires rest == [] || rest[0] == '/'
    ensures RemainingSegments(OpenAISegment + rest, OpenAISegment) == rest
  {
    CanDetectWholeSegment(rest);
    assert (OpenAISegment + rest)[7..] == rest;
  }

  /** A rooted path splits into an empty first piece and the pieces of the rest. */
  lemma SplitRooted(x: string)
    ensures Split(['/'] + x, '/') == [""] + Split(x, '/')
  {
    assert ['/'] + x == "" + ['/'] + x;
    SplitCons("", '/', x);
  }

  /** The pieces of `/openai/{x}` after the prefix: an empty piece, then the
      pieces of `x`. */
  lemma RootedRemainder(x: string)
    ensures Split(RemainingSegments(OpenAISegment + (['/'] + x), OpenAISegment), '/') == [""] + Split(x, '/')
  {
    RemainingAfterPrefix(['/'] + x);
    SplitRooted(x);
  }

  /** `/openai/deployments/{model}/{op}{tail}` is `/openai` followed by `/` and
      the rest of the path. */
  lemma DeploymentPathShape(model: string, op: string, tail: string)
    ensures OpenAISegment + "/deployments/" + model + "/" + op + tail
         == OpenAISegment + (['/'] + (DeploymentsToken + ['/'] + (model + ['/'] + (op + tail))))
  {
  }

  /** The pieces of `deployments/{model}/{op}{tail}`. */
  lemma DeploymentPieces(model: string, op: string, tail: string)
    requires '/' !in model && '/' !in op
    requires tail == [] || tail[0] == '/'
    ensures var pieces := Split(DeploymentsToken + ['/'] + (model + ['/'] + (op + tail)), '/');
      |pieces| >= 3 && pieces[0] == DeploymentsToken && pieces[1] == model && pieces[2] == op
  {
    SplitCons(DeploymentsToken, '/', model + ['/'] + (op + tail));
    SplitCons(model, '/', op + tail);
    SplitHead(op, '/', tail);
  }

  /** The segments of `/openai/deployments/{model}/{op}{tail}`. */
  lemma DeploymentSegments(model: string, op: string, tail: string)
    requires '/' !in model && '/' !in op
    requires tail == [] || tail[0] == '/'
    ensures var remaining := Split(RemainingSegments(OpenAISegment + "/deployments/" + model + "/" + op + tail, OpenAISegment), '/');
      |remaining| >= 4 && remaining[1] == DeploymentsToken && remaining[2] == model && remaining[3] == op
  {
    DeploymentPathShape(model, op, tail);
    RootedRemainder(DeploymentsToken + ['/'] + (model + ['/'] + (op + tail)));
    DeploymentPieces(model, op, tail);
  }

  /** The segments of `/openai/{op}{tail}`. */
  lemma DirectSegments(op: string, tail: string)
    requires '/' !in op
    requires tail == [] || tail[0] == '/'
    ensures var remaining := Split(RemainingSegments(OpenAISegment + "/" + op + tail, OpenAISegment), '/');
      |remaining| >= 2 && remaining[1] == op
  {
    var path := OpenAISegment + "/" + op + tail;
    assert path == OpenAISegment + (['/'] + (op + tail));
    assert Split(RemainingSegments(path, OpenAISegment), '/') == [""] + Split(op + tail, '/') by {
      RootedRemainder(op + tail);
    }
    assert Split(op + tail, '/')[0] == op by {
      SplitHead(op, '/', tail);
    }
  }

  /** On a deployment path the model is the segment after `deployments`, in
      its escaped form like the rest of the path, and the call type comes from
      the segment after that; an unrecognised call type yields the bare Other
      result whatever the body, and a recognised one fails only when the body
      is not a JSON object. */
  lemma DetectDeploymentPath(model: string, op: string, tail: string, body: Option<RequestBody>)
    requires '/' !in model && '/' !in op
    requires tail == [] || tail[0] == '/'
    ensures var r := Detect(OpenAISegment + "/deployments/" + model + "/" + op + tail, body);
      && (CallTypeOf(op) == Other ==> r == Success(OtherCall))
      && (CallTypeOf(op) != Other && body.None? ==> r == Failure(MalformedBody))
      && (CallTypeOf(op) != Other && body.Some? ==>
            r.Success? && r.value.callType == CallTypeOf(op) && r.value.incomingModelName == Some(model))
  {
    DeploymentSegments(model, op, tail);
  }

  /** Off a deployment path no model is extracted and the first segment after
      `/openai` is the call-type token. */
  lemma DetectDirectPath(op: string, tail: string, body: Option<RequestBody>)
    requires '/' !in op && op != DeploymentsToken
    requires tail == [] || tail[0] == '/'
    ensures var r := Detect(OpenAISegment + "/" + op + tail, body);
      && (CallTypeOf(op) == Other ==> r == Success(OtherCall))
      && (CallTypeOf(op) != Other && body.None? ==> r == Failure(MalformedBody))
      && (CallTypeOf(op) != Other && body.Some? ==>
            r.Success? && r.value.callType == CallTypeOf(op) && r.value.incomingModelName == None)
  {
    DirectSegments(op, tail);
  }

  /** The chat path of the pipeline tests, taken apart into its segments. */
  lemma ChatPathSegments(path: string)
    requires path == "/openai/deployments/random/chat/completions"
    ensures path == OpenAISegment + "/deployments/" + "random" + "/" + "chat" + "/completions"
  {
  }

  /** The chat request from the pipeline tests: model `random`, type Chat. */
  lemma DetectChatExample(path: string, body: RequestBody)
    requires path == "/openai/deployments/random/chat/completions"
    ensures var r := Detect(path, Some(body));
      r.Success? && r.value.callType == Chat && r.value.incomingModelName == Some("random")
  {
    ChatPathSegments(path);
    DetectDeploymentPath("random", "chat", "/completions", Some(body));
  }

  /** A path outside the dialect leaves nothing to split, so `Detect` fails
      with an index error. */
  lemma DetectForeignPath(path: string, body: Option<RequestBody>)
    requires !CanDetect(path)
    ensures Detect(path, body) == Failure(IndexOutOfRange)
  {
    assert Split("", '/') == [""];
  }

  /** `/openai` alone has no call-type segment: an index error. */
  lemma DetectBarePrefix(body: Option<RequestBody>)
    ensures Detect(OpenAISegment, body) == Failure(IndexOutOfRange)
  {
    assert OpenAISegment[..7] == OpenAISegment;
    assert RemainingSegments(OpenAISegment, OpenAISegment) == "";
    assert Split("", '/') == [""];
  }

  /** A deployment path that stops before the call-type segment fails with an
      index error: `/openai/deployments` alone, or followed by one more
      segment (the model) and nothing after it. */
  lemma DetectTruncatedDeployment(rest: string, body: Option<RequestBody>)
    requires rest == [] || (rest[0] == '/' && '/' !in rest[1..])
    ensures Detect(OpenAISegment + "/deployments" + rest, body) == Failure(IndexOutOfRange)
  {
    var path := OpenAISegment + "/deployments" + rest;
    var x := DeploymentsToken + rest;
    assert path == OpenAISegment + (['/'] + x);
    assert |Split(x, '/')| <= 2 by {
      if rest == [] {
        assert '/' !in x;
        SplitNoSeparator(x, '/');
      } else {
        assert x == DeploymentsToken + ['/'] + rest[1..];
        SplitCons(DeploymentsToken, '/', rest[1..]);
        SplitNoSeparator(rest[1..], '/');
      }
    }
    assert |Split(RemainingSegments(path, OpenAISegment), '/')| <= 3 by {
      RootedRemainder(x);
    }
    assert Split(RemainingSegments(path, OpenAISegment), '/')[1] == DeploymentsToken by {
      RootedRemainder(x);
      SplitHead(DeploymentsToken, '/', rest);
    }
  }

  /** For the Other call type the body is never read: the result is the same
      bare Other result for every body, parsed or not. */
  lemma DetectOtherIgnoresBody(path: string, body: Option<RequestBody>, other: Option<RequestBody>)
    requires Detect(path, body).Success? && Detect(path, body).value.callType == Other
    ensures Detect(path, other) == Detect(path, body) == Success(OtherCall)
  {
  }

  /** Chat prompt text lists every message's content, in order, one per line:
      splitting it on the newline gives the contents back (missing content
      counting as ""), provided no content itself holds a newline. */
  lemma ChatPromptLines(body: RequestBody)
    requires body.messages.Some? && |body.messages.value| >= 1
    requires forall i :: 0 <= i < |body.messages.value| ==> '\n' !in body.messages.value[i].content.GetOr("")
    ensures var lines := Split(PromptText(Chat, body), '\n');
      && |lines| == |body.messages.value|
      && forall i :: 0 <= i < |lines| ==> lines[i] == body.messages.value[i].content.GetOr("")
  {
    SplitJoin(MessageContents(body.messages.value), '\n');
  }

  /** Completions prompt text lists the `prompt` entries, in order, one per line. */
  lemma CompletionsPromptLines(body: RequestBody)
    requires body.prompt.Some? && |body.prompt.value| >= 1
    requires forall i :: 0 <= i < |body.prompt.value| ==> '\n' !in body.prompt.value[i].GetOr("")
    ensures var lines := Split(PromptText(Completions, body), '\n');
      && |lines| == |body.prompt.value|
      && forall i :: 0 <= i < |lines| ==> lines[i] == body.prompt.value[i].GetOr("")
  {
    SplitJoin(PromptEntries(body.prompt.value), '\n');
  }

  /** Absent fields give an empty prompt; embeddings take `input` verbatim. */
  lemma PromptTextOfAbsentFields(body: RequestBody)
    ensures body.messages == None ==> PromptText(Chat, body) == ""
    ensures body.prompt == None ==> PromptText(Completions, body) == ""
    ensures PromptText(Embeddings, body) == if body.input.Some? then body.input.value else ""
  {
  }
}
