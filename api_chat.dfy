/** The POST handler of src/routes/api.chat.ts: settings resolution, the
    status decisions, context-patch detection and the system prompt the
    chat stream is started with. The network (the detection call and the
    chat stream itself), the request's body parsing and the environment
    are inputs. */
module ChatRoute {
  import opened Common
  import opened Json
  import opened AdapterUtils
  import opened ContextPatches

  const RouteClaudeDetectionModel := "claude-3-5-haiku-latest"
  const RouteGptDetectionModel := "gpt-4o-mini"
  const DefaultModel := "gpt-4.1"
  const DefaultBaseUrl := "https://api.openai.com/v1"
  const MissingKeyError := "Missing OPENAI_API_KEY"
  const FailedError := "Failed to process request"
  const EmptyMatches := "[]"

  /** The route's own `getDetectionModel`. */
  function RouteDetectionModel(mainModel: string): (r: string)
    ensures Includes(mainModel, ThinkMarker) ==> r == RemoveFirst(mainModel, ThinkMarker)
    ensures !Includes(mainModel, ThinkMarker) && Includes(mainModel, "claude") ==> r == RouteClaudeDetectionModel
    ensures !Includes(mainModel, ThinkMarker) && !Includes(mainModel, "claude") && Includes(mainModel, "gpt")
      ==> r == RouteGptDetectionModel
    ensures !Includes(mainModel, ThinkMarker) && !Includes(mainModel, "claude") && !Includes(mainModel, "gpt")
      ==> r == mainModel
  {
    if Includes(mainModel, ThinkMarker) then RemoveFirst(mainModel, ThinkMarker)
    else if Includes(mainModel, "claude") then RouteClaudeDetectionModel
    else if Includes(mainModel, "gpt") then RouteGptDetectionModel
    else mainModel
  }

  /** The route and the context-patch library pick the same detection
      model for a thinking model and for an unknown one, and different ones
      for Claude and GPT models. */
  lemma DetectionModelsDiffer(mainModel: string)
    ensures (Includes(mainModel, ThinkMarker) || (!Includes(mainModel, "claude") && !Includes(mainModel, "gpt")))
      <==> RouteDetectionModel(mainModel) == GetDetectionModel(mainModel)
  {
    if !Includes(mainModel, ThinkMarker) && Includes(mainModel, "claude") {
      assert RouteDetectionModel(mainModel)[7] != GetDetectionModel(mainModel)[7];
    } else if !Includes(mainModel, ThinkMarker) && Includes(mainModel, "gpt") {
      assert |RouteDetectionModel(mainModel)| != |GetDetectionModel(mainModel)|;
    }
  }

  /** `setting || fromEnv || fallback`, for optional strings. */
  function Resolve(setting: Option<string>, fromEnv: Option<string>, fallback: string): (r: string)
    ensures setting.Some? && setting.value != "" ==> r == setting.value
    ensures (setting.None? || setting.value == "") && fromEnv.Some? && fromEnv.value != "" ==> r == fromEnv.value
    ensures (setting.None? || setting.value == "") && (fromEnv.None? || fromEnv.value == "") ==> r == fallback
  {
    if setting.Some? && setting.value != "" then setting.value
    else if fromEnv.Some? && fromEnv.value != "" then fromEnv.value
    else fallback
  }

  datatype Settings = Settings(baseURL: Option<string>, apiKey: Option<string>, model: Option<string>)

  /** A client message: its role and its `content` (`null` when absent). */
  datatype RouteMessage = RouteMessage(role: string, content: JsonValue)

  datatype RequestBody = RequestBody(messages: seq<RouteMessage>, settings: Option<Settings>)

  /** What `request.json()` gives: the body, or what it threw. */
  datatype BodyResult = BodyParsed(body: RequestBody) | BodyFailed(error: Thrown)

  /** The server's environment variables that the handler reads. */
  datatype Env = Env(
    openaiModel: Option<string>,
    openaiApiKey: Option<string>,
    openaiBaseUrl: Option<string>,
    useCompletionsApi: Option<string>)

  /** `settings?.model`, `settings?.apiKey`, `settings?.baseURL`. */
  function ModelSetting(settings: Option<Settings>): Option<string> {
    if settings.Some? then settings.value.model else None
  }

  function ApiKeySetting(settings: Option<Settings>): Option<string> {
    if settings.Some? then settings.value.apiKey else None
  }

  function BaseUrlSetting(settings: Option<Settings>): Option<string> {
    if settings.Some? then settings.value.baseURL else None
  }

  function ModelFor(body: RequestBody, env: Env): string {
    Resolve(ModelSetting(body.settings), env.openaiModel, DefaultModel)
  }

  function ApiKeyFor(body: RequestBody, env: Env): string {
    Resolve(ApiKeySetting(body.settings), env.openaiApiKey, "")
  }

  function BaseUrlFor(body: RequestBody, env: Env): string {
    Resolve(BaseUrlSetting(body.settings), env.openaiBaseUrl, DefaultBaseUrl)
  }

  /** The model and base URL always resolve to something; the key is empty
      exactly when neither the request nor the environment gives one. */
  lemma ResolvedSettings(body: RequestBody, env: Env)
    ensures ModelFor(body, env) != "" && BaseUrlFor(body, env) != ""
    ensures ApiKeyFor(body, env) == "" <==>
      (ApiKeySetting(body.settings).None? || ApiKeySetting(body.settings).value == "")
      && (env.openaiApiKey.None? || env.openaiApiKey.value == "")
  {
  }

  datatype AdapterKind = CompatAdapter | ResponsesAdapter

  /** The chat-completions adapter only for the exact string "true". */
  function AdapterFor(env: Env): (r: AdapterKind)
    ensures r == CompatAdapter <==> env.useCompletionsApi == Some("true")
  {
    if env.useCompletionsApi == Some("true") then CompatAdapter else ResponsesAdapter
  }

  /** The response of the detection call: the HTTP outcome and the first
      choice's message content (`None` when missing or `null`), or a failure
      of the request itself. */
  datatype DetectionReply = Replied(ok: bool, status: int, content: Option<string>) | FetchFailed

  /** The detection call, given prompt, API key, base URL and model. */
  type DetectionCall = (string, string, string, string) -> DetectionReply

  /** What `detectPatches` resolves to: `None` when it throws (a failed
      request or a non-ok status), `"[]"` for an empty or missing content. */
  function DetectionText(reply: DetectionReply): (r: Option<string>)
    ensures r.None? <==> reply.FetchFailed? || !reply.ok
    ensures r.Some? ==> r.value != ""
    ensures r.Some? && (reply.content.None? || reply.content.value == "") ==> r.value == EmptyMatches
    ensures r.Some? && reply.content.Some? && reply.content.value != "" ==> r.value == reply.content.value
  {
    match reply
    case FetchFailed => None
    case Replied(ok, _, content) =>
      if !ok then None
      else if content.Some? && content.value != "" then Some(content.value)
      else Some(EmptyMatches)
  }

  /** The content of the last message with role "user", or "" when there
      is none or its content is not a string. */
  function LastUserContent(messages: seq<RouteMessage>): string
    decreases |messages|
  {
    if |messages| == 0 then ""
    else
      var last := messages[|messages| - 1];
      if last.role == "user" then (if last.content.JString? then last.content.s else "")
      else LastUserContent(messages[..|messages| - 1])
  }

  predicate LastUserAt(messages: seq<RouteMessage>, k: int) {
    && 0 <= k < |messages| && messages[k].role == "user"
    && forall j :: k < j < |messages| ==> messages[j].role != "user"
  }

  /** The detection looks at the last user message, and only at a string
      content. */
  lemma {:induction false} LastUserContentIsLastUsers(messages: seq<RouteMessage>, k: int)
    requires LastUserAt(messages, k)
    ensures LastUserContent(messages) == if messages[k].content.JString? then messages[k].content.s else ""
    decreases |messages|
  {
    if k < |messages| - 1 {
      assert LastUserAt(messages[..|messages| - 1], k);
      LastUserContentIsLastUsers(messages[..|messages| - 1], k);
    }
  }

  lemma {:induction false} NoUserMessageGivesEmpty(messages: seq<RouteMessage>)
    requires forall j :: 0 <= j < |messages| ==> messages[j].role != "user"
    ensures LastUserContent(messages) == ""
    decreases |messages|
  {
    if |messages| > 0 {
      NoUserMessageGivesEmpty(messages[..|messages| - 1]);
    }
  }

  /** The patches `loadPatches` returns for the patch directory. */
  function LoadedPatches(dir: Directory): seq<ContextPatch> {
    if dir.Missing? then [] else Loaded(SortNames(dir.names), dir.readable)
  }

  /** The text the detection step adds to the system prompt: nothing
      without patches, without a user message, or when detection fails. */
  function Injection(patches: seq<ContextPatch>, messages: seq<RouteMessage>, model: string, apiKey: string,
                     baseURL: string, detect: DetectionCall, parse: Parser): string
  {
    var userContent := LastUserContent(messages);
    if |patches| == 0 || userContent == "" then ""
    else
      var reply := detect(BuildDetectionPrompt(patches, userContent), apiKey, baseURL, RouteDetectionModel(model));
      match DetectionText(reply)
      case None => ""
      case Some(text) => InjectionContent(patches, ParseDetectionResponse(text, parse))
  }

  /** Detection changes the prompt only when there are patches, a user
      message with text, a successful detection call, and a match naming a
      known patch. */
  lemma InjectionNeedsDetection(patches: seq<ContextPatch>, messages: seq<RouteMessage>, model: string,
                                apiKey: string, baseURL: string, detect: DetectionCall, parse: Parser)
    ensures Injection(patches, messages, model, apiKey, baseURL, detect, parse) != "" ==>
      && |patches| > 0 && LastUserContent(messages) != ""
      && var reply := detect(BuildDetectionPrompt(patches, LastUserContent(messages)), apiKey, baseURL, RouteDetectionModel(model));
         && DetectionText(reply).Some?
         && exists k :: 0 <= k < |ParseDetectionResponse(DetectionText(reply).value, parse)|
              && Known(patches, ParseDetectionResponse(DetectionText(reply).value, parse)[k])
  {
    var userContent := LastUserContent(messages);
    if |patches| > 0 && userContent != "" {
      var reply := detect(BuildDetectionPrompt(patches, userContent), apiKey, baseURL, RouteDetectionModel(model));
      if DetectionText(reply).Some? {
        InjectionEmptyIffNothingKnown(patches, ParseDetectionResponse(DetectionText(reply).value, parse));
      }
    }
  }

  /** The handler's response. */
  datatype Response =
    | EmptyResponse(status: int)
    | JsonError(status: int, error: string)
    | EventStream(adapter: AdapterKind, model: string, apiKey: string, baseURL: string, systemPrompt: string)

  /** The outer catch: an AbortError or an aborted controller is 499,
      anything else a 500 with a JSON error. */
  function CaughtResponse(e: Thrown, controllerAborted: bool): (r: Response)
    ensures r == EmptyResponse(499) <==> (e.ErrorObject? && e.name == "AbortError") || controllerAborted
    ensures r != EmptyResponse(499) ==> r == JsonError(500, FailedError)
  {
    if (e.ErrorObject? && e.name == "AbortError") || controllerAborted then EmptyResponse(499)
    else JsonError(500, FailedError)
  }

  /** The detection step of `POST /api/chat`: the injection text, empty when
      a step is skipped or fails. */
  method DetectInjection(patches: seq<ContextPatch>, messages: seq<RouteMessage>, model: string, apiKey: string,
                         baseURL: string, detect: DetectionCall, parse: Parser) returns (injection: string)
    ensures injection == Injection(patches, messages, model, apiKey, baseURL, detect, parse)
  {
    injection := "";
    if |patches| > 0 {
      var userContent := LastUserContent(messages);
      if userContent != "" {
        var detectionPrompt := BuildDetectionPrompt(patches, userContent);
        var detectionResponse := DetectionText(detect(detectionPrompt, apiKey, baseURL, RouteDetectionModel(model)));
        if detectionResponse.Some? {
          var matches := ParseDetectionResponse(detectionResponse.value, parse);
          injection := BuildInjectionContent(patches, matches);
        }
      }
    }
  }

  /** `POST /api/chat`. `startFailure` is what starting the chat stream
      threw, if it did. `controllerAborted` is whether the stream's abort
      controller was aborted by then; reading the body happens before the
      controller is handed to anything, so a body failure sees it unaborted. */
  method Post(requestAborted: bool, body: BodyResult, env: Env, dir: Directory, detect: DetectionCall,
              parse: Parser, basePrompt: string, startFailure: Option<Thrown>, controllerAborted: bool)
    returns (resp: Response)
    ensures requestAborted ==> resp == EmptyResponse(499)
    ensures !requestAborted && body.BodyFailed? ==> resp == CaughtResponse(body.error, false)
    ensures !requestAborted && body.BodyParsed? && ApiKeyFor(body.body, env) == "" ==>
      resp == JsonError(500, MissingKeyError)
    ensures !requestAborted && body.BodyParsed? && ApiKeyFor(body.body, env) != "" && startFailure.Some? ==>
      resp == CaughtResponse(startFailure.value, controllerAborted)
    ensures !requestAborted && body.BodyParsed? && ApiKeyFor(body.body, env) != "" && startFailure.None? ==>
      var b := body.body;
      resp == EventStream(AdapterFor(env), ModelFor(b, env), ApiKeyFor(b, env), BaseUrlFor(b, env),
        basePrompt + Injection(LoadedPatches(dir), b.messages, ModelFor(b, env), ApiKeyFor(b, env),
                               BaseUrlFor(b, env), detect, parse))
  {
    if requestAborted {
      return EmptyResponse(499);
    }
    if body.BodyFailed? {
      return CaughtResponse(body.error, false);
    }
    var messages := body.body.messages;
    var settings := body.body.settings;
    var model := Resolve(ModelSetting(settings), env.openaiModel, DefaultModel);
    var apiKey := Resolve(ApiKeySetting(settings), env.openaiApiKey, "");
    var baseURL := Resolve(BaseUrlSetting(settings), env.openaiBaseUrl, DefaultBaseUrl);
    var useCompletionsAPI := env.useCompletionsApi == Some("true");
    if apiKey == "" {
      return JsonError(500, MissingKeyError);
    }
    var systemPrompt := basePrompt;
    var patches := LoadPatches(dir);
    var injection := DetectInjection(patches, messages, model, apiKey, baseURL, detect, parse);
    if injection != "" {
      systemPrompt := basePrompt + injection;
    } else {
      assert basePrompt + injection == basePrompt;
    }
    if startFailure.Some? {
      return CaughtResponse(startFailure.value, controllerAborted);
    }
    resp := EventStream(if useCompletionsAPI then CompatAdapter else ResponsesAdapter, model, apiKey, baseURL, systemPrompt);
  }
}
