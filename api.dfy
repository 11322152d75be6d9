/**
 * The HTTP boundary of api.py: `trim`, and the key selection, mode
 * defaulting and payload building of the `POST /run` handler `run_task`.
 * The code generator it calls is an oracle here.
 */
module Api {
  import opened Wrappers

  /** The text `trim` appends after a cut. */
  const TruncationMarker: string := "\n\n...[truncated]"

  /** `trim`'s default limit, also the limit of `final_code`. */
  const DefaultLimit: nat := 8000

  /** `trim(text, limit)` on a string. */
  function Trim(text: string, limit: nat := DefaultLimit): (r: string)
    ensures |text| <= limit ==> r == text
    ensures |text| > limit ==> r == text[..limit] + TruncationMarker
    ensures |r| == if |text| <= limit then |text| else limit + |TruncationMarker|
  {
    if |text| <= limit then text else text[..limit] + TruncationMarker
  }

  /** The marker is 16 characters long. */
  lemma MarkerLength()
    ensures |TruncationMarker| == 16
  {
  }

  /** What `trim` keeps: the first `limit` characters, and the whole text when it fits. */
  lemma TrimKeepsPrefix(text: string, limit: nat)
    ensures |Trim(text, limit)| <= limit + 16
    ensures var n := if |text| <= limit then |text| else limit;
      Trim(text, limit)[..n] == text[..n]
  {
  }

  /** Trimming an already trimmed text changes nothing. */
  lemma TrimIdempotent(text: string, limit: nat)
    ensures Trim(Trim(text, limit), limit) == Trim(text, limit)
  {
    if |text| > limit {
      assert (text[..limit] + TruncationMarker)[..limit] == text[..limit];
    }
  }

  // ---------------------------------------------------------------------
  // Values of the untyped dictionaries the handler reads and returns

  datatype Value =
    | Null
    | Bool(b: bool)
    | Int(i: int)
    | Float(f: real)
    | Str(s: string)
    | List(items: seq<Value>)
    | Dict(entries: map<string, Value>)

  /** `trim` on any value: strings are trimmed, anything else is returned as it is. */
  function TrimValue(v: Value, limit: nat): (r: Value)
    ensures v.Str? <==> r.Str?
    ensures v.Str? ==> r.s == Trim(v.s, limit)
    ensures !v.Str? ==> r == v
  {
    match v
    case Str(s) => Str(Trim(s, limit))
    case _ => v
  }

  /** `d.get(key, default)`. */
  function Get(d: map<string, Value>, key: string, default: Value): (r: Value)
    ensures key in d ==> r == d[key]
    ensures key !in d ==> r == default
  {
    if key in d then d[key] else default
  }

  // ---------------------------------------------------------------------
  // The request and the handler

  /**
   * The body of `POST /run` after validation. `None` stands for a field
   * sent as null; the framework fills absent fields with their defaults.
   */
  datatype RunRequest = RunRequest(task: string, language: Option<string>, verbose: Option<bool>,
                                   apiKey: Option<string>, mode: Option<string>)

  /** The name of the environment variable holding the fallback key. */
  const KeyVariable: string := "GOOGLE_API_KEY"

  const MissingKeyDetail: string :=
    "Google AI Studio API key is required. Please provide it in the request body or set GOOGLE_API_KEY environment variable."

  /** Python truthiness of an optional string. */
  predicate Truthy(s: Option<string>) { s.Some? && s.value != "" }

  /** The request's key when it is non-empty, else `os.getenv("GOOGLE_API_KEY", "")`. */
  function SelectApiKey(requestKey: Option<string>, env: map<string, string>): (key: string)
    ensures Truthy(requestKey) ==> key == requestKey.value
    ensures !Truthy(requestKey) && KeyVariable in env ==> key == env[KeyVariable]
    ensures !Truthy(requestKey) && KeyVariable !in env ==> key == ""
    ensures key == "" <==> !Truthy(requestKey) && (KeyVariable !in env || env[KeyVariable] == "")
  {
    if Truthy(requestKey) then requestKey.value
    else if KeyVariable in env then env[KeyVariable] else ""
  }

  /** `req.mode or "fast"`. */
  function EffectiveMode(mode: Option<string>): (m: string)
    ensures Truthy(mode) ==> m == mode.value
    ensures !Truthy(mode) ==> m == "fast"
    ensures m != ""
  {
    if Truthy(mode) then mode.value else "fast"
  }

  /** The two result shapes the handler supports. */
  datatype TaskResult = TextResult(text: string) | DictResult(fields: map<string, Value>)

  /** The generator either returns a result or raises. */
  datatype GenOutcome = Produced(result: TaskResult) | Raised(reason: string)

  /** `super_code_generator(task=..., api_key=..., mode=...)` as an oracle. */
  type Generator = (string, string, string) -> GenOutcome

  datatype Response = Payload(fields: map<string, Value>) | HttpError(status: nat, detail: string)

  /** The keys of every payload the handler returns. */
  const PayloadKeys: set<string> := {
    "requirements", "selected_design", "final_code", "documentation", "security_audit",
    "performance_metrics", "complexity_score", "total_models_used", "messages",
    "workflow_started", "workflow_completed"
  }

  /** The response dictionary of the handler, one value per returned field. */
  function PayloadOf(requirements: Value, selectedDesign: Value, finalCode: Value, documentation: Value,
                     securityAudit: Value, metrics: Value, complexity: Value, totalModels: Value,
                     messages: Value, started: Value, completed: Value): (p: map<string, Value>)
    ensures p.Keys == PayloadKeys
    ensures && p["requirements"] == requirements && p["selected_design"] == selectedDesign
            && p["final_code"] == finalCode && p["documentation"] == documentation
            && p["security_audit"] == securityAudit && p["performance_metrics"] == metrics
            && p["complexity_score"] == complexity && p["total_models_used"] == totalModels
            && p["messages"] == messages && p["workflow_started"] == started
            && p["workflow_completed"] == completed
  {
    map[
      "requirements" := requirements,
      "selected_design" := selectedDesign,
      "final_code" := finalCode,
      "documentation" := documentation,
      "security_audit" := securityAudit,
      "performance_metrics" := metrics,
      "complexity_score" := complexity,
      "total_models_used" := totalModels,
      "messages" := messages,
      "workflow_started" := started,
      "workflow_completed" := completed
    ]
  }

  /** The payload for a result, as the two branches of the handler build it. */
  function BuildPayload(result: TaskResult): (p: map<string, Value>)
    ensures p.Keys == PayloadKeys
    ensures result.TextResult? ==>
      && p["final_code"] == Str(Trim(result.text))
      && p["total_models_used"] == Int(0) && p["messages"] == List([])
      && p["requirements"] == p["selected_design"] == p["documentation"] == p["security_audit"] == Str("")
      && p["performance_metrics"] == Dict(map[]) && p["complexity_score"] == Float(0.0)
      && p["workflow_started"] == p["workflow_completed"] == Null
  {
    match result
    case DictResult(d) =>
      PayloadOf(
        TrimValue(Get(d, "requirements", Str("")), 4000),
        TrimValue(Get(d, "selected_design", Str("")), 4000),
        TrimValue(Get(d, "final_code", Get(d, "final_output", Str(""))), 8000),
        TrimValue(Get(d, "documentation", Str("")), 6000),
        TrimValue(Get(d, "security_audit", Str("")), 4000),
        Get(d, "performance_metrics", Dict(map[])),
        Get(d, "complexity_score", Float(0.0)),
        Get(d, "total_models_used", Get(d, "total_models", Int(0))),
        Get(d, "messages", Get(d, "all_steps", List([]))),
        Get(d, "workflow_started", Null),
        Get(d, "workflow_completed", Get(d, "completed_at", Null)))
    case TextResult(s) =>
      PayloadOf(Str(""), Str(""), Str(Trim(s, 8000)), Str(""), Str(""), Dict(map[]), Float(0.0),
                Int(0), List([]), Null, Null)
  }

  /** The fallback chains of the dictionary branch, key by key. */
  lemma DictPayloadFallbacks(d: map<string, Value>)
    ensures var p := BuildPayload(DictResult(d));
      && p["final_code"] == TrimValue(
           if "final_code" in d then d["final_code"]
           else if "final_output" in d then d["final_output"] else Str(""), DefaultLimit)
      && p["total_models_used"] == (
           if "total_models_used" in d then d["total_models_used"]
           else if "total_models" in d then d["total_models"] else Int(0))
      && p["messages"] == (
           if "messages" in d then d["messages"]
           else if "all_steps" in d then d["all_steps"] else List([]))
      && p["workflow_completed"] == (
           if "workflow_completed" in d then d["workflow_completed"]
           else if "completed_at" in d then d["completed_at"] else Null)
  {
  }

  /** `run_task`: reject a request without any key, run the generator, wrap its result. */
  function RunTask(req: RunRequest, env: map<string, string>, generate: Generator): (r: Response)
    ensures SelectApiKey(req.apiKey, env) == "" ==> r == HttpError(400, MissingKeyDetail)
    ensures SelectApiKey(req.apiKey, env) != "" ==>
      match generate(req.task, SelectApiKey(req.apiKey, env), EffectiveMode(req.mode))
      case Raised(reason) => r == HttpError(500, "Error: " + reason)
      case Produced(result) => r == Payload(BuildPayload(result))
    ensures r.Payload? ==> r.fields.Keys == PayloadKeys
  {
    var apiKey := SelectApiKey(req.apiKey, env);
    if apiKey == "" then HttpError(400, MissingKeyDetail)
    else
      match generate(req.task, apiKey, EffectiveMode(req.mode))
      case Raised(reason) => HttpError(500, "Error: " + reason)
      case Produced(result) => Payload(BuildPayload(result))
  }

  /** Without a key the generator is never consulted: any two generators give the same 400. */
  lemma MissingKeyRejectedBeforeWork(req: RunRequest, env: map<string, string>, g1: Generator, g2: Generator)
    requires !Truthy(req.apiKey)
    requires KeyVariable !in env || env[KeyVariable] == ""
    ensures RunTask(req, env, g1) == RunTask(req, env, g2)
    ensures RunTask(req, env, g1).HttpError? && RunTask(req, env, g1).status == 400
  {
  }

  /**
   * A text result (what the code generator actually returns) reaches the
   * client as `final_code`, cut to 8000 characters plus the marker.
   */
  lemma TextResultReachesClient(req: RunRequest, env: map<string, string>, generate: Generator, text: string)
    requires SelectApiKey(req.apiKey, env) != ""
    requires generate(req.task, SelectApiKey(req.apiKey, env), EffectiveMode(req.mode)) == Produced(TextResult(text))
    ensures RunTask(req, env, generate).Payload?
    ensures var code := RunTask(req, env, generate).fields["final_code"];
      && code.Str? && |code.s| <= DefaultLimit + 16
      && (|text| <= DefaultLimit ==> code.s == text)
      && (|text| > DefaultLimit ==> code.s[..DefaultLimit] == text[..DefaultLimit])
  {
    TrimKeepsPrefix(text, DefaultLimit);
  }
}
