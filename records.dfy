/**
 * The values that flow between the pipelines and the reports: candidates, model
 * responses, JSON values, and the two shapes of pipeline result.
 */
module Records {

  datatype Option<+T> = None | Some(value: T)

  /** A computation that either produced a value or raised; `error` names the exception. */
  datatype Result<+T> = Success(value: T) | Failure(error: string)

  /** A JSON value as `json.loads` returns it. Numbers are integers in this model. */
  datatype Json =
    | JNull
    | JBool(b: bool)
    | JInt(i: int)
    | JStr(s: string)
    | JArray(items: seq<Json>)
    | JObject(fields: map<string, Json>)

  /** `d.get(key, default)` on a dictionary. */
  function Get(fields: map<string, Json>, key: string, default: Json): (v: Json)
    ensures key in fields ==> v == fields[key]
    ensures key !in fields ==> v == default
  {
    if key in fields then fields[key] else default
  }

  /** `json.loads`: the decoded value, or the text of the `JSONDecodeError`. */
  type JsonParser = string -> Result<Json>

  /** A CV record `{'id': ..., 'content': ...}`. */
  datatype Candidate = Candidate(id: string, content: string)

  /**
   * The prompts the pipelines send. The wording is not modelled; each prompt carries the
   * data that the pipeline embeds in it.
   */
  datatype Prompt =
    | OneShotPrompt(cvContent: string)
    | ChainOfThoughtPrompt(cvContent: string)
    | ExtractionPrompt(cvContent: string)
    | EvaluationPrompt(extracted: Json)
    | SynthesisPrompt(cvContent: string, extracted: Json, evaluation: Json)
    | CriterionPrompt(criterionName: string, jobAd: string, criteriaSection: string, cvId: string, cvContent: string)

  /** `LLMResponse`: generated text, the token counters if the provider reported them, and provider metadata. */
  datatype LLMResponse = LLMResponse(
    content: string,
    model: string,
    usage: Option<map<string, int>>,
    metadata: Option<map<string, Json>>)

  /** An `LLMProvider`: its name, its model, and `generate` as an oracle from prompt to response. */
  datatype Provider = Provider(name: string, model: string, generate: Prompt -> LLMResponse)

  /** What a pipeline produced, and the prompts it sent to the provider, in order. */
  datatype Run<+T> = Run(outcome: Result<T>, calls: seq<Prompt>)

  /** One candidate's final ranking. */
  datatype RankingResult = RankingResult(cvId: string, name: string, ranking: int, reasoning: string)

  /** `PipelineResult` as the single-CV pipelines build it: one CV, a free-form analysis. */
  datatype SingleCvResult = SingleCvResult(
    cvId: string,
    pipelineName: string,
    provider: string,
    model: string,
    analysis: map<string, Json>,
    metadata: map<string, Json>)

  /** `PipelineResult` as the batch pipeline and the reports use it: one ranking per CV. */
  datatype RunResult = RunResult(
    pipelineName: string,
    provider: string,
    model: string,
    rankings: seq<RankingResult>,
    analysis: map<string, Json>,
    metadata: map<string, Json>)

  /** The token counters of a response as they are stored in a result's metadata (`None` stays `null`). */
  function UsageJson(usage: Option<map<string, int>>): (j: Json)
    ensures usage.None? <==> j == JNull
    ensures usage.Some? ==> j.JObject? && j.fields.Keys == usage.value.Keys
    ensures usage.Some? ==> forall k :: k in usage.value ==> j.fields[k] == JInt(usage.value[k])
  {
    match usage
    case None => JNull
    case Some(m) => JObject(map k | k in m :: JInt(m[k]))
  }

  /** Provider metadata as stored in a result's metadata (`None` stays `null`). */
  function MetadataJson(metadata: Option<map<string, Json>>): (j: Json)
    ensures metadata.None? <==> j == JNull
    ensures metadata.Some? ==> j == JObject(metadata.value)
  {
    match metadata
    case None => JNull
    case Some(m) => JObject(m)
  }
}
