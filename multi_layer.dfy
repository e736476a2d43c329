/**
 * `MultiLayerPipeline`: three provider calls per CV (extraction, evaluation, synthesis), each
 * feeding the next, and token accounting summed over the three responses.
 */
module MultiLayer {
  import opened Records
  import opened Extraction

  const PipelineName: string := "multi_layer"

  /**
   * `safe_get_usage(response, key)`: the counter, or 0 when the response has no usage, an
   * empty usage, or no such counter. (The emptiness test only repeats what the lookup does.)
   */
  function SafeGetUsage(response: LLMResponse, key: string): (n: int)
    ensures n == (if response.usage.Some? && key in response.usage.value then response.usage.value[key] else 0)
  {
    if response.usage.Some? && |response.usage.value| > 0 then
      var m := response.usage.value;
      if key in m then m[key] else 0
    else 0
  }

  /** The sum of one counter over a sequence of responses. */
  function SumUsage(responses: seq<LLMResponse>, key: string): int {
    if responses == [] then 0
    else SumUsage(responses[..|responses| - 1], key) + SafeGetUsage(responses[|responses| - 1], key)
  }

  /** A response without usage, or without the counter, adds nothing to a sum. */
  lemma SilentResponseAddsNothing(responses: seq<LLMResponse>, r: LLMResponse, key: string)
    requires r.usage.None? || key !in r.usage.value
    ensures SumUsage(responses + [r], key) == SumUsage(responses, key)
  {
    assert (responses + [r])[..|responses|] == responses;
  }

  /** The sum over three responses is the sum of the three counters. */
  lemma SumOfThree(a: LLMResponse, b: LLMResponse, c: LLMResponse, key: string)
    ensures SumUsage([a, b, c], key) == SafeGetUsage(a, key) + SafeGetUsage(b, key) + SafeGetUsage(c, key)
  {
    assert [a, b, c][..2] == [a, b];
    assert [a, b][..1] == [a];
    assert [a][..0] == [];
    assert SumUsage([a], key) == SafeGetUsage(a, key);
    assert SumUsage([a, b], key) == SumUsage([a], key) + SafeGetUsage(b, key);
  }

  /** `total_usage`: each of the three counters summed over the three responses. */
  function TotalUsage(extraction: LLMResponse, evaluation: LLMResponse, synthesis: LLMResponse): (total: map<string, Json>)
    ensures total.Keys == {"prompt_tokens", "completion_tokens", "total_tokens"}
    ensures total["prompt_tokens"] == JInt(SumUsage([extraction, evaluation, synthesis], "prompt_tokens"))
    ensures total["completion_tokens"] == JInt(SumUsage([extraction, evaluation, synthesis], "completion_tokens"))
    ensures total["total_tokens"] == JInt(SumUsage([extraction, evaluation, synthesis], "total_tokens"))
  {
    SumOfThree(extraction, evaluation, synthesis, "prompt_tokens");
    SumOfThree(extraction, evaluation, synthesis, "completion_tokens");
    SumOfThree(extraction, evaluation, synthesis, "total_tokens");
    map k | k in {"prompt_tokens", "completion_tokens", "total_tokens"} ::
      JInt(SafeGetUsage(extraction, k) + SafeGetUsage(evaluation, k) + SafeGetUsage(synthesis, k))
  }

  /** `response.usage or {}` as stored under `layer_usage`. */
  function LayerUsage(response: LLMResponse): (j: Json)
    ensures j.JObject?
    ensures response.usage.None? ==> j.fields == map[]
    ensures response.usage.Some? ==> j == UsageJson(response.usage)
  {
    match response.usage
    case None => JObject(map[])
    case Some(m) => if |m| == 0 then JObject(map[]) else UsageJson(response.usage)
  }

  /** The three prompts, each built from what the previous layer decoded. */
  function Prompts(provider: Provider, parse: JsonParser, cv: Candidate): (calls: seq<Prompt>)
    ensures |calls| == 3
    ensures calls[0] == ExtractionPrompt(cv.content)
    ensures calls[1] == EvaluationPrompt(ParseOrRaw(parse, provider.generate(calls[0]).content, "raw"))
    ensures calls[2] == SynthesisPrompt(cv.content, calls[1].extracted,
                          ParseOrRaw(parse, provider.generate(calls[1]).content, "raw"))
  {
    var extracted := ParseOrRaw(parse, provider.generate(ExtractionPrompt(cv.content)).content, "raw");
    var evaluation := ParseOrRaw(parse, provider.generate(EvaluationPrompt(extracted)).content, "raw");
    [ExtractionPrompt(cv.content), EvaluationPrompt(extracted), SynthesisPrompt(cv.content, extracted, evaluation)]
  }

  /** The provider's answers to the three prompts, in order. */
  function Responses(provider: Provider, calls: seq<Prompt>): seq<LLMResponse>
    requires |calls| == 3
  {
    [provider.generate(calls[0]), provider.generate(calls[1]), provider.generate(calls[2])]
  }

  /** The analysis dictionary: the three decoded layers and the synthesis's overall rating. */
  function LayeredAnalysis(extracted: Json, evaluation: Json, synthesis: map<string, Json>): (a: map<string, Json>)
    ensures a.Keys == {"layer_1_extraction", "layer_2_evaluation", "layer_3_synthesis", "final_rating"}
    ensures a["layer_1_extraction"] == extracted
    ensures a["layer_2_evaluation"] == evaluation
    ensures a["layer_3_synthesis"] == JObject(synthesis)
    ensures "overall_rating" in synthesis ==> a["final_rating"] == synthesis["overall_rating"]
    ensures "overall_rating" !in synthesis ==> a["final_rating"] == JStr("Unknown")
  {
    map[
      "layer_1_extraction" := extracted,
      "layer_2_evaluation" := evaluation,
      "layer_3_synthesis" := JObject(synthesis),
      "final_rating" := Get(synthesis, "overall_rating", JStr("Unknown"))]
  }

  /** The metadata dictionary: summed token counters and each layer's own usage. */
  function LayeredMetadata(responses: seq<LLMResponse>): (m: map<string, Json>)
    requires |responses| == 3
    ensures m.Keys == {"usage", "layer_usage"}
    ensures m["usage"] == JObject(TotalUsage(responses[0], responses[1], responses[2]))
    ensures m["layer_usage"].JObject?
    ensures m["layer_usage"].fields.Keys == {"extraction", "evaluation", "synthesis"}
    ensures m["layer_usage"].fields["extraction"] == LayerUsage(responses[0])
    ensures m["layer_usage"].fields["evaluation"] == LayerUsage(responses[1])
    ensures m["layer_usage"].fields["synthesis"] == LayerUsage(responses[2])
  {
    var total := TotalUsage(responses[0], responses[1], responses[2]);
    var layers := map[
      "extraction" := LayerUsage(responses[0]),
      "evaluation" := LayerUsage(responses[1]),
      "synthesis" := LayerUsage(responses[2])];
    map["usage" := JObject(total), "layer_usage" := JObject(layers)]
  }

  /**
   * `MultiLayerPipeline.analyze`. Layers 1 and 2 fall back to `{"raw": content}`, layer 3 to
   * `{"raw_response": content}`; `final_rating` is the synthesis's `overall_rating` or "Unknown".
   * A synthesis that decodes to something other than an object has no `.get` and raises.
   */
  function Analyze(provider: Provider, parse: JsonParser, cv: Candidate): (run: Run<SingleCvResult>)
    ensures run.calls == Prompts(provider, parse, cv)
    ensures var synthesis := ParseOrRaw(parse, provider.generate(run.calls[2]).content, "raw_response");
            && (run.outcome.Success? <==> synthesis.JObject?)
            && (run.outcome.Success? ==>
                  run.outcome.value.analysis
                    == LayeredAnalysis(run.calls[1].extracted, run.calls[2].evaluation, synthesis.fields))
    ensures run.outcome.Success? ==>
              && run.outcome.value.cvId == cv.id
              && run.outcome.value.pipelineName == PipelineName
              && run.outcome.value.provider == provider.name
              && run.outcome.value.model == provider.model
              && run.outcome.value.metadata == LayeredMetadata(Responses(provider, run.calls))
  {
    var calls := Prompts(provider, parse, cv);
    var synthesis := ParseOrRaw(parse, provider.generate(calls[2]).content, "raw_response");
    if !synthesis.JObject? then
      Run(Failure("AttributeError: synthesis has no get"), calls)
    else
      var analysis := LayeredAnalysis(calls[1].extracted, calls[2].evaluation, synthesis.fields);
      var metadata := LayeredMetadata(Responses(provider, calls));
      Run(Success(SingleCvResult(cv.id, PipelineName, provider.name, provider.model, analysis, metadata)), calls)
  }

  /** When the synthesis cannot be decoded, `final_rating` is "Unknown". */
  lemma FinalRatingAfterSynthesisFailure(provider: Provider, parse: JsonParser, cv: Candidate)
    requires var calls := Analyze(provider, parse, cv).calls;
             parse(ExtractJson(provider.generate(calls[2]).content)).Failure?
    ensures var run := Analyze(provider, parse, cv);
            run.outcome.Success?
            && run.outcome.value.analysis["layer_3_synthesis"]
                 == JObject(map["raw_response" := JStr(provider.generate(run.calls[2]).content)])
            && run.outcome.value.analysis["final_rating"] == JStr("Unknown")
  {
  }
}
