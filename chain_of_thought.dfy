/** `ChainOfThoughtPipeline`: one provider call per CV whose prompt asks for numbered reasoning steps before the JSON answer; the decoded answer, steps included, is kept whole as the analysis. */
module ChainOfThought {
  import opened Records
  import opened Extraction

  const PipelineName: string := "chain_of_thought"

  /**
   * `ChainOfThoughtPipeline.analyze`. The analysis is the decoded JSON object, or
   * `{"raw_response": <the response as received>}` when decoding fails; a decoded value that
   * is not an object is rejected when the result record is built.
   */
  function Analyze(provider: Provider, parse: JsonParser, cv: Candidate): (run: Run<SingleCvResult>)
    ensures run.calls == [ChainOfThoughtPrompt(cv.content)]
    ensures var response := provider.generate(ChainOfThoughtPrompt(cv.content));
            var decoded := parse(ExtractJson(response.content));
            && (decoded.Failure? ==>
                  run.outcome.Success? && run.outcome.value.analysis == map["raw_response" := JStr(response.content)])
            && (decoded.Success? ==>
                  (run.outcome.Success? <==> decoded.value.JObject?)
                  && (run.outcome.Success? ==> run.outcome.value.analysis == decoded.value.fields))
            && (run.outcome.Success? ==>
                  && run.outcome.value.cvId == cv.id
                  && run.outcome.value.pipelineName == PipelineName
                  && run.outcome.value.provider == provider.name
                  && run.outcome.value.model == provider.model
                  && run.outcome.value.metadata == map[
                       "usage" := UsageJson(response.usage),
                       "response_metadata" := MetadataJson(response.metadata)])
  {
    var prompt := ChainOfThoughtPrompt(cv.content);
    var response := provider.generate(prompt);
    var analysis := ParseOrRaw(parse, response.content, "raw_response");
    var outcome :=
      if analysis.JObject? then
        Success(SingleCvResult(
          cv.id, PipelineName, provider.name, provider.model, analysis.fields,
          map["usage" := UsageJson(response.usage), "response_metadata" := MetadataJson(response.metadata)]))
      else
        Failure("ValidationError: analysis is not a dictionary");
    Run(outcome, [prompt])
  }
}
