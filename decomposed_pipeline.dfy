/**
 * The per-CV loop of `DecomposedAlgorithmicPipeline`: three criterion evaluations per CV, each
 * decoded into an entry, then the algorithmic aggregation and a display name for the ranking.
 */
module DecomposedPipeline {
  import opened Strings
  import opened Records
  import opened Extraction
  import opened Steps
  import opened CriteriaSection
  import opened Decomposed

  // ---------------------------------------------------------------------------------------
  // Display name
  // ---------------------------------------------------------------------------------------

  /**
   * The candidate's name as `analyze` derives it: "Unknown" for empty content, otherwise the
   * stripped first line with every `#` and `_` removed, stripped again.
   */
  function DisplayName(content: string): (name: string)
    ensures content == [] ==> name == "Unknown"
    ensures content != [] ==>
              && '#' !in name && '_' !in name && '\n' !in name
              && IsTrimmed(name)
              && forall c :: c in name ==> c in Split(content, '\n')[0]
  {
    if content == [] then "Unknown"
    else
      var line := Split(content, '\n')[0];
      var first := Trim(line);
      var cleaned := RemoveChar(RemoveChar(first, '#'), '_');
      TrimKeepsCharacters(line);
      TrimKeepsCharacters(cleaned);
      Trim(cleaned)
  }

  /** A display name that is not empty is its own display name. */
  lemma DisplayNameIdempotent(content: string)
    requires content != [] && DisplayName(content) != []
    ensures DisplayName(DisplayName(content)) == DisplayName(content)
  {
    var name := DisplayName(content);
    SplitNoSeparator(name, '\n');
    TrimOfTrimmed(name);
    RemoveAbsent(name, '#');
    RemoveAbsent(name, '_');
  }

  /** A first line that is already stripped and free of `#` and `_` is the display name as it stands. */
  lemma DisplayNameOfCleanLine(content: string)
    requires content != []
    requires var line := Split(content, '\n')[0]; IsTrimmed(line) && '#' !in line && '_' !in line
    ensures DisplayName(content) == Split(content, '\n')[0]
  {
    var line := Split(content, '\n')[0];
    TrimOfTrimmed(line);
    RemoveAbsent(line, '#');
    RemoveAbsent(line, '_');
  }

  /** A character that survives into a display name wherever it stands in the first line. */
  predicate Shown(c: char) {
    !IsSpace(c) && c != '#' && c != '_'
  }

  /** The characters of `s` that are neither whitespace nor `#` nor `_`, in order. */
  function Visible(s: string): (v: string)
    ensures forall c :: c in v ==> Shown(c)
  {
    if s == [] then [] else (if Shown(s[0]) then [s[0]] else []) + Visible(s[1..])
  }

  lemma {:induction false} VisibleAppend(a: string, b: string)
    ensures Visible(a + b) == Visible(a) + Visible(b)
  {
    if a == [] {
      assert a + b == b;
    } else {
      assert (a + b)[0] == a[0] && (a + b)[1..] == a[1..] + b;
      VisibleAppend(a[1..], b);
      var head := if Shown(a[0]) then [a[0]] else [];
      assert head + (Visible(a[1..]) + Visible(b)) == (head + Visible(a[1..])) + Visible(b);
    }
  }

  /** `lstrip()` removes no visible character. */
  lemma {:induction false} VisibleTrimStart(s: string)
    ensures Visible(TrimStart(s)) == Visible(s)
  {
    if |s| > 0 && IsSpace(s[0]) {
      VisibleTrimStart(s[1..]);
    }
  }

  /** `rstrip()` removes no visible character. */
  lemma {:induction false} VisibleTrimEnd(s: string)
    ensures Visible(TrimEnd(s)) == Visible(s)
  {
    if |s| > 0 && IsSpace(s[|s| - 1]) {
      var init := s[..|s| - 1];
      assert s == init + [s[|s| - 1]];
      VisibleAppend(init, [s[|s| - 1]]);
      assert Visible([s[|s| - 1]]) == [];
      VisibleTrimEnd(init);
    }
  }

  /** `strip()` removes no visible character. */
  lemma VisibleTrim(s: string)
    ensures Visible(Trim(s)) == Visible(s)
  {
    VisibleTrimStart(s);
    VisibleTrimEnd(TrimStart(s));
  }

  /** Removing a character that is not visible removes no visible character. */
  lemma {:induction false} VisibleRemoveChar(s: string, c: char)
    requires !Shown(c)
    ensures Visible(RemoveChar(s, c)) == Visible(s)
  {
    if s != [] {
      var head := if s[0] == c then [] else [s[0]];
      VisibleAppend(head, RemoveChar(s[1..], c));
      VisibleRemoveChar(s[1..], c);
      assert Visible(head) == (if Shown(s[0]) then [s[0]] else []);
    }
  }

  /**
   * Every character of the first line that is not whitespace, `#` or `_` is kept in the display
   * name, as often as it occurs in the line and in the same order.
   */
  lemma DisplayNameKeepsVisible(content: string)
    requires content != []
    ensures Visible(DisplayName(content)) == Visible(Split(content, '\n')[0])
  {
    var line := Split(content, '\n')[0];
    var first := Trim(line);
    var cleaned := RemoveChar(RemoveChar(first, '#'), '_');
    VisibleTrim(line);
    VisibleRemoveChar(first, '#');
    VisibleRemoveChar(RemoveChar(first, '#'), '_');
    VisibleTrim(cleaned);
  }

  // ---------------------------------------------------------------------------------------
  // One criterion evaluation
  // ---------------------------------------------------------------------------------------

  const ParsedHasNoGet: string := "AttributeError: parsed value has no get"

  /** The entry recorded when decoding the answer raises. */
  function ErrorEntry(cvId: string, error: string, raw: string): (fields: map<string, Json>)
    ensures fields.Keys == {"cv_id", "error", "raw", "rating"}
    ensures fields["cv_id"] == JStr(cvId) && fields["error"] == JStr(error) && fields["raw"] == JStr(raw)
    ensures fields["rating"] == JStr("Unknown")
  {
    map["cv_id" := JStr(cvId), "error" := JStr(error), "raw" := JStr(raw), "rating" := JStr("Unknown")]
  }

  /** The entry recorded from a decoded object. */
  function ParsedEntry(cvId: string, parsed: map<string, Json>): (fields: map<string, Json>)
    ensures fields.Keys == {"cv_id", "rating", "evidence"}
    ensures fields["cv_id"] == JStr(cvId)
    ensures fields["rating"] == Get(parsed, "rating", JStr("Unknown"))
    ensures fields["evidence"] == Get(parsed, "evidence", JStr(""))
  {
    map["cv_id" := JStr(cvId), "rating" := Get(parsed, "rating", JStr("Unknown")), "evidence" := Get(parsed, "evidence", JStr(""))]
  }

  /**
   * The entry `_evaluate_criteria` stores for one criterion, from the provider's answer. A
   * decoding error is caught and recorded with the raw answer and the rating "Unknown"; a
   * decoded object gives its rating (default "Unknown") and evidence (default ""); a decoded
   * value that is not an object has no `.get`, and the error is not caught.
   */
  function CriterionEntry(parse: JsonParser, cvId: string, content: string): (r: Result<Json>)
    ensures var decoded := parse(ExtractJson(content));
            && (r.Success? <==> decoded.Failure? || decoded.value.JObject?)
            && (decoded.Failure? ==> r == Success(JObject(ErrorEntry(cvId, decoded.error, content))))
            && (decoded.Success? && decoded.value.JObject? ==> r == Success(JObject(ParsedEntry(cvId, decoded.value.fields))))
    ensures r.Failure? ==> r.error == ParsedHasNoGet
  {
    match parse(ExtractJson(content))
    case Failure(e) => Success(JObject(ErrorEntry(cvId, e, content)))
    case Success(parsed) =>
      if !parsed.JObject? then Failure(ParsedHasNoGet)
      else Success(JObject(ParsedEntry(cvId, parsed.fields)))
  }

  /**
   * How an entry is scored: a decoding error reads as rating "Unknown" and scores 2; a decoded
   * textual rating is scored as written; any other decoded rating makes the aggregation raise.
   */
  lemma EntryScore(parse: JsonParser, cvId: string, content: string, key: string)
    requires CriterionEntry(parse, cvId, content).Success?
    ensures var decoded := parse(ExtractJson(content));
            var score := CriterionScore(map[key := CriterionEntry(parse, cvId, content).value], key);
            && (decoded.Failure? ==> score == Success(Rated(key, "Unknown")) && score.value.score == 2)
            && (decoded.Success? ==>
                  var rating := Get(decoded.value.fields, "rating", JStr("Unknown"));
                  && (score.Success? <==> rating.JStr?)
                  && (rating.JStr? ==> score.value == Rated(key, rating.s)))
  {
    var evals := map[key := CriterionEntry(parse, cvId, content).value];
    CriterionScoreCases(evals, key);
    var unknown := "Unknown";
    UnknownScoresTwo(unknown);
  }

  // ---------------------------------------------------------------------------------------
  // The three criterion evaluations of one CV
  // ---------------------------------------------------------------------------------------

  /** The prompt for criterion `i`: its name, the job ad, its section of the criteria, and the CV. */
  function CriterionCall(cv: Candidate, jobAd: string, criteria: string, i: nat): Prompt
    requires i < |CriteriaNames|
  {
    CriterionPrompt(CriteriaNames[i], jobAd, Section(criteria, CriteriaNames[i]), cv.id, cv.content)
  }

  /** Criterion `i`: one provider call and the entry decoded from its answer. */
  function CriterionRun(provider: Provider, parse: JsonParser, cv: Candidate, jobAd: string, criteria: string, i: nat): Run<Json>
    requires i < |CriteriaNames|
  {
    var call := CriterionCall(cv, jobAd, criteria, i);
    Run(CriterionEntry(parse, cv.id, provider.generate(call).content), [call])
  }

  function CriterionRuns(provider: Provider, parse: JsonParser, cv: Candidate, jobAd: string, criteria: string): (rs: seq<Run<Json>>)
    ensures |rs| == |CriteriaNames|
    ensures forall i :: 0 <= i < |CriteriaNames| ==> rs[i] == CriterionRun(provider, parse, cv, jobAd, criteria, i)
  {
    seq(|CriteriaNames|, i requires 0 <= i < |CriteriaNames| => CriterionRun(provider, parse, cv, jobAd, criteria, i))
  }

  /** What `_evaluate_criteria` returns: the entries under their keys, or the first uncaught error. */
  function Evaluations(provider: Provider, parse: JsonParser, cv: Candidate, jobAd: string, criteria: string): Run<map<string, Json>> {
    KeyedCollect(CriterionRuns(provider, parse, cv, jobAd, criteria), CriteriaKeys)
  }

  /** The criterion keys are distinct. */
  lemma KeysDistinct()
    ensures forall i, j :: 0 <= i < j < |CriteriaKeys| ==> CriteriaKeys[i] != CriteriaKeys[j]
  {
    assert |CriteriaKeys[0]| == 11 && |CriteriaKeys[1]| == 17 && |CriteriaKeys[2]| == 19;
  }

  /**
   * `_evaluate_criteria` succeeds exactly when every criterion's entry does; otherwise it raises
   * the error of the first entry that could not be built.
   */
  lemma EvaluationsOutcome(provider: Provider, parse: JsonParser, cv: Candidate, jobAd: string, criteria: string)
    ensures var run, rs := Evaluations(provider, parse, cv, jobAd, criteria), CriterionRuns(provider, parse, cv, jobAd, criteria);
            && (run.outcome.Success? <==> forall i :: 0 <= i < 3 ==> rs[i].outcome.Success?)
            && (run.outcome.Failure? ==> run.outcome.error == ParsedHasNoGet)
  {
    var rs := CriterionRuns(provider, parse, cv, jobAd, criteria);
    KeysDistinct();
    KeyedRuns(rs, CriteriaKeys);
  }

  /** On success, the evaluations hold exactly the three criterion keys, each with its criterion's entry. */
  lemma EvaluationsEntries(provider: Provider, parse: JsonParser, cv: Candidate, jobAd: string, criteria: string)
    requires Evaluations(provider, parse, cv, jobAd, criteria).outcome.Success?
    ensures var evals := Evaluations(provider, parse, cv, jobAd, criteria).outcome.value;
            forall k :: k in evals ==> k in CriteriaKeys
    ensures var evals, rs := Evaluations(provider, parse, cv, jobAd, criteria).outcome.value, CriterionRuns(provider, parse, cv, jobAd, criteria);
            forall i :: 0 <= i < 3 ==> CriteriaKeys[i] in evals && rs[i].outcome == Success(evals[CriteriaKeys[i]])
  {
    KeysDistinct();
    KeyedRuns(CriterionRuns(provider, parse, cv, jobAd, criteria), CriteriaKeys);
  }

  /**
   * The calls `_evaluate_criteria` makes: one per criterion, in criterion order, all three on
   * success and, when it raises, up to and including the criterion whose entry raised.
   */
  lemma EvaluationsCalls(provider: Provider, parse: JsonParser, cv: Candidate, jobAd: string, criteria: string)
    ensures var run, rs := Evaluations(provider, parse, cv, jobAd, criteria), CriterionRuns(provider, parse, cv, jobAd, criteria);
            && 1 <= |run.calls| <= 3
            && (run.outcome.Success? ==> |run.calls| == 3)
            && (run.outcome.Failure? ==> rs[|run.calls| - 1].outcome.Failure?)
    ensures var calls := Evaluations(provider, parse, cv, jobAd, criteria).calls;
            forall j :: 0 <= j < |calls| ==> j < 3 && calls[j] == CriterionCall(cv, jobAd, criteria, j)
  {
    var rs := CriterionRuns(provider, parse, cv, jobAd, criteria);
    var run := Evaluations(provider, parse, cv, jobAd, criteria);
    assert run == KeyedCollect(rs, CriteriaKeys);
    forall i | 0 <= i < |rs|
      ensures |rs[i].calls| == 1 && rs[i].calls[0] == CriterionCall(cv, jobAd, criteria, i)
    {
      assert rs[i] == CriterionRun(provider, parse, cv, jobAd, criteria, i);
    }
    KeysDistinct();
    KeyedRuns(rs, CriteriaKeys);
  }

  /** Criterion `i` of one CV: its section of the criteria, the call, and the decoded entry. */
  method EvaluateCriterion(provider: Provider, parse: JsonParser, cv: Candidate, jobAd: string, criteria: string, i: nat)
    returns (entry: Result<Json>, prompt: Prompt)
    requires i < |CriteriaNames|
    ensures Run(entry, [prompt]) == CriterionRun(provider, parse, cv, jobAd, criteria, i)
  {
    var name := CriteriaNames[i];
    var section := ExtractCriteriaSection(criteria, name);
    prompt := CriterionPrompt(name, jobAd, section, cv.id, cv.content);
    var response := provider.generate(prompt);
    match parse(ExtractJson(response.content)) {
      case Failure(e) =>
        entry := Success(JObject(ErrorEntry(cv.id, e, response.content)));
      case Success(parsed) =>
        if !parsed.JObject? {
          entry := Failure(ParsedHasNoGet);
        } else {
          entry := Success(JObject(ParsedEntry(cv.id, parsed.fields)));
        }
    }
  }

  /**
   * `_evaluate_criteria`: for each criterion in turn, its section of the criteria, one
   * provider call, and the decoded entry stored under its key.
   */
  method EvaluateCriteria(provider: Provider, parse: JsonParser, cv: Candidate, jobAd: string, criteria: string)
    returns (r: Result<map<string, Json>>, calls: seq<Prompt>)
    ensures Run(r, calls) == Evaluations(provider, parse, cv, jobAd, criteria)
  {
    ghost var rs := CriterionRuns(provider, parse, cv, jobAd, criteria);
    var evaluations: map<string, Json> := map[];
    calls := [];
    for i := 0 to |CriteriaNames|
      invariant KeyedCollect(rs[..i], CriteriaKeys[..i]) == Run(Success(evaluations), calls)
    {
      var entry, prompt := EvaluateCriterion(provider, parse, cv, jobAd, criteria, i);
      KeyedCollectStep(rs, CriteriaKeys, i);
      calls := calls + [prompt];
      if entry.Failure? {
        return Failure(entry.error), calls;
      }
      evaluations := evaluations[CriteriaKeys[i] := entry.value];
    }
    assert rs[..|rs|] == rs;
    assert CriteriaKeys[..|CriteriaKeys|] == CriteriaKeys;
    r := Success(evaluations);
  }

  // ---------------------------------------------------------------------------------------
  // One CV: evaluations, aggregation, ranking
  // ---------------------------------------------------------------------------------------

  /** A CV's ranking together with the criterion evaluations it was computed from. */
  datatype Ranked = Ranked(ranking: RankingResult, evaluations: map<string, Json>)

  /**
   * One iteration of `analyze`'s loop: evaluate the criteria, aggregate them without a
   * call, and name the CV after the first line of its content.
   */
  function RankCv(provider: Provider, parse: JsonParser, cv: Candidate, jobAd: string, criteria: string): (run: Run<Ranked>)
    ensures run.calls == Evaluations(provider, parse, cv, jobAd, criteria).calls
    ensures run.outcome.Success? ==>
              && Evaluations(provider, parse, cv, jobAd, criteria).outcome.Success?
              && run.outcome.value.evaluations == Evaluations(provider, parse, cv, jobAd, criteria).outcome.value
    ensures run.outcome.Success? ==>
              && 1 <= run.outcome.value.ranking.ranking <= 4
              && run.outcome.value.ranking.cvId == cv.id
              && run.outcome.value.ranking.name == DisplayName(cv.content)
  {
    var ev := Evaluations(provider, parse, cv, jobAd, criteria);
    if ev.outcome.Failure? then Run(Failure(ev.outcome.error), ev.calls)
    else
      match Aggregate(ev.outcome.value)
      case Failure(e) => Run(Failure(e), ev.calls)
      case Success(agg) =>
        Run(Success(Ranked(RankingResult(cv.id, DisplayName(cv.content), agg.ranking, agg.reasoning), ev.outcome.value)), ev.calls)
  }

  /**
   * A ranked CV's ranking is the integer nearest to the average of the three scores read
   * from its evaluations.
   */
  lemma RankedFromScores(provider: Provider, parse: JsonParser, cv: Candidate, jobAd: string, criteria: string)
    requires RankCv(provider, parse, cv, jobAd, criteria).outcome.Success?
    ensures ScoreAll(RankCv(provider, parse, cv, jobAd, criteria).outcome.value.evaluations, CriteriaKeys).Success?
    ensures var ranked := RankCv(provider, parse, cv, jobAd, criteria).outcome.value;
            var sum := Sum(Scores(ScoreAll(ranked.evaluations, CriteriaKeys).value));
            ranked.ranking.ranking == (sum + 1) / 3
  {
    var ranked := RankCv(provider, parse, cv, jobAd, criteria).outcome.value;
    AggregateRanking(ranked.evaluations);
  }

  /** One iteration of `analyze`'s loop, as the function `RankCv` states it. */
  method RankCandidate(provider: Provider, parse: JsonParser, cv: Candidate, jobAd: string, criteria: string)
    returns (r: Result<Ranked>, calls: seq<Prompt>)
    ensures Run(r, calls) == RankCv(provider, parse, cv, jobAd, criteria)
  {
    var evaluations;
    evaluations, calls := EvaluateCriteria(provider, parse, cv, jobAd, criteria);
    if evaluations.Failure? {
      return Failure(evaluations.error), calls;
    }
    var aggregation := AggregateScores(evaluations.value);
    if aggregation.Failure? {
      return Failure(aggregation.error), calls;
    }
    var name := DisplayName(cv.content);
    var result := RankingResult(cv.id, name, aggregation.value.ranking, aggregation.value.reasoning);
    r := Success(Ranked(result, evaluations.value));
  }

  // ---------------------------------------------------------------------------------------
  // All CVs: the pipeline result
  // ---------------------------------------------------------------------------------------

  const Note: string := "Criteria evaluated via LLM (3 API calls per CV), aggregated algorithmically (simple average)"
  const AggregationMethod: string := "Simple average of criteria scores (no weights)"
  const UsageNote: string := "Token usage not tracked per individual CV call"

  function RankRuns(provider: Provider, parse: JsonParser, cvs: seq<Candidate>, jobAd: string, criteria: string): (rs: seq<Run<Ranked>>)
    ensures |rs| == |cvs|
    ensures forall i :: 0 <= i < |cvs| ==> rs[i] == RankCv(provider, parse, cvs[i], jobAd, criteria)
  {
    seq(|cvs|, i requires 0 <= i < |cvs| => RankCv(provider, parse, cvs[i], jobAd, criteria))
  }

  function Rankings(rs: seq<Ranked>): (results: seq<RankingResult>)
    ensures |results| == |rs| && forall i :: 0 <= i < |rs| ==> results[i] == rs[i].ranking
  {
    seq(|rs|, i requires 0 <= i < |rs| => rs[i].ranking)
  }

  function Ids(rs: seq<Ranked>): (ids: seq<string>)
    ensures |ids| == |rs| && forall i :: 0 <= i < |rs| ==> ids[i] == rs[i].ranking.cvId
  {
    seq(|rs|, i requires 0 <= i < |rs| => rs[i].ranking.cvId)
  }

  function EvaluationObjects(rs: seq<Ranked>): (objects: seq<Json>)
    ensures |objects| == |rs| && forall i :: 0 <= i < |rs| ==> objects[i] == JObject(rs[i].evaluations)
  {
    seq(|rs|, i requires 0 <= i < |rs| => JObject(rs[i].evaluations))
  }

  /** `all_criteria_evals`: each CV's evaluations under its id, a later CV replacing an earlier one with the same id. */
  function AllEvaluations(rs: seq<Ranked>): map<string, Json> {
    Keyed(Ids(rs), EvaluationObjects(rs))
  }

  /** Appending one ranked CV extends each of the collected views by it. */
  lemma RankedAppend(rs: seq<Ranked>, r: Ranked)
    ensures Rankings(rs + [r]) == Rankings(rs) + [r.ranking]
    ensures AllEvaluations(rs + [r]) == AllEvaluations(rs)[r.ranking.cvId := JObject(r.evaluations)]
  {
    assert Rankings(rs + [r]) == Rankings(rs) + [r.ranking];
    assert Ids(rs + [r]) == Ids(rs) + [r.ranking.cvId];
    assert EvaluationObjects(rs + [r]) == EvaluationObjects(rs) + [JObject(r.evaluations)];
    KeyedAppend(Ids(rs), EvaluationObjects(rs), r.ranking.cvId, JObject(r.evaluations));
  }

  /** The `analysis` dictionary of the result. */
  function AnalysisOf(total: nat, evaluations: map<string, Json>): (analysis: map<string, Json>)
    ensures analysis.Keys == {"note", "total_cvs", "criteria_evaluations", "aggregation_method"}
    ensures analysis["total_cvs"] == JInt(total)
    ensures analysis["criteria_evaluations"] == JObject(evaluations)
  {
    map["note" := JStr(Note), "total_cvs" := JInt(total), "criteria_evaluations" := JObject(evaluations),
        "aggregation_method" := JStr(AggregationMethod)]
  }

  /** The `metadata` dictionary of the result: token usage is not tracked. */
  function MetadataOf(): (metadata: map<string, Json>)
    ensures metadata.Keys == {"usage"}
  {
    map["usage" := JObject(map["note" := JStr(UsageNote)])]
  }

  /** The result of the pipeline's `analyze` from the ranked CVs. */
  function ResultOf(provider: Provider, total: nat, rs: seq<Ranked>): RunResult {
    RunResult(PipelineName, provider.name, provider.model, Rankings(rs), AnalysisOf(total, AllEvaluations(rs)), MetadataOf())
  }

  /** The pipeline result from the runs of the CVs, or the first error raised, with the calls made. */
  function Assemble(provider: Provider, total: nat, runs: seq<Run<Ranked>>): Run<RunResult> {
    var all := CollectRuns(runs);
    Run(if all.outcome.Failure? then Failure(all.outcome.error) else Success(ResultOf(provider, total, all.outcome.value)), all.calls)
  }

  /** What `analyze` returns: every CV ranked in turn, or the first error raised, with the calls made. */
  function Analysis(provider: Provider, parse: JsonParser, cvs: seq<Candidate>, jobAd: string, criteria: string): Run<RunResult> {
    Assemble(provider, |cvs|, RankRuns(provider, parse, cvs, jobAd, criteria))
  }

  /** `analyze`: the loop over the CVs, building the rankings and `all_criteria_evals`. */
  method Analyze(provider: Provider, parse: JsonParser, cvs: seq<Candidate>, jobAd: string, criteria: string)
    returns (r: Result<RunResult>, calls: seq<Prompt>)
    ensures Run(r, calls) == Analysis(provider, parse, cvs, jobAd, criteria)
  {
    ghost var runs := RankRuns(provider, parse, cvs, jobAd, criteria);
    ghost var ranked: seq<Ranked> := [];
    var rankings: seq<RankingResult> := [];
    var allEvaluations: map<string, Json> := map[];
    calls := [];
    for i := 0 to |cvs|
      invariant CollectRuns(runs[..i]) == Run(Success(ranked), calls)
      invariant rankings == Rankings(ranked) && allEvaluations == AllEvaluations(ranked)
    {
      var result, cvCalls := RankCandidate(provider, parse, cvs[i], jobAd, criteria);
      CollectRunsStep(runs, i);
      calls := calls + cvCalls;
      if result.Failure? {
        CollectRunsFailurePersists(runs, i + 1);
        return Failure(result.error), calls;
      }
      RankedAppend(ranked, result.value);
      ranked := ranked + [result.value];
      rankings := rankings + [result.value.ranking];
      allEvaluations := allEvaluations[result.value.ranking.cvId := JObject(result.value.evaluations)];
    }
    assert runs[..|cvs|] == runs;
    r := Success(RunResult(PipelineName, provider.name, provider.model, rankings, AnalysisOf(|cvs|, allEvaluations), MetadataOf()));
  }

  /** The result is assembled exactly when every run succeeds; otherwise it is the first failing run's error. */
  lemma AssembleOutcome(provider: Provider, total: nat, runs: seq<Run<Ranked>>)
    ensures var run := Assemble(provider, total, runs);
            && (run.outcome.Success? <==> forall i :: 0 <= i < |runs| ==> runs[i].outcome.Success?)
            && (run.outcome.Failure? ==>
                  exists k :: 0 <= k < |runs| && (forall j :: 0 <= j < k ==> runs[j].outcome.Success?) && runs[k].outcome == Failure(run.outcome.error))
  {
    CollectPointwise(Outcomes(runs));
    if !forall i :: 0 <= i < |runs| ==> runs[i].outcome.Success? {
      var k := FirstFailing(runs);
      CollectRunsFailureAt(runs, k);
    }
  }

  /** An assembled result: one ranking per run, in order, after the calls of all runs in order. */
  lemma AssembleRankings(provider: Provider, total: nat, runs: seq<Run<Ranked>>)
    requires Assemble(provider, total, runs).outcome.Success?
    ensures forall i :: 0 <= i < |runs| ==> runs[i].outcome.Success?
    ensures var result := Assemble(provider, total, runs).outcome.value;
            && result.pipelineName == PipelineName && result.provider == provider.name && result.model == provider.model
            && |result.rankings| == |runs|
            && forall i :: 0 <= i < |runs| ==> result.rankings[i] == runs[i].outcome.value.ranking
    ensures Assemble(provider, total, runs).calls == AllCalls(runs)
  {
    CollectPointwise(Outcomes(runs));
    CollectRunsSucceedCalls(runs);
  }

  /**
   * The analysis of an assembled result: `total_cvs`, and under each id the evaluations of
   * the last run with that id.
   */
  lemma AssembleEvaluations(provider: Provider, total: nat, runs: seq<Run<Ranked>>)
    requires Assemble(provider, total, runs).outcome.Success?
    ensures forall i :: 0 <= i < |runs| ==> runs[i].outcome.Success?
    ensures var analysis := Assemble(provider, total, runs).outcome.value.analysis;
            && analysis.Keys == {"note", "total_cvs", "criteria_evaluations", "aggregation_method"}
            && analysis["total_cvs"] == JInt(total)
            && analysis["criteria_evaluations"].JObject?
            && analysis["criteria_evaluations"].fields.Keys == (set i | 0 <= i < |runs| :: runs[i].outcome.value.ranking.cvId)
            && forall i :: 0 <= i < |runs| && (forall j :: i < j < |runs| ==> runs[j].outcome.value.ranking.cvId != runs[i].outcome.value.ranking.cvId) ==>
                 analysis["criteria_evaluations"].fields[runs[i].outcome.value.ranking.cvId] == JObject(runs[i].outcome.value.evaluations)
  {
    CollectPointwise(Outcomes(runs));
    var ranked := CollectRuns(runs).outcome.value;
    assert Assemble(provider, total, runs).outcome.value == ResultOf(provider, total, ranked);
    assert forall i :: 0 <= i < |runs| ==> runs[i].outcome == Success(ranked[i]);
    EvaluationsOfRanked(ranked, runs);
  }

  /** `all_criteria_evals` of the ranked CVs of successful runs, stated on the runs. */
  lemma EvaluationsOfRanked(ranked: seq<Ranked>, runs: seq<Run<Ranked>>)
    requires |ranked| == |runs| && forall i :: 0 <= i < |runs| ==> runs[i].outcome == Success(ranked[i])
    ensures AllEvaluations(ranked).Keys == (set i | 0 <= i < |runs| :: runs[i].outcome.value.ranking.cvId)
    ensures forall i :: 0 <= i < |runs| && (forall j :: i < j < |runs| ==> runs[j].outcome.value.ranking.cvId != runs[i].outcome.value.ranking.cvId) ==>
              AllEvaluations(ranked)[runs[i].outcome.value.ranking.cvId] == JObject(runs[i].outcome.value.evaluations)
  {
    var ids := Ids(ranked);
    assert (set i | 0 <= i < |ids| :: ids[i]) == (set i | 0 <= i < |runs| :: runs[i].outcome.value.ranking.cvId);
    forall i | 0 <= i < |runs| && (forall j :: i < j < |runs| ==> runs[j].outcome.value.ranking.cvId != runs[i].outcome.value.ranking.cvId)
      ensures AllEvaluations(ranked)[ids[i]] == JObject(ranked[i].evaluations)
    {
      KeyedLast(ids, EvaluationObjects(ranked), i);
    }
  }

  /** `analyze` returns a result exactly when every CV is ranked. */
  lemma AnalysisOutcome(provider: Provider, parse: JsonParser, cvs: seq<Candidate>, jobAd: string, criteria: string)
    ensures Analysis(provider, parse, cvs, jobAd, criteria).outcome.Success? <==>
              forall i :: 0 <= i < |cvs| ==> RankCv(provider, parse, cvs[i], jobAd, criteria).outcome.Success?
  {
    AssembleOutcome(provider, |cvs|, RankRuns(provider, parse, cvs, jobAd, criteria));
  }

  /**
   * On success there is one ranking per CV, in the order of the CVs: the CV's id, its display
   * name and a ranking between 1 and 4. Each CV costs exactly three calls, made one CV after
   * the other.
   */
  lemma AnalysisRankings(provider: Provider, parse: JsonParser, cvs: seq<Candidate>, jobAd: string, criteria: string)
    requires Analysis(provider, parse, cvs, jobAd, criteria).outcome.Success?
    ensures var result := Analysis(provider, parse, cvs, jobAd, criteria).outcome.value;
            && |result.rankings| == |cvs|
            && forall i :: 0 <= i < |cvs| ==>
                 && result.rankings[i].cvId == cvs[i].id
                 && result.rankings[i].name == DisplayName(cvs[i].content)
                 && 1 <= result.rankings[i].ranking <= 4
    ensures var calls := Analysis(provider, parse, cvs, jobAd, criteria).calls;
            && |calls| == 3 * |cvs|
            && forall i :: 0 <= i < |cvs| ==> calls[3 * i..3 * i + 3] == Evaluations(provider, parse, cvs[i], jobAd, criteria).calls
  {
    var runs := RankRuns(provider, parse, cvs, jobAd, criteria);
    AssembleRankings(provider, |cvs|, runs);
    forall i | 0 <= i < |cvs|
      ensures |runs[i].calls| == 3
    {
      EvaluationsCalls(provider, parse, cvs[i], jobAd, criteria);
    }
    AllCallsOfThreeCalls(runs);
  }
}
