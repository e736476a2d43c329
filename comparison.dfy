/**
 * The in-memory part of the comparison framework: the ranking labels, the order of the
 * rankings listing, the per-pipeline summary, and the flat rows that the comparison tables
 * are built from.
 */
module Comparison {
  import opened Strings
  import opened Records
  import opened Sorting

  // ---------------------------------------------------------------------------------------
  // Ranking labels
  // ---------------------------------------------------------------------------------------

  /** `_ranking_label`: the label of a 1-4 ranking, and "Unknown" for every other integer. */
  function RankingLabel(ranking: int): (text: string)
    ensures ranking == 4 <==> text == "Excellent Fit"
    ensures ranking == 3 <==> text == "Good Fit"
    ensures ranking == 2 <==> text == "Borderline"
    ensures ranking == 1 <==> text == "Not a Fit"
    ensures !(1 <= ranking <= 4) <==> text == "Unknown"
  {
    if ranking == 4 then "Excellent Fit"
    else if ranking == 3 then "Good Fit"
    else if ranking == 2 then "Borderline"
    else if ranking == 1 then "Not a Fit"
    else "Unknown"
  }

  // ---------------------------------------------------------------------------------------
  // The rankings listing: sorted by the key (-ranking, name)
  // ---------------------------------------------------------------------------------------

  /** The key `(-x.ranking, x.name)` of `a` is at most that of `b`. */
  predicate Precedes(a: RankingResult, b: RankingResult) {
    a.ranking > b.ranking || (a.ranking == b.ranking && LexLe(a.name, b.name))
  }

  lemma PrecedesTotalPreorder()
    ensures TotalPreorder(Precedes)
  {
    forall a, b
      ensures Precedes(a, b) || Precedes(b, a)
    {
      LexLeTotal(a.name, b.name);
    }
    forall a, b, c | Precedes(a, b) && Precedes(b, c)
      ensures Precedes(a, c)
    {
      if a.ranking == b.ranking == c.ranking {
        LexLeTransitive(a.name, b.name, c.name);
      }
    }
  }

  /** Two rankings tie under the sort key exactly when they have the same ranking and the same name. */
  lemma PrecedesTies(a: RankingResult, b: RankingResult)
    ensures Tied(a, b, Precedes) <==> a.ranking == b.ranking && a.name == b.name
  {
    if Tied(a, b, Precedes) {
      LexLeAntisymmetric(a.name, b.name);
    }
    if a.ranking == b.ranking && a.name == b.name {
      LexLeTotal(a.name, b.name);
    }
  }

  /** The order in which `sorted(result.rankings, key=lambda x: (-x.ranking, x.name))` lists the rankings. */
  function Listing(rankings: seq<RankingResult>): seq<RankingResult> {
    SortBy(rankings, Precedes)
  }

  /**
   * The listing holds exactly the given rankings, highest ranking first and, among equal
   * rankings, by name.
   */
  lemma ListingOrder(rankings: seq<RankingResult>)
    ensures multiset(Listing(rankings)) == multiset(rankings)
    ensures var r := Listing(rankings);
            forall i, j :: 0 <= i < j < |r| ==>
              r[i].ranking > r[j].ranking || (r[i].ranking == r[j].ranking && LexLe(r[i].name, r[j].name))
  {
    SortPermutation(rankings, Precedes);
    PrecedesTotalPreorder();
    SortSorted(rankings, Precedes);
  }

  /** Rankings with the same ranking and name as `k` keep their order: Python's sort is stable. */
  lemma ListingStable(rankings: seq<RankingResult>, k: RankingResult)
    ensures TiedWith(Listing(rankings), k, Precedes) == TiedWith(rankings, k, Precedes)
  {
    PrecedesTotalPreorder();
    SortStable(rankings, k, Precedes);
  }

  // ---------------------------------------------------------------------------------------
  // The per-pipeline summary
  // ---------------------------------------------------------------------------------------

  /** One pipeline's entry under `summary["pipelines"]`, with `models` as the set it is built as. */
  datatype PipelineSummary = PipelineSummary(count: nat, models: set<string>, totalTokens: int, cvCount: nat)

  /** `_create_summary`'s `total_pipeline_runs` and `pipelines`. */
  datatype Summary = Summary(totalPipelineRuns: nat, pipelines: map<string, PipelineSummary>)

  /** The error `+=` raises when a token count is not a number. */
  const AddTypeError := "TypeError: unsupported operand type(s) for +="

  /** The result's metadata holds a dictionary `usage` with a `total_tokens` entry. */
  predicate ReportsTotal(metadata: map<string, Json>) {
    "usage" in metadata && metadata["usage"].JObject? && "total_tokens" in metadata["usage"].fields
  }

  /**
   * What `total_tokens += usage.get("total_tokens", 0)` adds for one result: nothing when its
   * usage is not a dictionary, the count otherwise (a bool adds 0 or 1, as in Python), and a
   * TypeError when the count is not a number.
   */
  function TokensAdded(result: RunResult): (r: Result<int>)
    ensures !ReportsTotal(result.metadata) ==> r == Success(0)
    ensures ReportsTotal(result.metadata) ==>
              match result.metadata["usage"].fields["total_tokens"]
              case JInt(n) => r == Success(n)
              case JBool(b) => r == Success(if b then 1 else 0)
              case _ => r == Failure(AddTypeError)
  {
    var usage := Get(result.metadata, "usage", JObject(map[]));
    if !usage.JObject? then Success(0)
    else match Get(usage.fields, "total_tokens", JInt(0))
      case JInt(n) => Success(n)
      case JBool(b) => Success(if b then 1 else 0)
      case _ => Failure(AddTypeError)
  }

  /** A pipeline's entry before its first result is counted. */
  const Fresh := PipelineSummary(0, {}, 0, 0)

  /** One pass of the loop: `result` counted into its pipeline's entry. */
  function Tally(pipelines: map<string, PipelineSummary>, result: RunResult): Result<map<string, PipelineSummary>> {
    var entry := if result.pipelineName in pipelines then pipelines[result.pipelineName] else Fresh;
    match TokensAdded(result)
    case Failure(e) => Failure(e)
    case Success(n) =>
      Success(pipelines[result.pipelineName :=
        PipelineSummary(entry.count + 1, entry.models + {result.model}, entry.totalTokens + n, |result.rankings|)])
  }

  /** `summary["pipelines"]` after the loop has counted `results`. */
  function Pipelines(results: seq<RunResult>): Result<map<string, PipelineSummary>> {
    if results == [] then Success(map[])
    else match Pipelines(results[..|results| - 1])
      case Failure(e) => Failure(e)
      case Success(p) => Tally(p, results[|results| - 1])
  }

  /** What `_create_summary` returns, or the error it raises. */
  function SummaryOf(results: seq<RunResult>): Result<Summary> {
    match Pipelines(results)
    case Failure(e) => Failure(e)
    case Success(p) => Success(Summary(|results|, p))
  }

  /** The results of pipeline `name`, in order. */
  function RunsOf(results: seq<RunResult>, name: string): (runs: seq<RunResult>)
    ensures forall x :: x in runs <==> x in results && x.pipelineName == name
  {
    if results == [] then []
    else
      var last := results[|results| - 1];
      assert results == results[..|results| - 1] + [last];
      RunsOf(results[..|results| - 1], name) + (if last.pipelineName == name then [last] else [])
  }

  /** The tokens a result contributes; 0 for one whose count raises. */
  function TokenCount(result: RunResult): int {
    if TokensAdded(result).Success? then TokensAdded(result).value else 0
  }

  function TokenSum(runs: seq<RunResult>): int {
    if runs == [] then 0 else TokenSum(runs[..|runs| - 1]) + TokenCount(runs[|runs| - 1])
  }

  /** The summary is built exactly when every token count is a number (or absent). */
  lemma {:induction false} PipelinesOutcome(results: seq<RunResult>)
    ensures Pipelines(results).Success? <==> forall i :: 0 <= i < |results| ==> TokensAdded(results[i]).Success?
    ensures Pipelines(results).Failure? ==> Pipelines(results).error == AddTypeError
  {
    if results != [] {
      var init := results[..|results| - 1];
      PipelinesOutcome(init);
      assert forall i :: 0 <= i < |init| ==> init[i] == results[i];
    }
  }

  /**
   * Each pipeline seen has an entry, and only those: its `count` is the number of its results,
   * `models` the set of their models, `total_tokens` the sum of their token counts, and
   * `cv_count` the rankings length of its last result.
   */
  lemma {:induction false} PipelineEntries(results: seq<RunResult>, name: string)
    requires Pipelines(results).Success?
    ensures var p := Pipelines(results).value;
            var runs := RunsOf(results, name);
            && (name in p <==> runs != [])
            && (name in p ==> p[name] == PipelineSummary(|runs|, Models(runs), TokenSum(runs), |runs[|runs| - 1].rankings|))
  {
    if results != [] {
      var init := results[..|results| - 1];
      var last := results[|results| - 1];
      PipelinesStep(results);
      RunsOfStep(results, name);
      PipelineEntries(init, name);
      if last.pipelineName == name {
        EntryAppend(Pipelines(init).value, RunsOf(init, name), last, name);
      } else {
        TallyEntry(Pipelines(init).value, last, name);
      }
    }
  }

  lemma PipelinesStep(results: seq<RunResult>)
    requires results != [] && Pipelines(results).Success?
    ensures var init := results[..|results| - 1];
            Pipelines(init).Success? && Pipelines(results) == Tally(Pipelines(init).value, results[|results| - 1])
  {
  }

  lemma RunsOfStep(results: seq<RunResult>, name: string)
    requires results != []
    ensures var init, last := results[..|results| - 1], results[|results| - 1];
            && (last.pipelineName == name ==> RunsOf(results, name) == RunsOf(init, name) + [last])
            && (last.pipelineName != name ==> RunsOf(results, name) == RunsOf(init, name))
  {
    var init := results[..|results| - 1];
    assert RunsOf(init, name) + [] == RunsOf(init, name);
  }

  /** Counting one more result of pipeline `name` extends its entry by that result. */
  lemma EntryAppend(p0: map<string, PipelineSummary>, runs0: seq<RunResult>, last: RunResult, name: string)
    requires name in p0 <==> runs0 != []
    requires name in p0 ==> p0[name] == PipelineSummary(|runs0|, Models(runs0), TokenSum(runs0), |runs0[|runs0| - 1].rankings|)
    requires Tally(p0, last).Success? && last.pipelineName == name
    ensures var p, runs := Tally(p0, last).value, runs0 + [last];
            name in p && p[name] == PipelineSummary(|runs|, Models(runs), TokenSum(runs), |runs[|runs| - 1].rankings|)
  {
    TallyEntry(p0, last, name);
    RunsAppend(runs0, last);
  }

  /** The models of a list of runs. */
  function Models(runs: seq<RunResult>): set<string> {
    set x | x in runs :: x.model
  }

  lemma RunsAppend(runs0: seq<RunResult>, last: RunResult)
    ensures var runs := runs0 + [last];
            && runs[..|runs| - 1] == runs0
            && TokenSum(runs) == TokenSum(runs0) + TokenCount(last)
            && Models(runs) == Models(runs0) + {last.model}
            && Models([]) == {}
  {
    var runs := runs0 + [last];
    assert runs[..|runs| - 1] == runs0;
  }

  /** What one pass of the loop does to the entry of pipeline `name`. */
  lemma TallyEntry(p0: map<string, PipelineSummary>, result: RunResult, name: string)
    requires Tally(p0, result).Success?
    ensures var p := Tally(p0, result).value;
            var entry := if name in p0 then p0[name] else Fresh;
            if result.pipelineName == name then
              name in p && p[name] == PipelineSummary(entry.count + 1, entry.models + {result.model},
                                                      entry.totalTokens + TokenCount(result), |result.rankings|)
            else
              (name in p <==> name in p0) && (name in p0 ==> p[name] == p0[name])
  {
  }

  /**
   * `_create_summary` raises exactly when some run's token count is not a number; otherwise
   * `total_pipeline_runs` is the number of runs and there is one entry per pipeline name.
   */
  lemma SummarySpec(results: seq<RunResult>)
    ensures SummaryOf(results).Success? <==> forall i :: 0 <= i < |results| ==> TokensAdded(results[i]).Success?
    ensures SummaryOf(results).Failure? ==> SummaryOf(results).error == AddTypeError
    ensures SummaryOf(results).Success? ==> SummaryOf(results).value.totalPipelineRuns == |results|
    ensures SummaryOf(results).Success? ==>
              SummaryOf(results).value.pipelines.Keys == set i | 0 <= i < |results| :: results[i].pipelineName
  {
    PipelinesOutcome(results);
    if SummaryOf(results).Success? {
      var p := SummaryOf(results).value.pipelines;
      forall name | name in p
        ensures exists i :: 0 <= i < |results| && results[i].pipelineName == name
      {
        PipelineEntries(results, name);
        var runs := RunsOf(results, name);
        assert runs[0] in runs;
      }
      forall i | 0 <= i < |results|
        ensures results[i].pipelineName in p
      {
        PipelineEntries(results, results[i].pipelineName);
        assert results[i] in RunsOf(results, results[i].pipelineName);
      }
    }
  }

  /** `_create_summary`: the loop that counts each result into its pipeline's entry. */
  method CreateSummary(results: seq<RunResult>) returns (r: Result<Summary>)
    ensures r == SummaryOf(results)
  {
    var pipelines: map<string, PipelineSummary> := map[];
    for i := 0 to |results|
      invariant Pipelines(results[..i]) == Success(pipelines)
    {
      var result := results[i];
      var key := result.pipelineName;
      var entry := if key in pipelines then pipelines[key] else PipelineSummary(0, {}, 0, 0);
      ghost var before := pipelines;
      entry := entry.(count := entry.count + 1);
      entry := entry.(models := entry.models + {result.model});
      entry := entry.(cvCount := |result.rankings|);
      var usage := Get(result.metadata, "usage", JObject(map[]));
      if usage.JObject? {
        var tokens := Get(usage.fields, "total_tokens", JInt(0));
        if tokens.JInt? {
          entry := entry.(totalTokens := entry.totalTokens + tokens.i);
        } else if tokens.JBool? {
          entry := entry.(totalTokens := entry.totalTokens + if tokens.b then 1 else 0);
        } else {
          PipelinesOutcome(results);
          return Failure(AddTypeError);
        }
      }
      pipelines := pipelines[key := entry];
      assert Tally(before, result) == Success(pipelines);
      assert results[..i + 1][..i] == results[..i];
    }
    assert results[..|results|] == results;
    r := Success(Summary(|results|, pipelines));
  }

  // ---------------------------------------------------------------------------------------
  // The comparison rows
  // ---------------------------------------------------------------------------------------

  /** One row of `create_comparison_dataframe`. */
  datatype Row = Row(
    cvId: string,
    name: string,
    pipeline: string,
    provider: string,
    model: string,
    ranking: int,
    rankingLabel: string,
    reasoning: string,
    totalTokens: Json,
    promptTokens: Json,
    completionTokens: Json)

  /** A token column: `usage.get(key, 0)` when the run's usage is a dictionary, and 0 otherwise. */
  function TokenColumn(metadata: map<string, Json>, key: string): (v: Json)
    ensures "usage" in metadata && metadata["usage"].JObject? && key in metadata["usage"].fields ==>
              v == metadata["usage"].fields[key]
    ensures !("usage" in metadata && metadata["usage"].JObject? && key in metadata["usage"].fields) ==>
              v == JInt(0)
  {
    var usage := Get(metadata, "usage", JObject(map[]));
    if usage.JObject? then Get(usage.fields, key, JInt(0)) else JInt(0)
  }

  /** The row for one ranking of one run. */
  function RowOf(result: RunResult, ranking: RankingResult): Row {
    Row(ranking.cvId, ranking.name, result.pipelineName, result.provider, result.model,
        ranking.ranking, RankingLabel(ranking.ranking), ranking.reasoning,
        TokenColumn(result.metadata, "total_tokens"),
        TokenColumn(result.metadata, "prompt_tokens"),
        TokenColumn(result.metadata, "completion_tokens"))
  }

  /** The number of rankings over all runs. */
  function RankingCount(results: seq<RunResult>): nat {
    if results == [] then 0 else RankingCount(results[..|results| - 1]) + |results[|results| - 1].rankings|
  }

  /** The rows of `rankings`, all from run `result`, one per ranking. */
  function RowsFor(result: RunResult, rankings: seq<RankingResult>): (rows: seq<Row>)
    ensures |rows| == |rankings|
  {
    seq(|rankings|, j requires 0 <= j < |rankings| => RowOf(result, rankings[j]))
  }

  /** The rows of one run, one per ranking. */
  function RunRows(result: RunResult): (rows: seq<Row>)
    ensures |rows| == |result.rankings|
  {
    RowsFor(result, result.rankings)
  }

  /** The rows `create_comparison_dataframe` collects: run after run, ranking after ranking. */
  function Rows(results: seq<RunResult>): (rows: seq<Row>)
    ensures |rows| == RankingCount(results)
  {
    if results == [] then [] else Rows(results[..|results| - 1]) + RunRows(results[|results| - 1])
  }

  /**
   * Ranking `j` of run `i` is row number `RankingCount(results[..i]) + j`: the rows come run
   * by run, each run's in the order of its rankings.
   */
  lemma {:induction false} RowsAt(results: seq<RunResult>, i: nat, j: nat)
    requires i < |results| && j < |results[i].rankings|
    ensures RankingCount(results[..i]) + j < |Rows(results)|
    ensures Rows(results)[RankingCount(results[..i]) + j] == RowOf(results[i], results[i].rankings[j])
  {
    var init := results[..|results| - 1];
    if i < |init| {
      RowsAt(init, i, j);
      assert init[..i] == results[..i];
      assert init[i] == results[i];
    } else {
      assert init == results[..i];
    }
  }

  /** `create_comparison_dataframe`: the nested loops that append one row per ranking. */
  method CreateComparisonRows(results: seq<RunResult>) returns (rows: seq<Row>)
    ensures rows == Rows(results)
  {
    rows := [];
    for i := 0 to |results|
      invariant rows == Rows(results[..i])
    {
      var result := results[i];
      for j := 0 to |result.rankings|
        invariant rows == Rows(results[..i]) + RunRows(result)[..j]
      {
        var ranking := result.rankings[j];
        var usage := Get(result.metadata, "usage", JObject(map[]));
        var totalTokens, promptTokens, completionTokens;
        if usage.JObject? {
          totalTokens := Get(usage.fields, "total_tokens", JInt(0));
          promptTokens := Get(usage.fields, "prompt_tokens", JInt(0));
          completionTokens := Get(usage.fields, "completion_tokens", JInt(0));
        } else {
          totalTokens, promptTokens, completionTokens := JInt(0), JInt(0), JInt(0);
        }
        var row := Row(ranking.cvId, ranking.name, result.pipelineName, result.provider, result.model,
                       ranking.ranking, RankingLabel(ranking.ranking), ranking.reasoning,
                       totalTokens, promptTokens, completionTokens);
        assert RunRows(result)[..j + 1] == RunRows(result)[..j] + [row];
        rows := rows + [row];
      }
      assert RunRows(result)[..|result.rankings|] == RunRows(result);
      assert results[..i + 1][..i] == results[..i];
    }
    assert results[..|results|] == results;
  }

  // ---------------------------------------------------------------------------------------
  // Comparing pipelines on one CV
  // ---------------------------------------------------------------------------------------

  /** One row of `compare_pipelines`. */
  datatype ComparisonRow = ComparisonRow(
    cvId: string,
    name: string,
    pipeline: string,
    model: string,
    ranking: int,
    rankingLabel: string,
    reasoning: string,
    tokensUsed: Json)

  /** `tokens_used`: the usage's `total_tokens` (default 0) when the usage is a dictionary, 0 otherwise. */
  function TokensUsed(metadata: map<string, Json>): Json {
    if "usage" in metadata && metadata["usage"].JObject? then Get(metadata["usage"].fields, "total_tokens", JInt(0))
    else JInt(0)
  }

  /** The `tokens_used` column agrees with the comparison table's `total_tokens` column. */
  lemma TokensUsedAgrees(metadata: map<string, Json>)
    ensures TokensUsed(metadata) == TokenColumn(metadata, "total_tokens")
  {
  }

  /** The comparison row for one ranking of one run. */
  function ComparisonRowOf(result: RunResult, ranking: RankingResult): ComparisonRow {
    ComparisonRow(ranking.cvId, ranking.name, result.pipelineName, result.model, ranking.ranking,
                  RankingLabel(ranking.ranking), ranking.reasoning, TokensUsed(result.metadata))
  }

  /** `cv_id is None or ranking.cv_id == cv_id`. */
  predicate Selected(cvId: Option<string>, ranking: RankingResult) {
    cvId.None? || ranking.cvId == cvId.value
  }

  /** The comparison rows of the selected rankings among `rankings`, all from run `result`. */
  function Picked(result: RunResult, rankings: seq<RankingResult>, cvId: Option<string>): seq<ComparisonRow> {
    if rankings == [] then []
    else
      var ranking := rankings[|rankings| - 1];
      Picked(result, rankings[..|rankings| - 1], cvId) +
        (if Selected(cvId, ranking) then [ComparisonRowOf(result, ranking)] else [])
  }

  /** The rows `compare_pipelines` collects. */
  function Compared(results: seq<RunResult>, cvId: Option<string>): seq<ComparisonRow> {
    if results == [] then []
    else
      var result := results[|results| - 1];
      Compared(results[..|results| - 1], cvId) + Picked(result, result.rankings, cvId)
  }

  /** The comparison table's columns of a row, with `total_tokens` as `tokens_used`. */
  function Narrow(row: Row): ComparisonRow {
    ComparisonRow(row.cvId, row.name, row.pipeline, row.model, row.ranking, row.rankingLabel, row.reasoning, row.totalTokens)
  }

  function NarrowAll(rows: seq<Row>): (r: seq<ComparisonRow>)
    ensures |r| == |rows| && forall k :: 0 <= k < |rows| ==> r[k] == Narrow(rows[k])
  {
    seq(|rows|, k requires 0 <= k < |rows| => Narrow(rows[k]))
  }

  lemma NarrowAllAppend(a: seq<Row>, b: seq<Row>)
    ensures NarrowAll(a + b) == NarrowAll(a) + NarrowAll(b)
  {
    assert forall k :: 0 <= k < |b| ==> (a + b)[|a| + k] == b[k];
  }

  lemma {:induction false} PickedAll(result: RunResult, rankings: seq<RankingResult>)
    ensures Picked(result, rankings, None) == NarrowAll(RowsFor(result, rankings))
  {
    if rankings != [] {
      var init, last := rankings[..|rankings| - 1], rankings[|rankings| - 1];
      PickedAll(result, init);
      assert RowsFor(result, rankings) == RowsFor(result, init) + [RowOf(result, last)];
      NarrowAllAppend(RowsFor(result, init), [RowOf(result, last)]);
      TokensUsedAgrees(result.metadata);
      assert Narrow(RowOf(result, last)) == ComparisonRowOf(result, last);
    }
  }

  /** Without a CV id, `compare_pipelines` has a row for every ranking of every run, in table order. */
  lemma {:induction false} ComparedAll(results: seq<RunResult>)
    ensures Compared(results, None) == NarrowAll(Rows(results))
  {
    if results != [] {
      var init := results[..|results| - 1];
      var result := results[|results| - 1];
      ComparedAll(init);
      PickedAll(result, result.rankings);
      NarrowAllAppend(Rows(init), RunRows(result));
    }
  }

  /** The rows of `rows` that are about CV `id`, in order. */
  function OfCv(rows: seq<ComparisonRow>, id: string): (r: seq<ComparisonRow>)
    ensures forall x :: x in r <==> x in rows && x.cvId == id
  {
    if rows == [] then []
    else
      var last := rows[|rows| - 1];
      assert rows == rows[..|rows| - 1] + [last];
      OfCv(rows[..|rows| - 1], id) + (if last.cvId == id then [last] else [])
  }

  lemma {:induction false} OfCvAppend(a: seq<ComparisonRow>, b: seq<ComparisonRow>, id: string)
    ensures OfCv(a + b, id) == OfCv(a, id) + OfCv(b, id)
    decreases |b|
  {
    if b == [] {
      assert a + b == a;
    } else {
      var b0 := b[..|b| - 1];
      OfCvAppend(a, b0, id);
      assert (a + b)[..|a + b| - 1] == a + b0;
      assert (a + b)[|a + b| - 1] == b[|b| - 1];
    }
  }

  lemma {:induction false} PickedOfCv(result: RunResult, rankings: seq<RankingResult>, id: string)
    ensures Picked(result, rankings, Some(id)) == OfCv(Picked(result, rankings, None), id)
  {
    if rankings != [] {
      var init := rankings[..|rankings| - 1];
      PickedOfCv(result, init, id);
      var row := ComparisonRowOf(result, rankings[|rankings| - 1]);
      OfCvAppend(Picked(result, init, None), [row], id);
    }
  }

  /** With a CV id, `compare_pipelines` keeps exactly the rows about that CV, in the same order. */
  lemma {:induction false} ComparedOfCv(results: seq<RunResult>, id: string)
    ensures Compared(results, Some(id)) == OfCv(Compared(results, None), id)
  {
    if results != [] {
      var init := results[..|results| - 1];
      var result := results[|results| - 1];
      ComparedOfCv(init, id);
      PickedOfCv(result, result.rankings, id);
      OfCvAppend(Compared(init, None), Picked(result, result.rankings, None), id);
    }
  }

  /** `compare_pipelines`: the outer loop over the runs, appending the selected rows of each. */
  method ComparePipelines(results: seq<RunResult>, cvId: Option<string>) returns (rows: seq<ComparisonRow>)
    ensures rows == Compared(results, cvId)
  {
    rows := [];
    for i := 0 to |results|
      invariant rows == Compared(results[..i], cvId)
    {
      var picked := PickRows(results[i], cvId);
      ComparedStep(results, cvId, i);
      rows := rows + picked;
    }
    assert results[..|results|] == results;
  }

  /** The inner loop of `compare_pipelines`: one row for each selected ranking of one run. */
  method PickRows(result: RunResult, cvId: Option<string>) returns (rows: seq<ComparisonRow>)
    ensures rows == Picked(result, result.rankings, cvId)
  {
    rows := [];
    for j := 0 to |result.rankings|
      invariant rows == Picked(result, result.rankings[..j], cvId)
    {
      var ranking := result.rankings[j];
      PickedStep(result, result.rankings, cvId, j);
      if cvId.None? || ranking.cvId == cvId.value {
        var usage := Get(result.metadata, "usage", JNull);
        var tokensUsed := if usage.JObject? then Get(usage.fields, "total_tokens", JInt(0)) else JInt(0);
        var row := ComparisonRow(ranking.cvId, ranking.name, result.pipelineName, result.model, ranking.ranking,
                                 RankingLabel(ranking.ranking), ranking.reasoning, tokensUsed);
        assert row == ComparisonRowOf(result, ranking);
        rows := rows + [row];
      }
    }
    assert result.rankings[..|result.rankings|] == result.rankings;
  }

  lemma PickedStep(result: RunResult, rankings: seq<RankingResult>, cvId: Option<string>, j: nat)
    requires j < |rankings|
    ensures Selected(cvId, rankings[j]) ==>
              Picked(result, rankings[..j + 1], cvId) == Picked(result, rankings[..j], cvId) + [ComparisonRowOf(result, rankings[j])]
    ensures !Selected(cvId, rankings[j]) ==> Picked(result, rankings[..j + 1], cvId) == Picked(result, rankings[..j], cvId)
  {
    assert rankings[..j + 1][..j] == rankings[..j];
    assert Picked(result, rankings[..j], cvId) + [] == Picked(result, rankings[..j], cvId);
  }

  lemma ComparedStep(results: seq<RunResult>, cvId: Option<string>, i: nat)
    requires i < |results|
    ensures Compared(results[..i + 1], cvId) == Compared(results[..i], cvId) + Picked(results[i], results[i].rankings, cvId)
  {
    assert results[..i + 1][..i] == results[..i];
  }
}
