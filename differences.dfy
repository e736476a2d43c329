/**
 * The cross-run analysis of an experiment's comparison table: which original CV each
 * anonymised id stands for, the integer statistics of the rankings each CV received, and
 * the order of the pivot table's pipeline/model columns.
 */
module Differences {
  import opened Strings
  import opened Sorting
  import opened Comparison

  // ---------------------------------------------------------------------------------------
  // De-anonymisation
  // ---------------------------------------------------------------------------------------

  /** An entry of the CV id mapping: the CV's original id and the candidate's name. */
  datatype Original = Original(originalId: string, originalName: string)

  /** `get_original_info`: the mapping's entry for the id, or the id itself with the name "Unknown". */
  function GetOriginalInfo(sanitizedId: string, mapping: map<string, Original>): (info: Original)
    ensures sanitizedId in mapping ==> info == mapping[sanitizedId]
    ensures sanitizedId !in mapping ==> info.originalId == sanitizedId && info.originalName == "Unknown"
  {
    if sanitizedId in mapping then mapping[sanitizedId] else Original(sanitizedId, "Unknown")
  }

  // ---------------------------------------------------------------------------------------
  // Counting
  // ---------------------------------------------------------------------------------------

  /** No value occurs twice in `u`. */
  predicate Distinct<T(==)>(u: seq<T>) {
    forall i, j :: 0 <= i < j < |u| ==> u[i] != u[j]
  }

  /**
   * `Series.unique()`: each value of `s` once, in the order of its first occurrence (the order
   * is proved in `UniqueFirstOccurrenceOrder`).
   */
  function Unique<T(==,!new)>(s: seq<T>): (u: seq<T>)
    ensures Distinct(u)
    ensures forall x :: x in u <==> x in s
  {
    if s == [] then []
    else
      var u0 := Unique(s[..|s| - 1]);
      var x := s[|s| - 1];
      assert s == s[..|s| - 1] + [x];
      if x in u0 then u0 else u0 + [x]
  }

  /** The position of the first occurrence of `x` in `s`. */
  function FirstIndex<T(==)>(s: seq<T>, x: T): (k: nat)
    requires x in s
    ensures k < |s| && s[k] == x
    ensures forall q :: 0 <= q < k ==> s[q] != x
  {
    if s[0] == x then 0 else 1 + FirstIndex(s[1..], x)
  }

  /** A value occurring in a prefix has its first occurrence there. */
  lemma FirstIndexInPrefix<T>(s: seq<T>, m: nat, x: T)
    requires m <= |s| && x in s[..m]
    ensures x in s && FirstIndex(s, x) == FirstIndex(s[..m], x)
  {
    var k := FirstIndex(s[..m], x);
    assert forall q :: 0 <= q < m ==> s[..m][q] == s[q];
    assert s[k] == x;
  }

  /** Appending a value that first occurs after all of `u0` keeps first-occurrence order. */
  lemma OrderAfterAppend<T>(s: seq<T>, u0: seq<T>, x: T)
    requires x in s && forall y :: y in u0 ==> y in s && FirstIndex(s, y) < FirstIndex(s, x)
    requires forall i, j :: 0 <= i < j < |u0| ==> FirstIndex(s, u0[i]) < FirstIndex(s, u0[j])
    ensures var u := u0 + [x];
            forall i, j :: 0 <= i < j < |u| ==> FirstIndex(s, u[i]) < FirstIndex(s, u[j])
  {
    var u := u0 + [x];
    forall i, j | 0 <= i < j < |u|
      ensures FirstIndex(s, u[i]) < FirstIndex(s, u[j])
    {
      assert u[i] == u0[i] && u0[i] in u0;
      if j < |u0| {
        assert u[j] == u0[j];
      } else {
        assert u[j] == x;
      }
    }
  }

  /** `Unique` lists the values in the order in which they first occur in `s`. */
  lemma {:induction false} UniqueFirstOccurrenceOrder<T(!new)>(s: seq<T>)
    ensures forall i, j :: 0 <= i < j < |Unique(s)| ==> FirstIndex(s, Unique(s)[i]) < FirstIndex(s, Unique(s)[j])
  {
    if s != [] {
      var p := s[..|s| - 1];
      var x := s[|s| - 1];
      var u0 := Unique(p);
      UniqueFirstOccurrenceOrder(p);
      forall y | y in u0
        ensures y in s && FirstIndex(s, y) == FirstIndex(p, y) < |s| - 1
      {
        FirstIndexInPrefix(s, |s| - 1, y);
      }
      forall i, j | 0 <= i < j < |u0|
        ensures FirstIndex(s, u0[i]) < FirstIndex(s, u0[j])
      {
        assert u0[i] in u0 && u0[j] in u0;
      }
      if x !in u0 {
        forall q | 0 <= q < |s| - 1
          ensures s[q] != x
        {
          assert s[q] == p[q];
        }
        assert FirstIndex(s, x) == |s| - 1;
        OrderAfterAppend(s, u0, x);
        assert Unique(s) == u0 + [x];
      } else {
        assert Unique(s) == u0;
      }
    }
  }

  /** The number of occurrences in `s` of the values of `u`, added up. */
  function CountSum<T(==)>(s: seq<T>, u: seq<T>): nat {
    if u == [] then 0 else multiset(s)[u[0]] + CountSum(s, u[1..])
  }

  lemma {:induction false} CountSumEmpty<T>(u: seq<T>)
    ensures CountSum([], u) == 0
  {
    if u != [] {
      CountSumEmpty(u[1..]);
    }
  }

  lemma {:induction false} CountSumAppend<T>(s: seq<T>, x: T, u: seq<T>)
    ensures CountSum(s + [x], u) == CountSum(s, u) + multiset(u)[x]
  {
    if u != [] {
      CountSumAppend(s, x, u[1..]);
      assert u == [u[0]] + u[1..];
    }
  }

  lemma {:induction false} DistinctOnce<T>(u: seq<T>, x: T)
    requires Distinct(u)
    ensures multiset(u)[x] == if x in u then 1 else 0
  {
    if u != [] {
      DistinctOnce(u[1..], x);
      assert u == [u[0]] + u[1..];
    }
  }

  /** Counting the occurrences of each distinct value of `s` counts every element of `s` once. */
  lemma {:induction false} CountSumTotal<T>(s: seq<T>, u: seq<T>)
    requires Distinct(u)
    requires forall x :: x in s ==> x in u
    ensures CountSum(s, u) == |s|
  {
    if s == [] {
      CountSumEmpty(u);
    } else {
      var s0, x := s[..|s| - 1], s[|s| - 1];
      assert s == s0 + [x];
      CountSumTotal(s0, u);
      CountSumAppend(s0, x, u);
      DistinctOnce(u, x);
    }
  }

  // ---------------------------------------------------------------------------------------
  // One CV's rows and rankings
  // ---------------------------------------------------------------------------------------

  /** The `cv_id` column. */
  function CvIds(rows: seq<Row>): seq<string> {
    seq(|rows|, k requires 0 <= k < |rows| => rows[k].cvId)
  }

  /** `df[df['cv_id'] == cv_id]`: the rows about CV `id`, in order. */
  function CvRows(rows: seq<Row>, id: string): (data: seq<Row>)
    ensures forall r :: r in data <==> r in rows && r.cvId == id
  {
    if rows == [] then []
    else
      var last := rows[|rows| - 1];
      assert rows == rows[..|rows| - 1] + [last];
      CvRows(rows[..|rows| - 1], id) + (if last.cvId == id then [last] else [])
  }

  /** A CV id of the table has at least one row. */
  lemma CvRowsNonEmpty(rows: seq<Row>, id: string)
    requires id in CvIds(rows)
    ensures CvRows(rows, id) != []
  {
    var k :| 0 <= k < |rows| && CvIds(rows)[k] == id;
    assert rows[k] in CvRows(rows, id);
  }

  /** The `ranking` column. */
  function RankingsOf(data: seq<Row>): (rankings: seq<int>)
    ensures |rankings| == |data| && forall k :: 0 <= k < |data| ==> rankings[k] == data[k].ranking
  {
    seq(|data|, k requires 0 <= k < |data| => data[k].ranking)
  }

  predicate Ascending(u: seq<int>) {
    forall i, j :: 0 <= i < j < |u| ==> u[i] < u[j]
  }

  /** `x` added to the ascending list `u` unless it is there already. */
  function AddValue(x: int, u: seq<int>): (r: seq<int>)
    requires Ascending(u)
    ensures Ascending(r)
    ensures forall y :: y in r <==> y in u || y == x
    ensures r != [] && (u != [] ==> r[0] == if x < u[0] then x else u[0])
  {
    if u == [] || x < u[0] then [x] + u
    else if x == u[0] then u
    else [u[0]] + AddValue(x, u[1..])
  }

  /** `sorted(set(rankings))`. */
  function UniqueRankings(rankings: seq<int>): (u: seq<int>)
    ensures Ascending(u)
    ensures forall y :: y in u <==> y in rankings
  {
    if rankings == [] then [] else AddValue(rankings[0], UniqueRankings(rankings[1..]))
  }

  /** `.min()` of a non-empty column. */
  function MinOf(s: seq<int>): (m: int)
    requires s != []
    ensures m in s && forall x :: x in s ==> m <= x
  {
    if |s| == 1 then s[0]
    else
      var m0 := MinOf(s[1..]);
      assert s == [s[0]] + s[1..];
      if s[0] <= m0 then s[0] else m0
  }

  /** `.max()` of a non-empty column. */
  function MaxOf(s: seq<int>): (m: int)
    requires s != []
    ensures m in s && forall x :: x in s ==> x <= m
  {
    if |s| == 1 then s[0]
    else
      var m0 := MaxOf(s[1..]);
      assert s == [s[0]] + s[1..];
      if s[0] >= m0 then s[0] else m0
  }

  /** `value_counts()`: how often each ranking occurs. */
  function Distribution(rankings: seq<int>): map<int, nat> {
    map v | v in rankings :: multiset(rankings)[v]
  }

  /** The counts of `d` for the values of `u`, added up. */
  function Total(d: map<int, nat>, u: seq<int>): nat
    requires forall i :: 0 <= i < |u| ==> u[i] in d
  {
    if u == [] then 0 else d[u[0]] + Total(d, u[1..])
  }

  lemma {:induction false} TotalOfDistribution(rankings: seq<int>, u: seq<int>)
    requires forall i :: 0 <= i < |u| ==> u[i] in rankings
    ensures Total(Distribution(rankings), u) == CountSum(rankings, u)
  {
    if u != [] {
      TotalOfDistribution(rankings, u[1..]);
    }
  }

  // ---------------------------------------------------------------------------------------
  // The breakdowns by pipeline and by model
  // ---------------------------------------------------------------------------------------

  /** The column a breakdown groups by: `pipeline` for `by_pipeline`, `model` for `by_model`. */
  datatype Facet = ByPipeline | ByModel

  function KeyOf(facet: Facet, row: Row): string {
    if facet == ByPipeline then row.pipeline else row.model
  }

  /** The other column, listed beside the rankings: `models` for a pipeline, `pipelines` for a model. */
  function OtherOf(facet: Facet, row: Row): string {
    if facet == ByPipeline then row.model else row.pipeline
  }

  /** One group's `rankings` and its `models` or `pipelines` list. */
  datatype Breakdown = Breakdown(rankings: seq<int>, others: seq<string>)

  /** The grouping column. */
  function Keys(data: seq<Row>, facet: Facet): seq<string> {
    seq(|data|, k requires 0 <= k < |data| => KeyOf(facet, data[k]))
  }

  /** `cv_data[cv_data[column] == key]`: the rows of group `key`, in order. */
  function Members(data: seq<Row>, facet: Facet, key: string): (m: seq<Row>)
    ensures |m| <= |data|
    ensures forall r :: r in m <==> r in data && KeyOf(facet, r) == key
  {
    if data == [] then []
    else
      var last := data[|data| - 1];
      assert data == data[..|data| - 1] + [last];
      Members(data[..|data| - 1], facet, key) + (if KeyOf(facet, last) == key then [last] else [])
  }

  function Others(m: seq<Row>, facet: Facet): (others: seq<string>)
    ensures |others| == |m| && forall k :: 0 <= k < |m| ==> others[k] == OtherOf(facet, m[k])
  {
    seq(|m|, k requires 0 <= k < |m| => OtherOf(facet, m[k]))
  }

  function BreakdownOf(data: seq<Row>, facet: Facet, key: string): Breakdown {
    var m := Members(data, facet, key);
    Breakdown(RankingsOf(m), Others(m, facet))
  }

  /** `pipeline_rankings` or `model_rankings`: one breakdown per value of the grouping column. */
  function Groups(data: seq<Row>, facet: Facet): map<string, Breakdown> {
    map key | key in Keys(data, facet) :: BreakdownOf(data, facet, key)
  }

  /** The loop over `cv_data[column].unique()` that builds one breakdown per value. */
  method GroupRankings(data: seq<Row>, facet: Facet) returns (groups: map<string, Breakdown>)
    ensures groups == Groups(data, facet)
  {
    var keys := Unique(Keys(data, facet));
    groups := map[];
    for i := 0 to |keys|
      invariant forall key :: key in groups <==> key in keys[..i]
      invariant forall key :: key in groups ==> groups[key] == BreakdownOf(data, facet, key)
    {
      var key := keys[i];
      var members := Members(data, facet, key);
      groups := groups[key := Breakdown(RankingsOf(members), Others(members, facet))];
      assert keys[..i + 1] == keys[..i] + [key];
    }
    assert keys[..|keys|] == keys;
    assert groups.Keys == Groups(data, facet).Keys;
  }

  /** The rows of group `key` are as many as the occurrences of `key` in the grouping column. */
  lemma {:induction false} MembersCount(data: seq<Row>, facet: Facet, key: string)
    ensures |Members(data, facet, key)| == multiset(Keys(data, facet))[key]
  {
    if data != [] {
      var init, last := data[..|data| - 1], data[|data| - 1];
      MembersCount(init, facet, key);
      KeysAppend(data, facet);
      assert multiset(Keys(data, facet)) == multiset(Keys(init, facet)) + multiset{KeyOf(facet, last)};
    }
  }

  lemma KeysAppend(data: seq<Row>, facet: Facet)
    requires data != []
    ensures Keys(data, facet) == Keys(data[..|data| - 1], facet) + [KeyOf(facet, data[|data| - 1])]
  {
  }

  /** The sizes of the groups of `u`, added up. */
  function GroupSizes(groups: map<string, Breakdown>, u: seq<string>): nat
    requires forall key :: key in u ==> key in groups
  {
    if u == [] then 0 else |groups[u[0]].rankings| + GroupSizes(groups, u[1..])
  }

  lemma {:induction false} GroupSizesCount(data: seq<Row>, facet: Facet, u: seq<string>)
    requires forall key :: key in u ==> key in Keys(data, facet)
    ensures GroupSizes(Groups(data, facet), u) == CountSum(Keys(data, facet), u)
  {
    if u != [] {
      GroupSizesCount(data, facet, u[1..]);
      MembersCount(data, facet, u[0]);
    }
  }

  /** The groups partition the rows: their sizes add up to the number of rows. */
  lemma GroupsPartition(data: seq<Row>, facet: Facet)
    ensures var u := Unique(Keys(data, facet));
            && (forall key :: key in u ==> key in Groups(data, facet))
            && GroupSizes(Groups(data, facet), u) == |data|
  {
    var keys := Keys(data, facet);
    var u := Unique(keys);
    GroupSizesCount(data, facet, u);
    CountSumTotal(keys, u);
  }

  // ---------------------------------------------------------------------------------------
  // The per-CV analysis
  // ---------------------------------------------------------------------------------------

  /** One entry of `analysis`, without the float statistics. */
  datatype CvAnalysis = CvAnalysis(
    cvId: string,
    originalId: string,
    name: string,
    totalEvaluations: nat,
    uniqueRankings: seq<int>,
    rankingDistribution: map<int, nat>,
    minRanking: int,
    maxRanking: int,
    rankingRange: int,
    byPipeline: map<string, Breakdown>,
    byModel: map<string, Breakdown>)

  /** The analysis entry of CV `id`, which occurs in the table. */
  function AnalyzeCv(rows: seq<Row>, id: string, mapping: map<string, Original>): CvAnalysis
    requires id in CvIds(rows)
  {
    var data := CvRows(rows, id);
    CvRowsNonEmpty(rows, id);
    var info := GetOriginalInfo(id, mapping);
    var rankings := RankingsOf(data);
    var lo, hi := MinOf(rankings), MaxOf(rankings);
    CvAnalysis(id, info.originalId, info.originalName, |rankings|, UniqueRankings(rankings),
               Distribution(rankings), lo, hi, hi - lo, Groups(data, ByPipeline), Groups(data, ByModel))
  }

  /** `analysis` before its sort by variance: one entry per CV, in order of first appearance. */
  function Analysis(rows: seq<Row>, mapping: map<string, Original>): seq<CvAnalysis> {
    var ids := Unique(CvIds(rows));
    seq(|ids|, k requires 0 <= k < |ids| => AnalyzeCv(rows, ids[k], mapping))
  }

  /** `analyze_experiment`: the loop over the CV ids that builds one analysis entry each. */
  method AnalyzeExperiment(rows: seq<Row>, mapping: map<string, Original>) returns (analysis: seq<CvAnalysis>)
    ensures analysis == Analysis(rows, mapping)
  {
    var ids := Unique(CvIds(rows));
    ghost var expected := Analysis(rows, mapping);
    analysis := [];
    for k := 0 to |ids|
      invariant analysis == expected[..k]
    {
      var entry := AnalyzeOne(rows, ids[k], mapping);
      assert expected[..k + 1] == expected[..k] + [entry];
      analysis := analysis + [entry];
    }
    assert expected[..|ids|] == expected;
  }

  /** The body of the loop: the statistics and the two breakdowns of one CV. */
  method AnalyzeOne(rows: seq<Row>, cvId: string, mapping: map<string, Original>) returns (entry: CvAnalysis)
    requires cvId in CvIds(rows)
    ensures entry == AnalyzeCv(rows, cvId, mapping)
  {
    var cvData := CvRows(rows, cvId);
    var originalInfo := GetOriginalInfo(cvId, mapping);
    var rankings := RankingsOf(cvData);
    var uniqueRankings := UniqueRankings(rankings);
    var rankingCounts := Distribution(rankings);
    var pipelineRankings := GroupRankings(cvData, ByPipeline);
    var modelRankings := GroupRankings(cvData, ByModel);
    CvRowsNonEmpty(rows, cvId);
    var minRanking, maxRanking := MinOf(rankings), MaxOf(rankings);
    entry := CvAnalysis(cvId, originalInfo.originalId, originalInfo.originalName, |rankings|,
                        uniqueRankings, rankingCounts, minRanking, maxRanking, maxRanking - minRanking,
                        pipelineRankings, modelRankings);
  }

  /** There is exactly one analysis entry per CV id in the table. */
  lemma AnalysisEntries(rows: seq<Row>, mapping: map<string, Original>)
    ensures var a := Analysis(rows, mapping);
            && (forall i, j :: 0 <= i < j < |a| ==> a[i].cvId != a[j].cvId)
            && (forall id :: id in CvIds(rows) <==> exists k :: 0 <= k < |a| && a[k].cvId == id)
  {
    var ids := Unique(CvIds(rows));
    var a := Analysis(rows, mapping);
    forall id | id in CvIds(rows)
      ensures exists k :: 0 <= k < |a| && a[k].cvId == id
    {
      var k :| 0 <= k < |ids| && ids[k] == id;
      assert a[k].cvId == id;
    }
  }

  /**
   * A CV's `total_evaluations` is its number of rows, and the counts of its
   * `ranking_distribution` over its `unique_rankings` add up to it.
   */
  lemma DistributionTotal(rows: seq<Row>, id: string, mapping: map<string, Original>)
    requires id in CvIds(rows)
    ensures var a := AnalyzeCv(rows, id, mapping);
            && a.totalEvaluations == |CvRows(rows, id)|
            && (forall i :: 0 <= i < |a.uniqueRankings| ==> a.uniqueRankings[i] in a.rankingDistribution)
            && Total(a.rankingDistribution, a.uniqueRankings) == a.totalEvaluations
  {
    var a := AnalyzeCv(rows, id, mapping);
    var rankings := RankingsOf(CvRows(rows, id));
    var u := UniqueRankings(rankings);
    assert a.totalEvaluations == |rankings| && a.uniqueRankings == u && a.rankingDistribution == Distribution(rankings);
    TotalOfDistribution(rankings, u);
    CountSumTotal(rankings, u);
  }

  /** A value of an ascending list lies between its first and its last element. */
  lemma AscendingBounds(u: seq<int>, v: int)
    requires Ascending(u) && v in u
    ensures u[0] <= v <= u[|u| - 1]
  {
    var i :| 0 <= i < |u| && u[i] == v;
    assert 0 < i ==> u[0] < u[i];
    assert i < |u| - 1 ==> u[i] < u[|u| - 1];
  }

  /** The smallest and largest rankings are the first and last of the ascending distinct values. */
  lemma ExtremesOfUnique(rankings: seq<int>)
    requires rankings != []
    ensures var u := UniqueRankings(rankings);
            u != [] && MinOf(rankings) == u[0] && MaxOf(rankings) == u[|u| - 1]
  {
    var u := UniqueRankings(rankings);
    var lo, hi := MinOf(rankings), MaxOf(rankings);
    assert lo in u && hi in u;
    AscendingBounds(u, lo);
    AscendingBounds(u, hi);
    assert u[0] in rankings && u[|u| - 1] in rankings;
  }

  /**
   * `unique_rankings` is strictly increasing and holds exactly the rankings the CV received;
   * `min_ranking` and `max_ranking` are its first and last values, so `ranking_range` is
   * never negative.
   */
  lemma RankingBounds(rows: seq<Row>, id: string, mapping: map<string, Original>)
    requires id in CvIds(rows)
    ensures var a := AnalyzeCv(rows, id, mapping);
            var rankings := RankingsOf(CvRows(rows, id));
            && Ascending(a.uniqueRankings)
            && (forall v :: v in a.uniqueRankings <==> v in rankings)
            && a.uniqueRankings != []
            && a.minRanking == a.uniqueRankings[0]
            && a.maxRanking == a.uniqueRankings[|a.uniqueRankings| - 1]
            && a.minRanking <= a.maxRanking
            && a.rankingRange == a.maxRanking - a.minRanking >= 0
  {
    var a := AnalyzeCv(rows, id, mapping);
    var rankings := RankingsOf(CvRows(rows, id));
    CvRowsNonEmpty(rows, id);
    assert a.uniqueRankings == UniqueRankings(rankings);
    assert a.minRanking == MinOf(rankings) && a.maxRanking == MaxOf(rankings);
    ExtremesOfUnique(rankings);
  }

  /** The `by_pipeline` lists of a CV partition its rankings, and so do its `by_model` lists. */
  lemma BreakdownsPartition(rows: seq<Row>, id: string, mapping: map<string, Original>)
    requires id in CvIds(rows)
    ensures var a := AnalyzeCv(rows, id, mapping);
            var data := CvRows(rows, id);
            && GroupSizes(a.byPipeline, Unique(Keys(data, ByPipeline))) == a.totalEvaluations
            && GroupSizes(a.byModel, Unique(Keys(data, ByModel))) == a.totalEvaluations
  {
    var data := CvRows(rows, id);
    GroupsPartition(data, ByPipeline);
    GroupsPartition(data, ByModel);
  }

  /** The entry names the original CV from the mapping, or "Unknown" for an id the mapping lacks. */
  lemma AnalysisOriginal(rows: seq<Row>, id: string, mapping: map<string, Original>)
    requires id in CvIds(rows)
    ensures var a := AnalyzeCv(rows, id, mapping);
            && a.cvId == id
            && (id in mapping ==> a.originalId == mapping[id].originalId && a.name == mapping[id].originalName)
            && (id !in mapping ==> a.originalId == id && a.name == "Unknown")
  {
  }

  // ---------------------------------------------------------------------------------------
  // The order of the pivot table's columns
  // ---------------------------------------------------------------------------------------

  /** The pipelines whose `pipeline / model` columns come first, in this order. */
  const PipelineOrder: seq<string> := ["one_shot", "chain_of_thought", "decomposed_algorithmic", "multi_layer"]

  /** The prefix `pipeline + ' /'` that marks the columns of a pipeline. */
  function Marker(pipeline: string): string {
    pipeline + " /"
  }

  /**
   * The position in `order` of the first pipeline whose marker starts `col`, or `|order|` when
   * there is none.
   */
  function Rank(col: string, order: seq<string>): (r: nat)
    ensures r <= |order|
    ensures r < |order| ==> StartsWith(col, Marker(order[r]))
    ensures forall i :: 0 <= i < r ==> !StartsWith(col, Marker(order[i]))
  {
    if order == [] then 0
    else if StartsWith(col, Marker(order[0])) then 0
    else 1 + Rank(col, order[1..])
  }

  /** No column starts with the markers of two different pipelines. */
  ghost predicate Exclusive(order: seq<string>) {
    forall i, j, col :: 0 <= i < j < |order| && StartsWith(col, Marker(order[i])) ==> !StartsWith(col, Marker(order[j]))
  }

  lemma RankOfMarked(col: string, order: seq<string>, p: nat)
    requires Exclusive(order) && p < |order| && StartsWith(col, Marker(order[p]))
    ensures Rank(col, order) == p
  {
  }

  /** The four pipelines' markers begin with four different letters. */
  lemma PipelineOrderExclusive()
    ensures Exclusive(PipelineOrder)
  {
    forall i, j, col | 0 <= i < j < |PipelineOrder| && StartsWith(col, Marker(PipelineOrder[i]))
      ensures !StartsWith(col, Marker(PipelineOrder[j]))
    {
      var a, b := Marker(PipelineOrder[i]), Marker(PipelineOrder[j]);
      assert a[0] == PipelineOrder[i][0] && b[0] == PipelineOrder[j][0];
      assert PipelineOrder[0][0] == 'o' && PipelineOrder[1][0] == 'c';
      assert PipelineOrder[2][0] == 'd' && PipelineOrder[3][0] == 'm';
      assert col[..|a|][0] == col[0];
    }
  }

  /** `[col for col in columns if col.startswith(marker)]`. */
  function Matching(columns: seq<string>, marker: string): (m: seq<string>)
    ensures forall x :: multiset(m)[x] == if StartsWith(x, marker) then multiset(columns)[x] else 0
  {
    if columns == [] then []
    else
      var last := columns[|columns| - 1];
      assert columns == columns[..|columns| - 1] + [last];
      Matching(columns[..|columns| - 1], marker) + (if StartsWith(last, marker) then [last] else [])
  }

  /** `ordered_cols` after the loop has handled the pipelines `pipelines`. */
  function Grouped(columns: seq<string>, pipelines: seq<string>): seq<string> {
    if pipelines == [] then []
    else
      Grouped(columns, pipelines[..|pipelines| - 1]) +
        SortBy(Matching(columns, Marker(pipelines[|pipelines| - 1])), LexLe)
  }

  /** `[col for col in columns if col not in ordered]`. */
  function Remaining(columns: seq<string>, ordered: seq<string>): (r: seq<string>)
    ensures forall x :: multiset(r)[x] == if x in ordered then 0 else multiset(columns)[x]
  {
    if columns == [] then []
    else
      var last := columns[|columns| - 1];
      assert columns == columns[..|columns| - 1] + [last];
      Remaining(columns[..|columns| - 1], ordered) + (if last in ordered then [] else [last])
  }

  /** The columns as the pivot table is reindexed with them. */
  function Arrange(columns: seq<string>, order: seq<string>): seq<string> {
    var ordered := Grouped(columns, order);
    ordered + Remaining(columns, ordered)
  }

  /**
   * The loop over `pipeline_order` that extends `ordered_cols`, then the remaining columns;
   * the pivot table is reindexed with `order` set to `PipelineOrder`.
   */
  method OrderColumns(columns: seq<string>, order: seq<string>) returns (reordered: seq<string>)
    ensures reordered == Arrange(columns, order)
  {
    var orderedCols: seq<string> := [];
    for p := 0 to |order|
      invariant orderedCols == Grouped(columns, order[..p])
    {
      var pipelineCols := Matching(columns, Marker(order[p]));
      orderedCols := orderedCols + SortBy(pipelineCols, LexLe);
      assert order[..p + 1][..p] == order[..p];
    }
    assert order[..|order|] == order;
    var remainingCols := Remaining(columns, orderedCols);
    reordered := orderedCols + remainingCols;
  }

  lemma LexLeTotalPreorder()
    ensures TotalPreorder(LexLe)
  {
    forall a, b
      ensures LexLe(a, b) || LexLe(b, a)
    {
      LexLeTotal(a, b);
    }
    forall a, b, c | LexLe(a, b) && LexLe(b, c)
      ensures LexLe(a, c)
    {
      LexLeTransitive(a, b, c);
    }
  }

  /** The first `p` groups hold each column whose rank is below `p`, as often as `columns` does. */
  lemma {:induction false} GroupedCount(columns: seq<string>, order: seq<string>, p: nat)
    requires Exclusive(order) && p <= |order|
    ensures forall x :: multiset(Grouped(columns, order[..p]))[x] ==
                          if Rank(x, order) < p then multiset(columns)[x] else 0
  {
    if p > 0 {
      GroupedCount(columns, order, p - 1);
      assert order[..p][..p - 1] == order[..p - 1];
      var m := Matching(columns, Marker(order[p - 1]));
      SortPermutation(m, LexLe);
      forall x
        ensures StartsWith(x, Marker(order[p - 1])) <==> Rank(x, order) == p - 1
      {
        if StartsWith(x, Marker(order[p - 1])) {
          RankOfMarked(x, order, p - 1);
        }
      }
    }
  }

  /** The reordered columns are the original columns, each as often as before. */
  lemma ArrangePermutation(columns: seq<string>, order: seq<string>)
    requires Exclusive(order)
    ensures multiset(Arrange(columns, order)) == multiset(columns)
  {
    GroupedCount(columns, order, |order|);
    assert order[..|order|] == order;
    var g := Grouped(columns, order);
    forall x
      ensures multiset(Arrange(columns, order))[x] == multiset(columns)[x]
    {
      assert x in g <==> multiset(g)[x] > 0;
    }
  }

  /**
   * `cols` is in the order the reindexing aims at: by pipeline in the order of `order`, the
   * columns of one pipeline sorted, and the unmatched columns last.
   */
  predicate InColumnOrder(cols: seq<string>, order: seq<string>) {
    forall i, j :: 0 <= i < j < |cols| ==>
      Rank(cols[i], order) < Rank(cols[j], order) ||
      (Rank(cols[i], order) == Rank(cols[j], order) && (Rank(cols[i], order) < |order| ==> LexLe(cols[i], cols[j])))
  }

  /** Columns of one rank are in column order when, for a pipeline's rank, they are sorted. */
  lemma OneRankInColumnOrder(b: seq<string>, r: nat, order: seq<string>)
    requires forall x :: x in b ==> Rank(x, order) == r
    requires r < |order| ==> Sorted(b, LexLe)
    ensures InColumnOrder(b, order)
  {
    forall i, j | 0 <= i < j < |b|
      ensures Rank(b[i], order) == Rank(b[j], order)
    {
      assert b[i] in b && b[j] in b;
    }
  }

  /** Two runs in column order, the first of lower ranks, are in column order together. */
  lemma ConcatInColumnOrder(a: seq<string>, b: seq<string>, order: seq<string>)
    requires InColumnOrder(a, order) && InColumnOrder(b, order)
    requires forall i, j :: 0 <= i < |a| && 0 <= j < |b| ==> Rank(a[i], order) < Rank(b[j], order)
    ensures InColumnOrder(a + b, order)
  {
    var c := a + b;
    forall i, j | 0 <= i < j < |c|
      ensures Rank(c[i], order) < Rank(c[j], order) ||
              (Rank(c[i], order) == Rank(c[j], order) && (Rank(c[i], order) < |order| ==> LexLe(c[i], c[j])))
    {
      if j < |a| {
        assert c[i] == a[i] && c[j] == a[j];
      } else if i >= |a| {
        assert c[i] == b[i - |a|] && c[j] == b[j - |a|];
      } else {
        assert c[i] == a[i] && c[j] == b[j - |a|];
      }
    }
  }

  lemma {:induction false} GroupedOrder(columns: seq<string>, order: seq<string>, p: nat)
    requires Exclusive(order) && p <= |order|
    ensures var g := Grouped(columns, order[..p]);
            InColumnOrder(g, order) && forall x :: x in g ==> Rank(x, order) < p
  {
    if p > 0 {
      GroupedOrder(columns, order, p - 1);
      assert order[..p][..p - 1] == order[..p - 1];
      var g0 := Grouped(columns, order[..p - 1]);
      var m := Matching(columns, Marker(order[p - 1]));
      var sorted := SortBy(m, LexLe);
      assert Grouped(columns, order[..p]) == g0 + sorted;
      SortPermutation(m, LexLe);
      LexLeTotalPreorder();
      SortSorted(m, LexLe);
      forall x | x in sorted
        ensures Rank(x, order) == p - 1
      {
        assert multiset(sorted)[x] > 0;
        RankOfMarked(x, order, p - 1);
      }
      OneRankInColumnOrder(sorted, p - 1, order);
      forall i, j | 0 <= i < |g0| && 0 <= j < |sorted|
        ensures Rank(g0[i], order) < Rank(sorted[j], order)
      {
        assert g0[i] in g0 && sorted[j] in sorted;
      }
      ConcatInColumnOrder(g0, sorted, order);
    }
  }

  /** The reordered columns come grouped by pipeline in the fixed order, each group sorted, the rest last. */
  lemma ArrangeOrder(columns: seq<string>, order: seq<string>)
    requires Exclusive(order)
    ensures InColumnOrder(Arrange(columns, order), order)
  {
    GroupedOrder(columns, order, |order|);
    GroupedCount(columns, order, |order|);
    assert order[..|order|] == order;
    var g := Grouped(columns, order);
    var r := Remaining(columns, g);
    forall x | x in r
      ensures Rank(x, order) == |order|
    {
      assert multiset(r)[x] > 0;
      assert multiset(g)[x] == 0;
    }
    OneRankInColumnOrder(r, |order|, order);
    forall i, j | 0 <= i < |g| && 0 <= j < |r|
      ensures Rank(g[i], order) < Rank(r[j], order)
    {
      assert g[i] in g && r[j] in r;
    }
    ConcatInColumnOrder(g, r, order);
  }

  /** The columns that match no pipeline, in order. */
  function Unmatched(cols: seq<string>, order: seq<string>): seq<string> {
    if cols == [] then []
    else
      var last := cols[|cols| - 1];
      Unmatched(cols[..|cols| - 1], order) + (if Rank(last, order) == |order| then [last] else [])
  }

  lemma UnmatchedSnoc(s: seq<string>, z: string, order: seq<string>)
    ensures Unmatched(s + [z], order) == Unmatched(s, order) + (if Rank(z, order) == |order| then [z] else [])
  {
    assert (s + [z])[..|s|] == s;
  }

  lemma {:induction false} UnmatchedAppend(a: seq<string>, b: seq<string>, order: seq<string>)
    ensures Unmatched(a + b, order) == Unmatched(a, order) + Unmatched(b, order)
    decreases |b|
  {
    if b == [] {
      assert a + b == a;
    } else {
      var b0, z := b[..|b| - 1], b[|b| - 1];
      var t := if Rank(z, order) == |order| then [z] else [];
      calc {
        Unmatched(a + b, order);
        { assert a + b == (a + b0) + [z]; UnmatchedSnoc(a + b0, z, order); }
        Unmatched(a + b0, order) + t;
        { UnmatchedAppend(a, b0, order); }
        (Unmatched(a, order) + Unmatched(b0, order)) + t;
        Unmatched(a, order) + (Unmatched(b0, order) + t);
        { assert b == b0 + [z]; UnmatchedSnoc(b0, z, order); }
        Unmatched(a, order) + Unmatched(b, order);
      }
    }
  }

  lemma {:induction false} UnmatchedOfMatched(g: seq<string>, order: seq<string>)
    requires forall x :: x in g ==> Rank(x, order) < |order|
    ensures Unmatched(g, order) == []
  {
    if g != [] {
      UnmatchedOfMatched(g[..|g| - 1], order);
    }
  }

  lemma {:induction false} UnmatchedOnly(s: seq<string>, order: seq<string>)
    requires forall x :: x in s ==> Rank(x, order) == |order|
    ensures Unmatched(s, order) == s
  {
    if s != [] {
      var init := s[..|s| - 1];
      assert forall x :: x in init ==> x in s;
      UnmatchedOnly(init, order);
      assert s == init + [s[|s| - 1]];
    }
  }

  lemma {:induction false} RemainingUnmatched(columns: seq<string>, g: seq<string>, order: seq<string>)
    requires forall x :: x in columns ==> (x in g <==> Rank(x, order) < |order|)
    ensures Remaining(columns, g) == Unmatched(columns, order)
  {
    if columns != [] {
      var init, last := columns[..|columns| - 1], columns[|columns| - 1];
      assert forall x :: x in init ==> x in columns;
      RemainingUnmatched(init, g, order);
      assert last in columns;
    }
  }

  /** The columns that match no pipeline keep their relative order, at the end. */
  lemma ArrangeKeepsUnmatched(columns: seq<string>, order: seq<string>)
    requires Exclusive(order)
    ensures Unmatched(Arrange(columns, order), order) == Unmatched(columns, order)
  {
    GroupedCount(columns, order, |order|);
    assert order[..|order|] == order;
    var g := Grouped(columns, order);
    var r := Remaining(columns, g);
    forall x | x in columns
      ensures x in g <==> Rank(x, order) < |order|
    {
      assert multiset(columns)[x] > 0;
      assert x in g <==> multiset(g)[x] > 0;
    }
    forall x | x in g
      ensures Rank(x, order) < |order|
    {
      assert multiset(g)[x] > 0;
    }
    forall x | x in r
      ensures Rank(x, order) == |order|
    {
      assert multiset(r)[x] > 0;
    }
    RemainingUnmatched(columns, g, order);
    UnmatchedOnly(r, order);
    UnmatchedOfMatched(g, order);
    UnmatchedAppend(g, r, order);
  }

  /**
   * The pivot's columns, reordered: a permutation of the original columns, grouped by
   * pipeline in the fixed order with each group sorted, and the unmatched columns last in
   * their original order.
   */
  lemma OrderedColumnsSpec(columns: seq<string>)
    ensures multiset(Arrange(columns, PipelineOrder)) == multiset(columns)
    ensures InColumnOrder(Arrange(columns, PipelineOrder), PipelineOrder)
    ensures Unmatched(Arrange(columns, PipelineOrder), PipelineOrder) == Unmatched(columns, PipelineOrder)
  {
    PipelineOrderExclusive();
    ArrangePermutation(columns, PipelineOrder);
    ArrangeOrder(columns, PipelineOrder);
    ArrangeKeepsUnmatched(columns, PipelineOrder);
  }
}
