# LLM-tests CV screening pipelines in Dafny

This project models the core of LLM-tests, a harness that screens job candidates' CVs
with large language models and compares how different prompting strategies rank them.
The model covers:

- four analysis pipelines:
  - `one_shot`: one call per CV;
  - `chain_of_thought`: one call per CV, whose prompt asks for reasoning steps;
  - `multi_layer`: extraction, evaluation and synthesis calls per CV;
  - `decomposed_algorithmic`: one call per criterion, then arithmetic aggregation into a 1–4 ranking;
- the comparison framework that turns pipeline results into summaries and flat tables;
- the cross-run analysis that de-anonymises CV ids, computes per-CV ranking statistics
  and orders the pivot table's columns.

The language model is an oracle. A `Provider` carries its name, its model and
`generate: Prompt -> LLMResponse`. Every pipeline run returns what it produced and the
prompts it sent, in order. The prompt wording is abstracted: a `Prompt` carries only the
data the pipeline embeds in it. `json.loads` is a parameter, `parse: string -> Result<Json>`.
An exception the source does not catch becomes a `Failure` outcome. Examples are a
non-dictionary `parsed.get`, a non-string rating's `.lower()`, and a non-number `+=`.

Modules, one per file:

| module | role |
|---|---|
| `Strings` | Python's `strip`, `lower`, `find`, `split`, `join`, `replace` and `str(int)` on `seq<char>` |
| `Records` | the shared data: `Result`, `Json`, `LLMResponse`, `Provider`, `RankingResult` and the two shapes of `PipelineResult` |
| `Steps` | loops whose steps may raise: the values of all steps, or the first error and the calls made up to it |
| `Extraction` | the fenced-code-block extraction every pipeline applies before decoding |
| `OneShot`, `ChainOfThought`, `MultiLayer` | the three single-CV pipelines |
| `Decomposed` | scoring and aggregation of the decomposed pipeline |
| `CriteriaSection` | how the decomposed pipeline cuts one criterion's section out of the criteria document |
| `DecomposedPipeline` | the per-criterion calls and the loop over the CVs |
| `Sorting` | a stable sort by key |
| `Comparison` | ranking labels, the rankings listing order, the run summary, the comparison rows |
| `Differences` | the per-CV analysis and the pivot column order |

Methods with loops are proved against the function that specifies them. Examples are
`FindSection`, `ScoreCriteria`, `AggregateScores`, `EvaluateCriteria`, `Analyze`,
`CreateSummary`, `CreateComparisonRows`, `ComparePipelines`, `AnalyzeExperiment` and
`OrderColumns`. The properties are proved about those functions.

## Model

| member | source | states |
|---|---|---|
| Records.UsageJson | src/pipelines/one_shot.py:52-55 | a response's token counters stored in the metadata: `null` exactly when the provider reported none, otherwise an object with the same keys and counts |
| Records.MetadataJson | src/pipelines/one_shot.py:52-55 | provider metadata stored as `response_metadata`: `null` exactly when absent, otherwise the same dictionary |
| Steps.KeyedRuns | src/pipelines/decomposed_algorithmic.py:79-124 | a loop that stores one single-call step's value per distinct key succeeds exactly when every step does; then every key holds its step's value, with one call per step in order; otherwise the calls stop at the first failing step, whose error is the result's |
| Steps.CollectRunsAllSucceed | src/pipelines/decomposed_algorithmic.py:134-155 | when every single-call step succeeds, the loop yields every step's value and call, in order |
| Steps.CollectRunsFirstFailure | src/pipelines/decomposed_algorithmic.py:134-155 | when step k is the first to raise, the loop raises its error after exactly the calls of steps 0..k |
| Steps.CollectPointwise | src/pipelines/decomposed_algorithmic.py:134-155 | a loop of raising steps succeeds exactly when every step succeeds, and then holds every step's value |
| Extraction.BlockInterior | src/pipelines/one_shot.py:37-39 | the text between a fence tag and the next fence, stripped: no fence inside and no whitespace at either end |
| Extraction.ExtractJson | src/pipelines/one_shot.py:35-39 | the text handed to the decoder never contains a fence and has no whitespace at either end |
| Extraction.ExtractJsonIdempotent | src/pipelines/one_shot.py:35-39 | extracting again from extracted text changes nothing |
| Extraction.UnfencedResponse | src/pipelines/one_shot.py:35-39 | a response without any fence is decoded whole, after stripping |
| Extraction.JsonFencedResponse | src/pipelines/one_shot.py:35-37 | a response that is exactly one ```` ```json ```` block is decoded from the block's stripped interior |
| OneShot.Analyze | src/pipelines/one_shot.py:30-56 | exactly one call, with the CV content; the analysis is the decoded object, or `{"raw_response": <response as received>}` when decoding fails; a decoded non-object is rejected; on success the id, pipeline name, provider, model, usage and response metadata are those of the CV and the response |
| ChainOfThought.Analyze | src/pipelines/chain_of_thought.py:45-69 | the same contract as the one-shot pipeline, for the chain-of-thought prompt |
| MultiLayer.SafeGetUsage | src/pipelines/multi_layer.py:116-117 | a counter is the reported value, or 0 when there is no usage or no such counter |
| MultiLayer.SilentResponseAddsNothing | src/pipelines/multi_layer.py:116-134 | a response without usage, or without the counter, adds nothing to the total |
| MultiLayer.SumOfThree | src/pipelines/multi_layer.py:119-135 | the total of a counter over the three responses is the sum of the three safe lookups |
| MultiLayer.TotalUsage | src/pipelines/multi_layer.py:119-135 | `total_usage` has exactly the three counter keys, each summed over extraction, evaluation and synthesis |
| MultiLayer.LayerUsage | src/pipelines/multi_layer.py:145-149 | a layer's usage is always an object: empty when the provider reported none, otherwise the reported counters |
| MultiLayer.Prompts | src/pipelines/multi_layer.py:30-94 | three prompts: the CV content, then the decoded extraction (`{"raw": ...}` on failure), then the CV content with both decoded earlier layers |
| MultiLayer.LayeredAnalysis | src/pipelines/multi_layer.py:108-113 | the analysis has exactly the three layer keys and `final_rating`; `final_rating` is the synthesis's `overall_rating`, or "Unknown" when absent |
| MultiLayer.LayeredMetadata | src/pipelines/multi_layer.py:143-150 | the metadata holds the summed usage and each layer's own usage, under exactly those keys |
| MultiLayer.Analyze | src/pipelines/multi_layer.py:30-151 | the calls are the three prompts in order; the run succeeds exactly when the synthesis decodes to an object or fails to decode; on success it holds the layered analysis and metadata, the CV id, the pipeline name, the provider and the model |
| MultiLayer.FinalRatingAfterSynthesisFailure | src/pipelines/multi_layer.py:96-113 | when the synthesis cannot be decoded, layer 3 is `{"raw_response": <response>}` and `final_rating` is "Unknown" |
| Decomposed.MapRatingToScore | src/pipelines/decomposed_algorithmic.py:13-27 | every rating maps to a score between 1 and 4 |
| Decomposed.ScoreByKeyword | src/pipelines/decomposed_algorithmic.py:15-27 | for every rating, the first keyword group it mentions (lower-cased and stripped) decides the score: "excellent" 4, else "good" 3, else "weak"/"borderline" 2, else "not a fit"/"not fit" 1; none of them gives 2 |
| Decomposed.ScoreIgnoresCase | src/pipelines/decomposed_algorithmic.py:15 | the score does not depend on the rating's case |
| Decomposed.UnknownScoresTwo | src/pipelines/decomposed_algorithmic.py:25-27 | the default rating "Unknown" and the empty rating match no keyword and score 2 |
| Decomposed.NotAFitScoresOne | src/pipelines/decomposed_algorithmic.py:17-24 | "Not a Fit" reaches the last keyword test, since it contains none of the earlier keywords, and scores 1 |
| Decomposed.ExcellentWins | src/pipelines/decomposed_algorithmic.py:17-18 | a rating "Excellent, not ..." scores 4 whatever follows, because "excellent" is tested first |
| Decomposed.CriterionScore | src/pipelines/decomposed_algorithmic.py:36-46 | scoring one criterion never gives a score outside 1..4 |
| Decomposed.CriterionScoreCases | src/pipelines/decomposed_algorithmic.py:36-46 | a missing criterion reads as rating "Unknown" and scores 2; a non-dictionary scores 2 with "Error in evaluation"; otherwise scoring succeeds exactly when the rating (default "Unknown") is a string, and it gives that rating's score and line |
| Decomposed.ScoreAll | src/pipelines/decomposed_algorithmic.py:35-46 | scoring all keys gives one score per key, each between 1 and 4 |
| Decomposed.ScoreAllPointwise | src/pipelines/decomposed_algorithmic.py:35-46 | scoring all keys succeeds exactly when every key's scoring does, and then holds each key's score and line in key order |
| Decomposed.RoundHalfEven | src/pipelines/decomposed_algorithmic.py:53 | `round(n / d)`: at most half a unit from `n / d`, and even on a tie |
| Decomposed.RoundThirds | src/pipelines/decomposed_algorithmic.py:52-53 | rounding a third of an integer never meets a tie: it is `(n + 1) / 3` |
| Decomposed.Clamp | src/pipelines/decomposed_algorithmic.py:56 | the clamped value lies in the range, and a value already in range is unchanged |
| Decomposed.SumBounds | src/pipelines/decomposed_algorithmic.py:52 | scores between 1 and 4 sum to between one and four times their number |
| Decomposed.FinalRanking | src/pipelines/decomposed_algorithmic.py:52-56 | the final ranking is always between 1 and 4 |
| Decomposed.FinalRankingOfThree | src/pipelines/decomposed_algorithmic.py:52-56 | three scores in 1..4 give the integer nearest to their average, `(a + b + c + 1) / 3` |
| Decomposed.HeaderNoBreak | src/pipelines/decomposed_algorithmic.py:59 | the reasoning's first line, with the two-decimal average and the ranking, holds no line break |
| Decomposed.Aggregate | src/pipelines/decomposed_algorithmic.py:29-63 | a successful aggregation has a ranking between 1 and 4 |
| Decomposed.Averaged | src/pipelines/decomposed_algorithmic.py:48-61 | scores between 1 and 4, including none at all, aggregate to a ranking between 1 and 4 |
| Decomposed.AggregateFails | src/pipelines/decomposed_algorithmic.py:35-46 | aggregation raises exactly when scoring one of the three criteria raises |
| Decomposed.AggregateAveraged | src/pipelines/decomposed_algorithmic.py:29-63 | aggregation raises the scoring error, or averages exactly three scored criteria |
| Decomposed.RankingOfThree | src/pipelines/decomposed_algorithmic.py:52-56 | three scored criteria sum to 3..12, and the ranking is `(sum + 1) / 3` |
| Decomposed.AggregateRanking | src/pipelines/decomposed_algorithmic.py:52-56 | a successful aggregation's ranking is the integer nearest to the average of the three scores: three times it lies within 1 of their sum |
| Decomposed.NoEvaluationsRankTwo | src/pipelines/decomposed_algorithmic.py:35-56 | with no evaluations at all, every criterion defaults to "Unknown", and the ranking is 2 |
| Decomposed.LineHasNoBreak | src/pipelines/decomposed_algorithmic.py:42-46 | a criterion's reasoning line holds no line break when its rating holds none |
| Decomposed.CriterionLines | src/pipelines/decomposed_algorithmic.py:35-46 | on success, the reasoning lines are the criteria's own lines, in key order, each on one line |
| Decomposed.ReasoningSplits | src/pipelines/decomposed_algorithmic.py:58-61 | the reasoning splits into the header and the criterion lines |
| Decomposed.ReasoningLines | src/pipelines/decomposed_algorithmic.py:58-61 | when no rating holds a line break, the reasoning has exactly four lines: the header, then the three criteria's lines in criterion order |
| Decomposed.ScoreCriteria | src/pipelines/decomposed_algorithmic.py:32-46 | the loop builds `scores` and `reasoning_parts` from all keys in order, or raises the first scoring error |
| Decomposed.AggregateScores | src/pipelines/decomposed_algorithmic.py:29-63 | `_aggregate_scores` computes `Aggregate` |
| CriteriaSection.NamesExcludesEnds | src/pipelines/decomposed_algorithmic.py:182-184 | no line both opens and closes the criterion's section |
| CriteriaSection.Classify | src/pipelines/decomposed_algorithmic.py:182-184 | a line is classed as naming exactly when it names the criterion under a `#`, and as closing exactly when it is another heading |
| CriteriaSection.ScanSpec | src/pipelines/decomposed_algorithmic.py:181-186 | the scan finds nothing exactly when no line names the criterion; otherwise it finds a section: the last naming line before the first closing heading after it, up to that heading or the end |
| CriteriaSection.SectionUnique | src/pipelines/decomposed_algorithmic.py:181-186 | a document has at most one such section |
| CriteriaSection.BoundsSpec | src/pipelines/decomposed_algorithmic.py:177-190 | the bounds are absent exactly when no line names the criterion; present bounds are the document's unique section |
| CriteriaSection.FindSection | src/pipelines/decomposed_algorithmic.py:177-190 | the scanning loop, with its `break`, computes `Bounds` |
| CriteriaSection.ExtractCriteriaSection | src/pipelines/decomposed_algorithmic.py:175-193 | `_extract_criteria_section` computes `Section` |
| CriteriaSection.NoHeadingWholeDocument | src/pipelines/decomposed_algorithmic.py:188-193 | without a heading naming the criterion, the whole document is returned |
| CriteriaSection.SectionLines | src/pipelines/decomposed_algorithmic.py:188-191 | otherwise the result, split on line breaks, is exactly the section's lines |
| CriteriaSection.HeadingFollowedBySubheading | data/jobAd.py:36-39 | in the shipped criteria document, the heading "#Zero-to-One Operator" is followed at once by "## Excellent:", which closes the section: the section is the heading line alone |
| DecomposedPipeline.DisplayName | src/pipelines/decomposed_algorithmic.py:142-146 | the name is "Unknown" for empty content; otherwise it is stripped, holds no `#`, `_` or line break, and uses only characters of the first line |
| DecomposedPipeline.DisplayNameOfCleanLine | src/pipelines/decomposed_algorithmic.py:142-146 | a first line that is already stripped and holds no `#` or `_` is the name unchanged |
| DecomposedPipeline.DisplayNameKeepsVisible | src/pipelines/decomposed_algorithmic.py:142-146 | every character of the first line other than whitespace, `#` and `_` is kept in the name, as often as in the line and in the same order |
| DecomposedPipeline.DisplayNameIdempotent | src/pipelines/decomposed_algorithmic.py:142-146 | a non-empty display name is its own display name |
| DecomposedPipeline.ErrorEntry | src/pipelines/decomposed_algorithmic.py:119-124 | the fallback entry holds exactly the CV id, the error, the raw response and rating "Unknown" |
| DecomposedPipeline.ParsedEntry | src/pipelines/decomposed_algorithmic.py:113-117 | the parsed entry holds exactly the CV id, the rating (default "Unknown") and the evidence (default "") |
| DecomposedPipeline.CriterionEntry | src/pipelines/decomposed_algorithmic.py:105-124 | an entry is built exactly when decoding fails or decodes an object: the fallback entry or the parsed entry; a decoded non-object raises |
| DecomposedPipeline.EntryScore | src/pipelines/decomposed_algorithmic.py:105-124 | a decoding failure scores 2 as "Unknown"; a decoded textual rating is scored as written; any other decoded rating makes the aggregation raise |
| DecomposedPipeline.CriterionRuns | src/pipelines/decomposed_algorithmic.py:79-103 | one run per criterion, in criterion order |
| DecomposedPipeline.EvaluationsOutcome | src/pipelines/decomposed_algorithmic.py:71-126 | the criteria evaluation succeeds exactly when each criterion's entry is built; otherwise it raises the entry error |
| DecomposedPipeline.EvaluationsEntries | src/pipelines/decomposed_algorithmic.py:71-126 | on success, the evaluations hold exactly the three criterion keys, each with its criterion's entry |
| DecomposedPipeline.EvaluationsCalls | src/pipelines/decomposed_algorithmic.py:79-103 | one call per criterion, in criterion order: all three on success, up to the failing criterion otherwise |
| DecomposedPipeline.EvaluateCriterion | src/pipelines/decomposed_algorithmic.py:81-124 | one iteration of the criteria loop computes `CriterionRun` |
| DecomposedPipeline.EvaluateCriteria | src/pipelines/decomposed_algorithmic.py:65-126 | `_evaluate_criteria` computes `Evaluations` |
| DecomposedPipeline.RankCv | src/pipelines/decomposed_algorithmic.py:134-155 | ranking one CV makes exactly the evaluation calls; on success it keeps the evaluations, and the ranking is in 1..4 with the CV's id and display name |
| DecomposedPipeline.RankedFromScores | src/pipelines/decomposed_algorithmic.py:136-139 | a ranked CV's ranking is the integer nearest to the average of the three scores of its evaluations |
| DecomposedPipeline.RankCandidate | src/pipelines/decomposed_algorithmic.py:134-155 | the loop body computes `RankCv` |
| DecomposedPipeline.AnalysisOf | src/pipelines/decomposed_algorithmic.py:157-162 | the analysis has exactly its four keys, with the CV count and all criteria evaluations |
| DecomposedPipeline.MetadataOf | src/pipelines/decomposed_algorithmic.py:170-172 | the metadata holds only the `usage` note |
| DecomposedPipeline.Analyze | src/pipelines/decomposed_algorithmic.py:128-173 | `analyze` computes `Analysis` |
| DecomposedPipeline.AssembleOutcome | src/pipelines/decomposed_algorithmic.py:134-173 | a result is assembled exactly when every CV's run succeeds; otherwise it carries the first failing run's error |
| DecomposedPipeline.AssembleRankings | src/pipelines/decomposed_algorithmic.py:148-154 | an assembled result has one ranking per run, in order, after all runs' calls in order |
| DecomposedPipeline.AssembleEvaluations | src/pipelines/decomposed_algorithmic.py:155-162 | `criteria_evaluations` is keyed by exactly the CV ids; each id holds the evaluations of the last CV with that id |
| DecomposedPipeline.AnalysisOutcome | src/pipelines/decomposed_algorithmic.py:128-173 | `analyze` returns a result exactly when every CV is ranked |
| DecomposedPipeline.AnalysisRankings | src/pipelines/decomposed_algorithmic.py:128-173 | on success: one ranking per CV in CV order, with its id, display name and a ranking in 1..4; three calls per CV, CV after CV |
| Sorting.SortPermutation | src/comparison.py:68-71 | `sorted` returns exactly the elements it was given |
| Sorting.SortSorted | src/comparison.py:68-71 | `sorted` returns the elements in key order |
| Sorting.SortStable | src/comparison.py:68-71 | elements with equal keys keep their relative order |
| Comparison.RankingLabel | src/comparison.py:80-83 | each of the rankings 4, 3, 2 and 1 has its own label, and every other integer is "Unknown", in both directions |
| Comparison.PrecedesTotalPreorder | src/comparison.py:68-71 | the key `(-ranking, name)` orders every pair of rankings, transitively |
| Comparison.PrecedesTies | src/comparison.py:68-71 | two rankings tie under the key exactly when they have the same ranking and the same name |
| Comparison.ListingOrder | src/comparison.py:68-71 | the rankings file lists exactly the run's rankings, the highest ranking first and, within a ranking, by name |
| Comparison.ListingStable | src/comparison.py:68-71 | rankings with the same ranking and name keep their order |
| Comparison.TokensAdded | src/comparison.py:109-112 | a run adds its `total_tokens` (0 when absent or when the usage is not a dictionary; a bool adds 0 or 1), and a non-number count raises a TypeError |
| Comparison.RunsOf | src/comparison.py:96-98 | the runs of one pipeline are exactly the results with that pipeline name |
| Comparison.PipelinesOutcome | src/comparison.py:96-113 | the grouping loop raises exactly when some run's token count is not a number |
| Comparison.PipelineEntries | src/comparison.py:96-113 | each pipeline seen has an entry, and only those: the number of its runs, the set of their models, the sum of their tokens, and the rankings count of its last run |
| Comparison.SummarySpec | src/comparison.py:85-118 | the summary raises exactly on a non-number token count; otherwise `total_pipeline_runs` is the number of results, with one entry per pipeline name |
| Comparison.CreateSummary | src/comparison.py:85-118 | `_create_summary`'s loop computes `SummaryOf` |
| Comparison.TokenColumn | src/comparison.py:136-145 | a token column is the usage's counter when the usage is a dictionary that holds it, and 0 otherwise |
| Comparison.Rows | src/comparison.py:120-149 | there is one comparison row per ranking of every run |
| Comparison.RowsAt | src/comparison.py:122-147 | ranking j of run i is the row after all rankings of the earlier runs plus j: the rows come run by run, each in ranking order |
| Comparison.CreateComparisonRows | src/comparison.py:120-149 | the nested loops compute `Rows` |
| Comparison.TokensUsedAgrees | src/comparison.py:165 | `compare_pipelines`' `tokens_used` equals the comparison table's `total_tokens` column |
| Comparison.PickedAll | src/comparison.py:155-166 | without a CV id, a run's compared rows are its comparison rows narrowed to the compared columns |
| Comparison.ComparedAll | src/comparison.py:151-168 | without a CV id, `compare_pipelines` gives every comparison row, narrowed, in the same order |
| Comparison.OfCv | src/comparison.py:156 | the rows of one CV are exactly those with its id |
| Comparison.OfCvAppend | src/comparison.py:153-166 | filtering by CV distributes over concatenation |
| Comparison.PickedOfCv | src/comparison.py:155-166 | with a CV id, a run's compared rows are its unfiltered rows of that CV, in order |
| Comparison.ComparedOfCv | src/comparison.py:151-168 | with a CV id, `compare_pipelines` gives exactly the unfiltered rows of that CV, in order |
| Comparison.ComparePipelines | src/comparison.py:151-168 | the nested loops compute `Compared` |
| Comparison.PickRows | src/comparison.py:155-166 | the inner loop computes `Picked` |
| Differences.GetOriginalInfo | analyze_differences.py:18-22 | the mapping's entry for a known id; otherwise the id itself and the name "Unknown" |
| Differences.Unique | analyze_differences.py:49 | the distinct CV ids, each once, exactly those of the table |
| Differences.UniqueFirstOccurrenceOrder | analyze_differences.py:49 | `unique()` lists the CV ids in the order of their first occurrence in the table |
| Differences.CvRows | analyze_differences.py:50 | the rows of a CV are exactly the rows with its id |
| Differences.UniqueRankings | analyze_differences.py:54 | `sorted(set(rankings))` is strictly increasing and holds exactly the rankings received |
| Differences.MinOf | analyze_differences.py:80 | the minimum is a ranking received and at most every ranking |
| Differences.MaxOf | analyze_differences.py:81 | the maximum is a ranking received and at least every ranking |
| Differences.TotalOfDistribution | analyze_differences.py:55 | the `value_counts` over the distinct rankings add up to the count of each ranking |
| Differences.CountSumTotal | analyze_differences.py:53-55 | counting each distinct value of a list once covers the list exactly |
| Differences.Members | analyze_differences.py:59-60 | a group holds exactly the CV's rows with that pipeline or model |
| Differences.MembersCount | analyze_differences.py:59-60 | a group has as many rows as its key occurs in the key column |
| Differences.GroupRankings | analyze_differences.py:58-75 | the grouping loop computes `Groups` |
| Differences.GroupsPartition | analyze_differences.py:58-75 | the groups' ranking lists together have exactly as many entries as the CV has rows |
| Differences.AnalyzeOne | analyze_differences.py:49-99 | the loop body computes `AnalyzeCv` |
| Differences.AnalyzeExperiment | analyze_differences.py:46-99 | the loop over CV ids computes `Analysis` |
| Differences.AnalysisEntries | analyze_differences.py:49-99 | there is exactly one analysis entry per CV id in the table |
| Differences.DistributionTotal | analyze_differences.py:53-55 | `total_evaluations` is the CV's number of rows, and `ranking_distribution` over `unique_rankings` adds up to it |
| Differences.ExtremesOfUnique | analyze_differences.py:80-81 | the smallest and the largest ranking are the first and the last distinct ranking |
| Differences.RankingBounds | analyze_differences.py:80-93 | `unique_rankings` is strictly increasing over exactly the rankings received; `min_ranking` and `max_ranking` are its ends, so `ranking_range` is never negative |
| Differences.BreakdownsPartition | analyze_differences.py:58-75 | the `by_pipeline` lists partition the CV's rankings, and so do the `by_model` lists |
| Differences.AnalysisOriginal | analyze_differences.py:85-87 | the entry names the original CV from the mapping, or "Unknown" for an unmapped id |
| Differences.Rank | analyze_differences.py:182-183 | a column's rank is the first pipeline whose `pipeline + ' /'` prefix it carries, or past the end when there is none |
| Differences.PipelineOrderExclusive | analyze_differences.py:180 | no column carries the prefixes of two of the four pipelines |
| Differences.Matching | analyze_differences.py:183 | the columns kept are exactly those with the prefix, each as often as before |
| Differences.Remaining | analyze_differences.py:187 | the remaining columns are exactly those not already ordered, each as often as before |
| Differences.LexLeTotalPreorder | analyze_differences.py:184 | Python's string order orders every pair of columns, transitively |
| Differences.OrderColumns | analyze_differences.py:180-188 | the column-ordering loop computes `Arrange` |
| Differences.ArrangePermutation | analyze_differences.py:180-188 | the reordered columns are the original columns, each as often as before |
| Differences.ArrangeOrder | analyze_differences.py:180-188 | the reordered columns are grouped by pipeline in the fixed order, each group sorted, with unmatched columns last |
| Differences.ArrangeKeepsUnmatched | analyze_differences.py:186-188 | the columns that match no pipeline keep their relative order |
| Differences.OrderedColumnsSpec | analyze_differences.py:179-188 | with the four pipelines in their fixed order: a permutation, grouped and sorted, with unmatched columns last in their original order |

## Left out

- Network calls, `async`, the provider SDKs, prompt wording, printing, file and CSV I/O, and timestamps. The provider is an oracle from prompt to response; `json.loads` is a parameter.
- Floating point. These parts are left out:
  - the per-CV mean, variance and standard deviation;
  - the `avg_ranking` columns of the breakdowns;
  - the sort of the analysis by variance.

  The decomposed pipeline's `sum / 3` is modelled exactly with integers. Its rounding is Python's round-half-to-even (`RoundHalfEven`).
- Decomposed.TwoDecimals: its contract states only that the text is one line. It computes the `:.2f` digits by rounding the hundredths, but no lemma proves them equal to Python's formatting of the float.
- DecomposedPipeline.DisplayNameIdempotent: it requires a non-empty name, since the empty name maps to "Unknown".
- JSON numbers are integers (`JInt`). A float `overall_rating` that becomes `final_rating`, and float token counts summed into `total_tokens` or copied into the rows and rankings (`src/comparison.py:112`, `139-141`, `165`), cannot be represented. In the summary, where Python would add a float count, the model can only see a non-number, which raises the `TypeError` of `TokensAdded`. The summary also leaves out `experiment_timestamp` and the `providers` and `models` dictionaries, which `src/comparison.py:88-92` creates empty and never fills.
- `str.lower()` is modelled on ASCII letters only. `str.strip()` uses Python's whitespace set.
- Dictionaries are `map`s. Their insertion order is not modelled, and neither is the order of keys in printed or serialised output. The `models` entry of a pipeline summary is kept as the `set` it is built as, before its conversion to a list.
- `cv['id']` on a CV without an id raises `KeyError` in the source. Every `Candidate` here has an id.
- `mapping[...]` on a mapping entry without `original_id` or `original_name` is not modelled. Entries are records with both fields.
- The analysis reads back `comparison.csv`. Its rows are taken to be the comparison rows as written; the CSV round trip, including pandas' type inference, is not modelled.
- The pivot table itself is not modelled. `OrderColumns` takes its columns as given and proves what the reordering does to them.
- `base.py`'s `PipelineResult` has no `rankings` field, although the decomposed pipeline and the comparison framework use one. The model has two record shapes: `SingleCvResult` for the single-CV pipelines and `RunResult` for ranked runs.
- The `"No valid criteria evaluations"` branch of `_aggregate_scores` is modelled in `Averaged`. `AggregateAveraged` shows that it cannot be reached, because scoring always yields three scores.
- These scripts are not part of this model: `run_analysis.py`, `example_usage.py`, `check_models.py`, `check_available_models.py`, `sanitize_cvs.py`, `src/job_data.py` and the provider classes. They only orchestrate, print, call provider APIs or transform files.
- `save_results`, `_save_rankings_file` and `load_results` write and read files; only the order of the rankings listing is modelled (`Listing`).
