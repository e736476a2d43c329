/**
 * `DecomposedAlgorithmicPipeline`: three provider calls per CV, one per hiring criterion,
 * then an average of the three criterion scores in place of a synthesis call.
 */
module Decomposed {
  import opened Strings
  import opened Records
  import opened Extraction
  import opened Steps

  const PipelineName: string := "decomposed_algorithmic"

  /** The keys under which the criterion evaluations are stored, in evaluation order. */
  const CriteriaKeys: seq<string> := ["zero_to_one", "technical_t_shape", "recruitment_mastery"]

  /** The criterion names looked up in the detailed criteria document, paired with `CriteriaKeys`. */
  const CriteriaNames: seq<string> := ["Zero-to-One Operator", "Technical T-Shape", "Recruitment Mastery"]

  // ---------------------------------------------------------------------------------------
  // Rating to score
  // ---------------------------------------------------------------------------------------

  /** The lower-cased, stripped rating contains `word`. */
  predicate Mentions(rating: string, word: string) {
    Contains(Trim(Lower(rating)), word)
  }

  /**
   * `_map_rating_to_score`: the first of "excellent" (4), "good" (3), "weak"/"borderline" (2),
   * "not a fit"/"not fit" (1) that the rating mentions, ignoring case; 2 when it mentions none.
   */
  function MapRatingToScore(rating: string): (score: int)
    ensures 1 <= score <= 4
  {
    var r := Trim(Lower(rating));
    if Contains(r, "excellent") then 4
    else if Contains(r, "good") then 3
    else if Contains(r, "weak") || Contains(r, "borderline") then 2
    else if Contains(r, "not a fit") || Contains(r, "not fit") then 1
    else 2
  }

  /** The score of each case, in the order in which the keywords are tested. */
  lemma ScoreByKeyword(rating: string)
    ensures Mentions(rating, "excellent") ==> MapRatingToScore(rating) == 4
    ensures !Mentions(rating, "excellent") && Mentions(rating, "good") ==> MapRatingToScore(rating) == 3
    ensures (!Mentions(rating, "excellent") && !Mentions(rating, "good")
             && (Mentions(rating, "weak") || Mentions(rating, "borderline")))
            ==> MapRatingToScore(rating) == 2
    ensures (!Mentions(rating, "excellent") && !Mentions(rating, "good")
             && !Mentions(rating, "weak") && !Mentions(rating, "borderline")
             && (Mentions(rating, "not a fit") || Mentions(rating, "not fit")))
            ==> MapRatingToScore(rating) == 1
    ensures (!Mentions(rating, "excellent") && !Mentions(rating, "good")
             && !Mentions(rating, "weak") && !Mentions(rating, "borderline")
             && !Mentions(rating, "not a fit") && !Mentions(rating, "not fit"))
            ==> MapRatingToScore(rating) == 2
  {
  }

  lemma LowerIdempotent(s: string)
    ensures Lower(Lower(s)) == Lower(s)
  {
  }

  /** The score does not depend on the case of the rating. */
  lemma ScoreIgnoresCase(rating: string)
    ensures MapRatingToScore(Lower(rating)) == MapRatingToScore(rating)
  {
    LowerIdempotent(rating);
  }

  /** A string that lacks one of the characters of `p` does not contain `p`. */
  lemma MissingCharacter(s: string, p: string, k: nat)
    requires k < |p| && p[k] !in s
    ensures !Contains(s, p)
  {
    forall i: nat | i + |p| <= |s|
      ensures !OccursAt(s, p, i)
    {
      assert s[i..i + |p|][k] == s[i + k];
      assert s[i + k] in s;
    }
  }

  /** A rating that mentions none of the first three cases scores 1 or 2. */
  lemma ScoreOfLowerCases(rating: string, u: string)
    requires Trim(Lower(rating)) == u
    requires !Contains(u, "excellent") && !Contains(u, "good") && !Contains(u, "weak") && !Contains(u, "borderline")
    ensures MapRatingToScore(rating) == (if Contains(u, "not a fit") || Contains(u, "not fit") then 1 else 2)
  {
  }

  /** Without 'x', 'g', 'w' and 'b' a text mentions none of the first three cases. */
  lemma NoHigherKeyword(u: string)
    requires 'x' !in u && 'g' !in u && 'w' !in u && 'b' !in u
    ensures !Contains(u, "excellent") && !Contains(u, "good") && !Contains(u, "weak") && !Contains(u, "borderline")
  {
    MissingCharacter(u, "excellent", 1);
    MissingCharacter(u, "good", 0);
    MissingCharacter(u, "weak", 0);
    MissingCharacter(u, "borderline", 0);
  }

  /** Without 'e', 'g', 'a' and 'f' a text mentions none of the keywords. */
  lemma NoKeyword(u: string)
    requires 'e' !in u && 'g' !in u && 'a' !in u && 'f' !in u
    ensures !Contains(u, "excellent") && !Contains(u, "good") && !Contains(u, "weak")
    ensures !Contains(u, "borderline") && !Contains(u, "not a fit") && !Contains(u, "not fit")
  {
    MissingCharacter(u, "excellent", 0);
    MissingCharacter(u, "good", 0);
    MissingCharacter(u, "weak", 1);
    MissingCharacter(u, "borderline", 4);
    MissingCharacter(u, "not a fit", 4);
    MissingCharacter(u, "not fit", 4);
  }

  lemma LowerUnknown(rating: string)
    requires rating == "Unknown"
    ensures Lower(rating) == "unknown"
  {
  }

  /** The default rating "Unknown", and the empty rating, both score 2. */
  lemma UnknownScoresTwo(rating: string)
    requires rating == "Unknown" || rating == ""
    ensures MapRatingToScore(rating) == 2
  {
    if rating == "" {
      assert Lower(rating) == "";
      assert Trim(Lower(rating)) == "";
    } else {
      LowerUnknown(rating);
      var u := Lower(rating);
      assert 'e' !in u && 'g' !in u && 'a' !in u && 'f' !in u;
      TrimOfTrimmed(u);
      NoKeyword(u);
      ScoreOfLowerCases(rating, u);
    }
  }

  lemma LowerNotAFit(rating: string)
    requires rating == "Not a Fit"
    ensures Lower(rating) == "not a fit"
  {
  }

  /** "Not a Fit" scores 1: no earlier case catches it. */
  lemma NotAFitScoresOne(rating: string)
    requires rating == "Not a Fit"
    ensures MapRatingToScore(rating) == 1
  {
    LowerNotAFit(rating);
    var u := Lower(rating);
    NotAFitLetters(u);
    TrimOfTrimmed(u);
    NoHigherKeyword(u);
    ScoreOfLowerCases(rating, u);
  }

  /** "not a fit" lacks the letters of the earlier keywords and is already stripped. */
  lemma NotAFitLetters(u: string)
    requires u == "not a fit"
    ensures 'x' !in u && 'g' !in u && 'w' !in u && 'b' !in u
    ensures IsTrimmed(u) && OccursAt(u, "not a fit", 0)
  {
  }

  /** "excellent" is checked first: a rating that mentions it scores 4 whatever else it says. */
  lemma ExcellentWins(other: string)
    ensures MapRatingToScore("Excellent, not " + other) == 4
  {
    var s := "Excellent, not " + other;
    var u := Lower(s);
    assert u[..9] == "excellent";
    TrimStartOfLeading(u);
    assert OccursAt(Trim(u), "excellent", 0);
  }

  /** Stripping a string that starts with a non-space character keeps that start. */
  lemma TrimStartOfLeading(s: string)
    requires |s| >= 9 && !IsSpace(s[0])
    requires s[..9] == "excellent"
    ensures |Trim(s)| >= 9 && Trim(s)[..9] == "excellent"
  {
    assert TrimStart(s) == s;
    TrimEndPrefix(s);
    assert !IsSpace(s[8]);
  }

  // ---------------------------------------------------------------------------------------
  // Aggregation
  // ---------------------------------------------------------------------------------------

  /** One criterion's score and the reasoning line it contributes. */
  datatype Scored = Scored(score: int, line: string)

  /**
   * The body of the loop in `_aggregate_scores` for one key: a missing key reads as `{}`,
   * a value that is not a dictionary scores 2 with "Error in evaluation", and a rating that is
   * not a string has no `.lower()` and raises.
   */
  function CriterionScore(evals: map<string, Json>, key: string): (r: Result<Scored>)
    ensures r.Success? ==> 1 <= r.value.score <= 4
  {
    var data := if key in evals then evals[key] else JObject(map[]);
    if !data.JObject? then Success(Scored(2, key + ": Error in evaluation"))
    else
      match Get(data.fields, "rating", JStr("Unknown"))
      case JStr(rating) => Success(Rated(key, rating))
      case _ => Failure(RatingNotText)
  }

  const RatingNotText: string := "AttributeError: rating has no lower()"

  /** The score of a textual rating and its reasoning line. */
  function Rated(key: string, rating: string): (s: Scored)
    ensures 1 <= s.score <= 4
  {
    var score := MapRatingToScore(rating);
    Scored(score, key + ": " + rating + " (score: " + IntToString(score) + ")")
  }

  /** The three outcomes of scoring one criterion, and the line each contributes. */
  lemma CriterionScoreCases(evals: map<string, Json>, key: string)
    ensures key !in evals ==> CriterionScore(evals, key) == Success(Rated(key, "Unknown"))
    ensures key !in evals ==> CriterionScore(evals, key).value.score == 2
    ensures key in evals && !evals[key].JObject? ==>
              CriterionScore(evals, key) == Success(Scored(2, key + ": Error in evaluation"))
    ensures key in evals && evals[key].JObject? ==>
              var rating := Get(evals[key].fields, "rating", JStr("Unknown"));
              && (CriterionScore(evals, key).Success? <==> rating.JStr?)
              && (rating.JStr? ==>
                    CriterionScore(evals, key).value == Rated(key, rating.s))
  {
    if key !in evals {
      var unknown := "Unknown";
      UnknownScoresTwo(unknown);
      assert Get(map[], "rating", JStr("Unknown")) == JStr(unknown);
    }
  }

  /** Each key's scoring outcome, in order. */
  function Criteria(evals: map<string, Json>, keys: seq<string>): (rs: seq<Result<Scored>>)
    ensures |rs| == |keys| && forall i :: 0 <= i < |keys| ==> rs[i] == CriterionScore(evals, keys[i])
  {
    seq(|keys|, i requires 0 <= i < |keys| => CriterionScore(evals, keys[i]))
  }

  lemma CriteriaPrefix(evals: map<string, Json>, keys: seq<string>, n: nat)
    requires n <= |keys|
    ensures Criteria(evals, keys[..n]) == Criteria(evals, keys)[..n]
  {
  }

  /** The criteria scored in order, stopping at the first that raises. */
  function ScoreAll(evals: map<string, Json>, keys: seq<string>): (r: Result<seq<Scored>>)
    ensures r.Success? ==> |r.value| == |keys|
    ensures r.Success? ==> forall i :: 0 <= i < |r.value| ==> 1 <= r.value[i].score <= 4
  {
    var rs := Criteria(evals, keys);
    CollectPointwise(rs);
    Collect(rs)
  }

  /** Scoring succeeds exactly when every criterion does, and then holds each criterion's score. */
  lemma ScoreAllPointwise(evals: map<string, Json>, keys: seq<string>)
    ensures ScoreAll(evals, keys).Success? <==> forall i :: 0 <= i < |keys| ==> CriterionScore(evals, keys[i]).Success?
    ensures ScoreAll(evals, keys).Success? ==>
              forall i :: 0 <= i < |keys| ==> CriterionScore(evals, keys[i]) == Success(ScoreAll(evals, keys).value[i])
  {
    CollectPointwise(Criteria(evals, keys));
  }

  /** One more key: its score is appended, or its error ends the scoring. */
  lemma ScoreAllStep(evals: map<string, Json>, keys: seq<string>, i: nat)
    requires i < |keys|
    requires ScoreAll(evals, keys[..i]).Success?
    ensures CriterionScore(evals, keys[i]).Success? ==>
              ScoreAll(evals, keys[..i + 1]) == Success(ScoreAll(evals, keys[..i]).value + [CriterionScore(evals, keys[i]).value])
    ensures CriterionScore(evals, keys[i]).Failure? ==>
              ScoreAll(evals, keys[..i + 1]) == Failure(CriterionScore(evals, keys[i]).error)
  {
    CriteriaPrefix(evals, keys, i);
    CriteriaPrefix(evals, keys, i + 1);
    CollectStep(Criteria(evals, keys), i);
  }

  /** Once a prefix of the keys raises, scoring all of them raises the same error. */
  lemma ScoreAllFailurePersists(evals: map<string, Json>, keys: seq<string>, n: nat)
    requires n <= |keys|
    requires ScoreAll(evals, keys[..n]).Failure?
    ensures ScoreAll(evals, keys) == ScoreAll(evals, keys[..n])
  {
    CriteriaPrefix(evals, keys, n);
    CollectFailurePersists(Criteria(evals, keys), n);
  }

  function Scores(ss: seq<Scored>): (xs: seq<int>)
    ensures |xs| == |ss| && forall i :: 0 <= i < |ss| ==> xs[i] == ss[i].score
  {
    seq(|ss|, i requires 0 <= i < |ss| => ss[i].score)
  }

  function Lines(ss: seq<Scored>): (ls: seq<string>)
    ensures |ls| == |ss| && forall i :: 0 <= i < |ss| ==> ls[i] == ss[i].line
  {
    seq(|ss|, i requires 0 <= i < |ss| => ss[i].line)
  }

  lemma ScoresLinesAppend(ss: seq<Scored>, s: Scored)
    ensures Scores(ss + [s]) == Scores(ss) + [s.score]
    ensures Lines(ss + [s]) == Lines(ss) + [s.line]
  {
  }

  /** `sum(xs)` */
  function Sum(xs: seq<int>): int {
    if xs == [] then 0 else Sum(xs[..|xs| - 1]) + xs[|xs| - 1]
  }

  /**
   * `round(n / d)`: the integer nearest to `n / d`, and the even one of the two on a tie
   * (Python rounds halves to even).
   */
  function RoundHalfEven(n: int, d: int): (q: int)
    requires d > 0
    ensures -d <= 2 * (n - q * d) <= d
    ensures 2 * (n - q * d) == d || 2 * (n - q * d) == -d ==> q % 2 == 0
    ensures n >= 0 ==> q >= 0
  {
    var f := n / d;
    var rem := n % d;
    assert n - f * d == rem;
    if 2 * rem < d then f
    else if 2 * rem > d then
      assert n - (f + 1) * d == rem - d;
      f + 1
    else if f % 2 == 0 then f
    else
      assert n - (f + 1) * d == rem - d;
      f + 1
  }

  /** A third of an integer is never half-way between two integers: rounding it is `(n + 1) / 3`. */
  lemma RoundThirds(n: int)
    ensures RoundHalfEven(n, 3) == (n + 1) / 3
  {
    var q := RoundHalfEven(n, 3);
    var r := (n + 1) / 3;
    assert n + 1 == 3 * r + (n + 1) % 3;
    assert -3 <= 2 * (n - q * 3) <= 3;
    assert -1 <= n - 3 * q <= 1;
    assert -1 <= n - 3 * r <= 1;
  }

  /** `max(lo, min(hi, x))` */
  function Clamp(x: int, lo: int, hi: int): (r: int)
    requires lo <= hi
    ensures lo <= r <= hi
    ensures lo <= x <= hi ==> r == x
  {
    if x > hi then (if lo > hi then lo else hi) else if lo > x then lo else x
  }

  /** `f"{n / d:.2f}"` for a non-negative quotient: the hundredths rounded, written with two decimals. */
  function TwoDecimals(n: nat, d: nat): (s: string)
    requires d > 0
    ensures '\n' !in s
  {
    var h: nat := RoundHalfEven(100 * n, d);
    NatToString(h / 100) + "." + [DigitChar(h % 100 / 10), DigitChar(h % 10)]
  }

  /** The first line of the reasoning. */
  function Header(sum: nat, count: nat, ranking: int): (s: string)
    requires count > 0
  {
    HeaderPrefix + TwoDecimals(sum, count) + Arrow + IntToString(ranking)
  }

  const HeaderPrefix: string := "Algorithmic aggregation: " + "Average of criteria scores = "

  const Arrow: string := " \U{2192} "

  lemma PrefixNoBreak()
    ensures '\n' !in HeaderPrefix
  {
    var p, q := "Algorithmic aggregation: ", "Average of criteria scores = ";
    assert '\n' !in p;
    assert '\n' !in q;
  }

  /** The header is a single line. */
  lemma HeaderNoBreak(sum: nat, count: nat, ranking: int)
    requires count > 0
    ensures '\n' !in Header(sum, count, ranking)
  {
    var a, b, c, d := HeaderPrefix, TwoDecimals(sum, count), Arrow, IntToString(ranking);
    PrefixNoBreak();
    assert '\n' !in c;
    assert '\n' !in d;
    assert '\n' !in a + b;
    assert '\n' !in a + b + c;
  }

  lemma HeaderStartsWithPrefix(sum: nat, count: nat, ranking: int)
    requires count > 0
    ensures HeaderPrefix <= Header(sum, count, ranking)
  {
    var a, b, c, d := HeaderPrefix, TwoDecimals(sum, count), Arrow, IntToString(ranking);
    assert a + b + c + d == a + (b + c + d);
  }

  /** Scores between 1 and 4 sum to between one and four times their number. */
  lemma {:induction false} SumBounds(xs: seq<int>)
    requires forall i :: 0 <= i < |xs| ==> 1 <= xs[i] <= 4
    ensures |xs| <= Sum(xs) <= 4 * |xs|
  {
    if xs != [] {
      SumBounds(xs[..|xs| - 1]);
    }
  }

  /** The final ranking and the reasoning that explains it. */
  datatype Aggregation = Aggregation(ranking: int, reasoning: string)

  /** `max(1, min(4, round(sum(scores) / len(scores))))` */
  function FinalRanking(scores: seq<int>): (ranking: int)
    requires |scores| > 0
    ensures 1 <= ranking <= 4
  {
    Clamp(RoundHalfEven(Sum(scores), |scores|), 1, 4)
  }

  /** Three scores between 1 and 4 give the integer nearest to their average. */
  lemma FinalRankingOfThree(a: int, b: int, c: int)
    requires 1 <= a <= 4 && 1 <= b <= 4 && 1 <= c <= 4
    ensures Sum([a, b, c]) == a + b + c
    ensures FinalRanking([a, b, c]) == (a + b + c + 1) / 3
  {
    var xs := [a, b, c];
    assert xs[..2] == [a, b];
    assert xs[..2][..1] == [a];
    assert [a][..0] == [];
    assert Sum([a]) == a;
    assert Sum([a, b]) == a + b;
    assert Sum(xs) == a + b + c;
    RoundThirds(a + b + c);
  }

  /** The reasoning: a header with the average and the ranking, then one line per criterion. */
  function Reasoning(ss: seq<Scored>, ranking: int): string
    requires |ss| > 0
    requires forall i :: 0 <= i < |ss| ==> 1 <= ss[i].score <= 4
  {
    SumBounds(Scores(ss));
    Header(Sum(Scores(ss)), |ss|, ranking) + "\n" + Join(Lines(ss), '\n')
  }

  /**
   * What `_aggregate_scores` computes: the average of the three criterion scores, rounded
   * and clamped to 1..4, and a reasoning made of a header line and one line per criterion.
   */
  function Aggregate(evals: map<string, Json>): (r: Result<Aggregation>)
    ensures r.Success? ==> 1 <= r.value.ranking <= 4
  {
    match ScoreAll(evals, CriteriaKeys)
    case Failure(e) => Failure(e)
    case Success(ss) => Success(Averaged(ss))
  }

  /**
   * The scores averaged, rounded and clamped, with the reasoning; a fixed answer when there
   * are no scores, which cannot happen after scoring the three criteria.
   */
  function Averaged(ss: seq<Scored>): (a: Aggregation)
    requires forall i :: 0 <= i < |ss| ==> 1 <= ss[i].score <= 4
    ensures 1 <= a.ranking <= 4
  {
    if ss == [] then Aggregation(2, "No valid criteria evaluations")
    else
      var ranking := FinalRanking(Scores(ss));
      Aggregation(ranking, Reasoning(ss, ranking))
  }

  /** Aggregation raises exactly when scoring one of the three criteria raises. */
  lemma AggregateFails(evals: map<string, Json>)
    ensures Aggregate(evals).Failure? <==> exists i :: 0 <= i < 3 && CriterionScore(evals, CriteriaKeys[i]).Failure?
  {
    ScoreAllPointwise(evals, CriteriaKeys);
  }

  lemma RankingOfThree(ss: seq<Scored>)
    requires |ss| == 3 && forall i :: 0 <= i < 3 ==> 1 <= ss[i].score <= 4
    ensures Sum(Scores(ss)) == ss[0].score + ss[1].score + ss[2].score
    ensures 3 <= Sum(Scores(ss)) <= 12
    ensures FinalRanking(Scores(ss)) == (Sum(Scores(ss)) + 1) / 3
  {
    assert Scores(ss) == [ss[0].score, ss[1].score, ss[2].score];
    FinalRankingOfThree(ss[0].score, ss[1].score, ss[2].score);
  }

  /** Criteria missing from the evaluations are rated "Unknown", which scores 2. */
  lemma AbsentKeysScoreTwo(evals: map<string, Json>, keys: seq<string>)
    requires forall i :: 0 <= i < |keys| ==> keys[i] !in evals
    ensures ScoreAll(evals, keys).Success?
    ensures forall i :: 0 <= i < |keys| ==> ScoreAll(evals, keys).value[i].score == 2
  {
    forall i | 0 <= i < |keys|
      ensures CriterionScore(evals, keys[i]).Success? && CriterionScore(evals, keys[i]).value.score == 2
    {
      CriterionScoreCases(evals, keys[i]);
    }
    ScoreAllPointwise(evals, keys);
  }

  /**
   * The final ranking is the integer nearest to the average of the three criterion scores,
   * `(sum + 1) / 3`; clamping to 1..4 never changes it.
   */
  lemma AggregateRanking(evals: map<string, Json>)
    requires Aggregate(evals).Success?
    ensures ScoreAll(evals, CriteriaKeys).Success?
    ensures var sum := Sum(Scores(ScoreAll(evals, CriteriaKeys).value));
            var ranking := Aggregate(evals).value.ranking;
            && 3 <= sum <= 12
            && ranking == (sum + 1) / 3
            && -1 <= 3 * ranking - sum <= 1
  {
    AggregateAveraged(evals);
    var ss := ScoreAll(evals, CriteriaKeys).value;
    RankingOfThree(ss);
    NearestThird(Sum(Scores(ss)));
  }

  /** Aggregation scores the three criteria, then averages their scores. */
  lemma AggregateAveraged(evals: map<string, Json>)
    ensures ScoreAll(evals, CriteriaKeys).Failure? ==> Aggregate(evals) == Failure(ScoreAll(evals, CriteriaKeys).error)
    ensures ScoreAll(evals, CriteriaKeys).Success? ==>
              && |ScoreAll(evals, CriteriaKeys).value| == 3
              && Aggregate(evals) == Success(Averaged(ScoreAll(evals, CriteriaKeys).value))
  {
  }

  /** `(s + 1) / 3` is the integer nearest to `s / 3`. */
  lemma NearestThird(s: int)
    ensures -1 <= 3 * ((s + 1) / 3) - s <= 1
  {
  }

  /** With no evaluations at all every criterion reads as "Unknown", and the ranking is 2. */
  lemma NoEvaluationsRankTwo()
    ensures Aggregate(map[]).Success? && Aggregate(map[]).value.ranking == 2
  {
    var evals: map<string, Json> := map[];
    AbsentKeysScoreTwo(evals, CriteriaKeys);
    var ss := ScoreAll(evals, CriteriaKeys).value;
    RankingOfThree(ss);
  }

  lemma KeysNoBreak()
    ensures forall i :: 0 <= i < |CriteriaKeys| ==> '\n' !in CriteriaKeys[i]
  {
    var a, b, c := "zero_to_one", "technical_t_shape", "recruitment_mastery";
    assert '\n' !in a && '\n' !in b && '\n' !in c;
    assert CriteriaKeys == [a, b, c];
  }

  lemma RatedLineNoBreak(key: string, rating: string, score: int)
    requires '\n' !in key && '\n' !in rating
    ensures '\n' !in key + ": " + rating + " (score: " + IntToString(score) + ")"
  {
    var a, b, c := ": ", " (score: ", ")";
    assert '\n' !in a && '\n' !in b && '\n' !in c;
    assert '\n' !in IntToString(score);
  }

  lemma ErrorLineNoBreak(key: string)
    requires '\n' !in key
    ensures '\n' !in key + ": Error in evaluation"
  {
    var a := ": Error in evaluation";
    assert '\n' !in a;
  }

  /** No reasoning line holds a line break when no rating does. */
  lemma LineHasNoBreak(evals: map<string, Json>, key: string)
    requires '\n' !in key
    requires key in evals && evals[key].JObject? && "rating" in evals[key].fields && evals[key].fields["rating"].JStr?
             ==> '\n' !in evals[key].fields["rating"].s
    requires CriterionScore(evals, key).Success?
    ensures '\n' !in CriterionScore(evals, key).value.line
  {
    var unknown := "Unknown";
    UnknownNoBreak(unknown);
    CriterionScoreCases(evals, key);
    if key !in evals {
      RatedNoBreak(key, unknown);
    } else if !evals[key].JObject? {
      ErrorLineNoBreak(key);
    } else {
      RatedNoBreak(key, Get(evals[key].fields, "rating", JStr(unknown)).s);
    }
  }

  lemma UnknownNoBreak(unknown: string)
    requires unknown == "Unknown"
    ensures '\n' !in unknown
  {
  }

  lemma RatedNoBreak(key: string, rating: string)
    requires '\n' !in key && '\n' !in rating
    ensures '\n' !in Rated(key, rating).line
  {
    RatedLineNoBreak(key, rating, MapRatingToScore(rating));
  }

  /**
   * When no rating holds a line break, the reasoning splits into the header and the three
   * criterion lines, in the order of the criteria.
   */
  lemma ReasoningLines(evals: map<string, Json>)
    requires Aggregate(evals).Success?
    requires RatingsOnOneLine(evals)
    ensures forall i :: 0 <= i < 3 ==> CriterionScore(evals, CriteriaKeys[i]).Success?
    ensures var parts := Split(Aggregate(evals).value.reasoning, '\n');
            && |parts| == 4
            && HeaderPrefix <= parts[0]
            && forall i :: 0 <= i < 3 ==> parts[i + 1] == CriterionScore(evals, CriteriaKeys[i]).value.line
  {
    AggregateAveraged(evals);
    var ss := ScoreAll(evals, CriteriaKeys).value;
    assert Aggregate(evals).value.reasoning == Reasoning(ss, FinalRanking(Scores(ss)));
    KeysNoBreak();
    CriterionLines(evals, CriteriaKeys);
    ReasoningSplits(ss, FinalRanking(Scores(ss)));
  }

  /** No rating given as text holds a line break. */
  predicate RatingsOnOneLine(evals: map<string, Json>) {
    forall k :: k in evals && evals[k].JObject? && "rating" in evals[k].fields && evals[k].fields["rating"].JStr?
      ==> '\n' !in evals[k].fields["rating"].s
  }

  /** When scoring succeeds, its lines are the criteria's lines, each on one line. */
  lemma CriterionLines(evals: map<string, Json>, keys: seq<string>)
    requires RatingsOnOneLine(evals)
    requires forall i :: 0 <= i < |keys| ==> '\n' !in keys[i]
    requires ScoreAll(evals, keys).Success?
    ensures forall i :: 0 <= i < |keys| ==> CriterionScore(evals, keys[i]).Success?
    ensures forall i :: 0 <= i < |keys| ==>
              && Lines(ScoreAll(evals, keys).value)[i] == CriterionScore(evals, keys[i]).value.line
              && '\n' !in Lines(ScoreAll(evals, keys).value)[i]
  {
    ScoreAllPointwise(evals, keys);
    forall i | 0 <= i < |keys|
      ensures '\n' !in CriterionScore(evals, keys[i]).value.line
    {
      LineHasNoBreak(evals, keys[i]);
    }
  }

  /** Split on line breaks, the reasoning gives back its header and the criterion lines. */
  lemma ReasoningSplits(ss: seq<Scored>, ranking: int)
    requires |ss| > 0
    requires forall i :: 0 <= i < |ss| ==> 1 <= ss[i].score <= 4
    requires forall i :: 0 <= i < |ss| ==> '\n' !in ss[i].line
    ensures var parts := Split(Reasoning(ss, ranking), '\n');
            && |parts| == |ss| + 1
            && HeaderPrefix <= parts[0]
            && parts[1..] == Lines(ss)
  {
    SumBounds(Scores(ss));
    var header := Header(Sum(Scores(ss)), |ss|, ranking);
    HeaderNoBreak(Sum(Scores(ss)), |ss|, ranking);
    HeaderStartsWithPrefix(Sum(Scores(ss)), |ss|, ranking);
    assert Reasoning(ss, ranking) == header + "\n" + Join(Lines(ss), '\n');
    SplitLines(header, Lines(ss));
  }

  /**
   * The body of the loop in `_aggregate_scores` for one key: the score and the reasoning
   * line, or the error raised by a rating that is not text.
   */
  method ScoreCriterion(evals: map<string, Json>, key: string) returns (r: Result<Scored>)
    ensures r == CriterionScore(evals, key)
  {
    var data := if key in evals then evals[key] else JObject(map[]);
    if !data.JObject? {
      return Success(Scored(2, key + ": Error in evaluation"));
    }
    var rating := Get(data.fields, "rating", JStr("Unknown"));
    if !rating.JStr? {
      return Failure("AttributeError: rating has no lower()");
    }
    var score := MapRatingToScore(rating.s);
    var line := key + ": " + rating.s + " (score: " + IntToString(score) + ")";
    return Success(Scored(score, line));
  }

  /**
   * The loop of `_aggregate_scores`: for each key, appends its score and its reasoning line,
   * or stops at the first rating that raises.
   */
  method ScoreCriteria(evals: map<string, Json>, keys: seq<string>) returns (r: Result<(seq<int>, seq<string>)>)
    ensures ScoreAll(evals, keys).Failure? ==> r == Failure(ScoreAll(evals, keys).error)
    ensures ScoreAll(evals, keys).Success? ==>
              r == Success((Scores(ScoreAll(evals, keys).value), Lines(ScoreAll(evals, keys).value)))
  {
    var scores: seq<int> := [];
    var parts: seq<string> := [];
    for i := 0 to |keys|
      invariant ScoreAll(evals, keys[..i]).Success?
      invariant scores == Scores(ScoreAll(evals, keys[..i]).value)
      invariant parts == Lines(ScoreAll(evals, keys[..i]).value)
    {
      var scored := ScoreCriterion(evals, keys[i]);
      ScoreAllStep(evals, keys, i);
      if scored.Failure? {
        ScoreAllFailurePersists(evals, keys, i + 1);
        return Failure(scored.error);
      }
      ScoresLinesAppend(ScoreAll(evals, keys[..i]).value, scored.value);
      scores := scores + [scored.value.score];
      parts := parts + [scored.value.line];
    }
    assert keys[..|keys|] == keys;
    r := Success((scores, parts));
  }

  /**
   * `_aggregate_scores`: scores the three criteria, then averages, rounds and clamps, and
   * writes the reasoning.
   */
  method AggregateScores(evals: map<string, Json>) returns (r: Result<Aggregation>)
    ensures r == Aggregate(evals)
  {
    AggregateAveraged(evals);
    var scoring := ScoreCriteria(evals, CriteriaKeys);
    if scoring.Failure? {
      return Failure(scoring.error);
    }
    var (scores, parts) := scoring.value;
    var aggregation := AverageScores(ScoreAll(evals, CriteriaKeys).value, scores, parts);
    r := Success(aggregation);
  }

  /**
   * The end of `_aggregate_scores`: the fixed answer when there are no scores, else the
   * average rounded and clamped, and the reasoning.
   */
  method AverageScores(ghost ss: seq<Scored>, scores: seq<int>, parts: seq<string>) returns (a: Aggregation)
    requires forall i :: 0 <= i < |ss| ==> 1 <= ss[i].score <= 4
    requires scores == Scores(ss) && parts == Lines(ss)
    ensures a == Averaged(ss)
  {
    if |scores| == 0 {
      return Aggregation(2, "No valid criteria evaluations");
    }
    SumBounds(scores);
    var sum := Sum(scores);
    var finalRanking := RoundHalfEven(sum, |scores|);
    finalRanking := Clamp(finalRanking, 1, 4);
    var reasoning := Header(sum, |scores|, finalRanking) + "\n" + Join(parts, '\n');
    a := Aggregation(finalRanking, reasoning);
  }
}
