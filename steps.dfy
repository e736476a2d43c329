/**
 * Loops whose steps may raise: an exception in one step ends the loop and propagates, so the
 * loop yields every step's value, or the first error together with the provider calls made
 * up to that point.
 */
module Steps {
  import opened Records

  /**
   * Steps run one after another, each either producing a value or raising: the values in
   * order, or the first step's error, as an exception propagates out of a loop.
   */
  function Collect<T>(rs: seq<Result<T>>): (r: Result<seq<T>>)
    ensures r.Success? ==> |r.value| == |rs|
  {
    if rs == [] then Success([])
    else
      match Collect(rs[..|rs| - 1])
      case Failure(e) => Failure(e)
      case Success(vs) =>
        match rs[|rs| - 1]
        case Failure(e) => Failure(e)
        case Success(v) => Success(vs + [v])
  }

  /** The steps all succeed exactly when their collection does, and it holds their values. */
  lemma {:induction false} CollectPointwise<T>(rs: seq<Result<T>>)
    ensures Collect(rs).Success? <==> forall i :: 0 <= i < |rs| ==> rs[i].Success?
    ensures Collect(rs).Success? ==> forall i :: 0 <= i < |rs| ==> rs[i] == Success(Collect(rs).value[i])
  {
    if rs != [] {
      var init := rs[..|rs| - 1];
      CollectPointwise(init);
      if Collect(init).Failure? {
        var k :| 0 <= k < |init| && init[k].Failure?;
        assert rs[k].Failure?;
      } else if rs[|rs| - 1].Success? {
        var all := Collect(rs).value;
        assert all == Collect(init).value + [rs[|rs| - 1].value];
        forall i | 0 <= i < |rs|
          ensures rs[i] == Success(all[i])
        {
          if i < |init| {
            assert init[i] == rs[i];
          }
        }
      }
    }
  }

  /** One more step: its value is appended, or its error ends the collection. */
  lemma CollectStep<T>(rs: seq<Result<T>>, i: nat)
    requires i < |rs|
    requires Collect(rs[..i]).Success?
    ensures rs[i].Success? ==> Collect(rs[..i + 1]) == Success(Collect(rs[..i]).value + [rs[i].value])
    ensures rs[i].Failure? ==> Collect(rs[..i + 1]) == Failure(rs[i].error)
  {
    assert rs[..i + 1][..i] == rs[..i];
  }

  /** Once a prefix of the steps raises, the whole collection raises the same error. */
  lemma {:induction false} CollectFailurePersists<T>(rs: seq<Result<T>>, n: nat)
    requires n <= |rs|
    requires Collect(rs[..n]).Failure?
    ensures Collect(rs) == Collect(rs[..n])
    decreases |rs| - n
  {
    if n < |rs| {
      assert rs[..n + 1][..n] == rs[..n];
      CollectFailurePersists(rs, n + 1);
    } else {
      assert rs[..n] == rs;
    }
  }

  /** What each step produced. */
  function Outcomes<T>(rs: seq<Run<T>>): (os: seq<Result<T>>)
    ensures |os| == |rs| && forall i :: 0 <= i < |rs| ==> os[i] == rs[i].outcome
  {
    seq(|rs|, i requires 0 <= i < |rs| => rs[i].outcome)
  }

  /** Every step's provider calls, in order. */
  function AllCalls<T>(rs: seq<Run<T>>): seq<Prompt> {
    if rs == [] then [] else AllCalls(rs[..|rs| - 1]) + rs[|rs| - 1].calls
  }

  /** Extending a prefix by one element. */
  lemma PrefixStep<T>(s: seq<T>, i: nat)
    requires i < |s|
    ensures s[..i + 1] == s[..i] + [s[i]]
  {
  }

  /** Steps that each make one call make, together, those calls in order. */
  lemma {:induction false} AllCallsOfSingleCalls<T>(rs: seq<Run<T>>)
    requires forall i :: 0 <= i < |rs| ==> |rs[i].calls| == 1
    ensures |AllCalls(rs)| == |rs|
    ensures forall i :: 0 <= i < |rs| ==> AllCalls(rs)[i] == rs[i].calls[0]
  {
    if rs != [] {
      var init := rs[..|rs| - 1];
      AllCallsOfSingleCalls(init);
      assert forall i :: 0 <= i < |init| ==> init[i] == rs[i];
    }
  }

  /**
   * Steps that also call the provider, run one after another until one raises: the values and
   * the calls of every step, or the first error and the calls up to and including that step.
   */
  function CollectRuns<T>(rs: seq<Run<T>>): (r: Run<seq<T>>)
    ensures r.outcome == Collect(Outcomes(rs))
  {
    if rs == [] then Run(Success([]), [])
    else
      var prev := CollectRuns(rs[..|rs| - 1]);
      assert Outcomes(rs[..|rs| - 1]) == Outcomes(rs)[..|rs| - 1];
      if prev.outcome.Failure? then prev
      else
        var last := rs[|rs| - 1];
        match last.outcome
        case Failure(e) => Run(Failure(e), prev.calls + last.calls)
        case Success(v) => Run(Success(prev.outcome.value + [v]), prev.calls + last.calls)
  }

  /** When every step succeeds, the steps' values are collected after all the steps' calls. */
  lemma {:induction false} CollectRunsSucceedCalls<T>(rs: seq<Run<T>>)
    requires forall i :: 0 <= i < |rs| ==> rs[i].outcome.Success?
    ensures CollectRuns(rs).outcome.Success?
    ensures CollectRuns(rs).calls == AllCalls(rs)
  {
    if rs != [] {
      var init := rs[..|rs| - 1];
      assert forall i :: 0 <= i < |init| ==> init[i] == rs[i];
      CollectRunsSucceedCalls(init);
    }
  }

  /** When step `k` is the first to raise, the result is its error and the calls of steps `0..k`. */
  lemma {:induction false} CollectRunsFailureAt<T>(rs: seq<Run<T>>, k: nat)
    requires k < |rs| && rs[k].outcome.Failure? && forall j :: 0 <= j < k ==> rs[j].outcome.Success?
    ensures CollectRuns(rs) == Run(Failure(rs[k].outcome.error), AllCalls(rs[..k + 1]))
  {
    var prefix := rs[..k];
    assert forall j :: 0 <= j < k ==> prefix[j] == rs[j];
    CollectRunsSucceedCalls(prefix);
    assert rs[..k + 1][..k] == prefix;
    CollectRunsFailurePersists(rs, k + 1);
  }

  /** One more step after steps that all succeeded. */
  lemma CollectRunsStep<T>(rs: seq<Run<T>>, i: nat)
    requires i < |rs|
    requires CollectRuns(rs[..i]).outcome.Success?
    ensures rs[i].outcome.Success? ==>
              CollectRuns(rs[..i + 1])
                == Run(Success(CollectRuns(rs[..i]).outcome.value + [rs[i].outcome.value]), CollectRuns(rs[..i]).calls + rs[i].calls)
    ensures rs[i].outcome.Failure? ==>
              CollectRuns(rs[..i + 1]) == Run(Failure(rs[i].outcome.error), CollectRuns(rs[..i]).calls + rs[i].calls)
  {
    assert rs[..i + 1][..i] == rs[..i];
  }

  /** Once a step raises, the later steps are never run. */
  lemma {:induction false} CollectRunsFailurePersists<T>(rs: seq<Run<T>>, n: nat)
    requires n <= |rs|
    requires CollectRuns(rs[..n]).outcome.Failure?
    ensures CollectRuns(rs) == CollectRuns(rs[..n])
    decreases |rs| - n
  {
    if n < |rs| {
      assert rs[..n + 1][..n] == rs[..n];
      CollectRunsFailurePersists(rs, n + 1);
    } else {
      assert rs[..n] == rs;
    }
  }

  /** A dictionary filled in a loop, `d[keys[i]] = vs[i]` for each `i` in order. */
  function Keyed<V>(keys: seq<string>, vs: seq<V>): (d: map<string, V>)
    requires |keys| == |vs|
    ensures d.Keys == set i | 0 <= i < |keys| :: keys[i]
  {
    if keys == [] then map[]
    else Keyed(keys[..|keys| - 1], vs[..|vs| - 1])[keys[|keys| - 1] := vs[|vs| - 1]]
  }

  /** A key holds the value written at its last occurrence: later writes overwrite earlier ones. */
  lemma {:induction false} KeyedLast<V>(keys: seq<string>, vs: seq<V>, j: nat)
    requires |keys| == |vs| && j < |keys|
    requires forall l :: j < l < |keys| ==> keys[l] != keys[j]
    ensures Keyed(keys, vs)[keys[j]] == vs[j]
  {
    var n := |keys| - 1;
    if j < n {
      KeyedLast(keys[..n], vs[..n], j);
    }
  }

  /** Filling one more entry. */
  lemma KeyedAppend<V>(keys: seq<string>, vs: seq<V>, k: string, v: V)
    requires |keys| == |vs|
    ensures Keyed(keys + [k], vs + [v]) == Keyed(keys, vs)[k := v]
  {
    assert (keys + [k])[..|keys|] == keys;
    assert (vs + [v])[..|vs|] == vs;
  }

  /** Steps that make one call each and all succeed: every step's value and call, in order. */
  lemma {:induction false} CollectRunsAllSucceed<T>(rs: seq<Run<T>>)
    requires forall i :: 0 <= i < |rs| ==> |rs[i].calls| == 1 && rs[i].outcome.Success?
    ensures var r := CollectRuns(rs);
            && r.outcome.Success?
            && |r.outcome.value| == |r.calls| == |rs|
            && forall i :: 0 <= i < |rs| ==> r.outcome.value[i] == rs[i].outcome.value && r.calls[i] == rs[i].calls[0]
  {
    CollectRunsSucceedCalls(rs);
    CollectPointwise(Outcomes(rs));
    AllCallsOfSingleCalls(rs);
  }

  /**
   * Steps that make one call each, where step `k` is the first to fail: they stop there, with
   * its error, after the calls up to and including step `k`.
   */
  lemma {:induction false} CollectRunsFirstFailure<T>(rs: seq<Run<T>>, k: nat)
    requires forall i :: 0 <= i < |rs| ==> |rs[i].calls| == 1
    requires k < |rs| && rs[k].outcome.Failure? && forall j :: 0 <= j < k ==> rs[j].outcome.Success?
    ensures CollectRuns(rs).outcome == Failure(rs[k].outcome.error)
    ensures |CollectRuns(rs).calls| == k + 1
    ensures forall j :: 0 <= j <= k ==> CollectRuns(rs).calls[j] == rs[j].calls[0]
  {
    var prefix := rs[..k + 1];
    CollectRunsFailureAt(rs, k);
    assert forall i :: 0 <= i < |prefix| ==> prefix[i] == rs[i];
    AllCallsOfSingleCalls(prefix);
  }

  /** Some step fails: then one of them is the first to fail. */
  lemma {:induction false} FirstFailing<T>(rs: seq<Run<T>>) returns (k: nat)
    requires exists i :: 0 <= i < |rs| && rs[i].outcome.Failure?
    ensures k < |rs| && rs[k].outcome.Failure? && forall j :: 0 <= j < k ==> rs[j].outcome.Success?
  {
    if rs[0].outcome.Failure? {
      k := 0;
    } else {
      var i :| 0 <= i < |rs| && rs[i].outcome.Failure?;
      assert rs[1..][i - 1] == rs[i];
      var k' := FirstFailing(rs[1..]);
      k := k' + 1;
      assert forall j :: 1 <= j < k ==> rs[j] == rs[1..][j - 1];
    }
  }

  /** The steps' values stored under their keys, or the first step's error, with the calls made. */
  function KeyedCollect<T>(rs: seq<Run<T>>, keys: seq<string>): (r: Run<map<string, T>>)
    requires |keys| == |rs|
    ensures r.calls == CollectRuns(rs).calls
    ensures r.outcome.Success? <==> CollectRuns(rs).outcome.Success?
  {
    var c := CollectRuns(rs);
    Run(if c.outcome.Success? then Success(Keyed(keys, c.outcome.value)) else Failure(c.outcome.error), c.calls)
  }

  /**
   * One more step after steps that all succeeded: its value is stored under its key, or its
   * failure ends all the steps.
   */
  lemma KeyedCollectStep<T>(rs: seq<Run<T>>, keys: seq<string>, i: nat)
    requires |keys| == |rs| && i < |rs|
    requires KeyedCollect(rs[..i], keys[..i]).outcome.Success?
    ensures var prev := KeyedCollect(rs[..i], keys[..i]);
            rs[i].outcome.Success? ==>
              KeyedCollect(rs[..i + 1], keys[..i + 1])
                == Run(Success(prev.outcome.value[keys[i] := rs[i].outcome.value]), prev.calls + rs[i].calls)
    ensures var prev := KeyedCollect(rs[..i], keys[..i]);
            rs[i].outcome.Failure? ==>
              KeyedCollect(rs, keys) == Run(Failure(rs[i].outcome.error), prev.calls + rs[i].calls)
  {
    var prev := CollectRuns(rs[..i]);
    if rs[i].outcome.Success? {
      assert CollectRuns(rs[..i + 1]) == Run(Success(prev.outcome.value + [rs[i].outcome.value]), prev.calls + rs[i].calls) by {
        CollectRunsStep(rs, i);
      }
      assert keys[..i + 1] == keys[..i] + [keys[i]] by {
        PrefixStep(keys, i);
      }
      KeyedAppend(keys[..i], prev.outcome.value, keys[i], rs[i].outcome.value);
    } else {
      assert CollectRuns(rs[..i + 1]) == Run(Failure(rs[i].outcome.error), prev.calls + rs[i].calls) by {
        CollectRunsStep(rs, i);
      }
      CollectRunsFailurePersists(rs, i + 1);
    }
  }

  /**
   * Steps that make one call each, their values stored under distinct keys: all succeed
   * exactly when every step does, and then every key holds its step's value after every
   * step's call in order; otherwise the calls stop at the first failing step, whose error is
   * the result's.
   */
  lemma {:induction false} KeyedRuns<T>(rs: seq<Run<T>>, keys: seq<string>)
    requires |keys| == |rs|
    requires forall i :: 0 <= i < |rs| ==> |rs[i].calls| == 1
    requires forall i, j :: 0 <= i < j < |keys| ==> keys[i] != keys[j]
    ensures var r := KeyedCollect(rs, keys);
            && (r.outcome.Success? <==> forall i :: 0 <= i < |rs| ==> rs[i].outcome.Success?)
            && (r.outcome.Success? ==>
                  && |r.calls| == |rs|
                  && (forall k :: k in r.outcome.value ==> k in keys)
                  && forall i :: 0 <= i < |rs| ==> keys[i] in r.outcome.value && r.outcome.value[keys[i]] == rs[i].outcome.value)
            && (r.outcome.Failure? ==>
                  && 1 <= |r.calls| <= |rs|
                  && rs[|r.calls| - 1].outcome == Failure(r.outcome.error))
            && forall j :: 0 <= j < |r.calls| ==> r.calls[j] == rs[j].calls[0]
  {
    var r := CollectRuns(rs);
    if forall i :: 0 <= i < |rs| ==> rs[i].outcome.Success? {
      CollectRunsAllSucceed(rs);
      forall i | 0 <= i < |rs|
        ensures Keyed(keys, r.outcome.value)[keys[i]] == rs[i].outcome.value
      {
        KeyedLast(keys, r.outcome.value, i);
      }
    } else {
      var k := FirstFailing(rs);
      CollectRunsFirstFailure(rs, k);
    }
  }

  /** Steps that make three calls each make three calls per step, each step's calls in order after the previous ones. */
  lemma {:induction false} AllCallsOfThreeCalls<T>(rs: seq<Run<T>>)
    requires forall i :: 0 <= i < |rs| ==> |rs[i].calls| == 3
    ensures |AllCalls(rs)| == 3 * |rs|
    ensures forall i :: 0 <= i < |rs| ==> AllCalls(rs)[3 * i..3 * i + 3] == rs[i].calls
  {
    if rs != [] {
      var m := |rs| - 1;
      var init := rs[..m];
      var prev := AllCalls(init);
      AllCallsOfThreeCalls(init);
      assert forall i :: 0 <= i < m ==> init[i] == rs[i];
      assert AllCalls(rs) == prev + rs[m].calls;
      forall i | 0 <= i < |rs|
        ensures AllCalls(rs)[3 * i..3 * i + 3] == rs[i].calls
      {
        if i < m {
          assert (prev + rs[m].calls)[3 * i..3 * i + 3] == prev[3 * i..3 * i + 3];
        } else {
          assert (prev + rs[m].calls)[3 * m..] == rs[m].calls;
        }
      }
    }
  }
}
