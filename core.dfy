/**
 * better_test/core.py: the summary record a run returns, with its
 * `success`, `total_results` and `total_failures` properties, and the choice
 * of chunks for each run mode. The process pool that runs the chunks is not
 * part of this model.
 */
module Core {
  import opened Types
  import opened Text
  import opened Partition
  import opened Aggregator

  const STANDARD := 0
  const ISOLATED := 1
  const PARALLEL := 2

  /**
   * The `Result` a run returns. Failed executors come from the process pool,
   * whose records are kept here as opaque values; the time taken is left out.
   */
  datatype RunResult = RunResult(
    testsRun: nat,
    timings: map<string, Value>,
    failures: seq<(FakeTest, Value)>,
    errors: seq<(FakeTest, Value)>,
    skipped: seq<(FakeTest, Value)>,
    expectedFailures: seq<(FakeTest, Value)>,
    unexpectedSuccesses: seq<FakeTest>,
    failedExecutors: seq<Value>,
    successes: seq<FakeTest>,
    testLabels: seq<string>)
  {
    /** `total_results`: every recorded outcome, crashed executors included. */
    function TotalResults(): (total: nat)
      ensures total == 0 <==> (failures == [] && errors == [] && skipped == [] && expectedFailures == []
        && unexpectedSuccesses == [] && failedExecutors == [] && successes == [])
      ensures total >= |failedExecutors| + |successes|
    {
      |failures| + |errors| + |skipped| + |expectedFailures| + |unexpectedSuccesses| + |failedExecutors| + |successes|
    }

    /** `total_failures`: counts expected failures too, although `success` ignores them. */
    function TotalFailures(): (total: nat)
      ensures total <= TotalResults()
      ensures total >= |expectedFailures| + |failedExecutors|
      ensures total == 0 <==> failures == [] && errors == [] && unexpectedSuccesses == [] && expectedFailures == [] && failedExecutors == []
    {
      |failures| + |errors| + |unexpectedSuccesses| + |expectedFailures| + |failedExecutors|
    }

    /** `success`: no unexpected success, failure, error or crashed executor. */
    predicate Success(): (ok: bool)
      ensures ok <==> TotalFailures() == |expectedFailures|
      ensures failedExecutors != [] ==> !ok
      ensures ok ==> TotalResults() == |skipped| + |expectedFailures| + |successes|
    {
      unexpectedSuccesses == [] && failures == [] && errors == [] && failedExecutors == []
    }
  }

  /**
   * How the three properties relate: every result is either a failure in the
   * sense of `total_failures`, a skip or a success; a run succeeds exactly
   * when the only failures it counts are expected ones; and a single crashed
   * executor, or any failure, error or unexpected success, makes it fail.
   */
  lemma ResultProperties(r: RunResult)
    ensures r.TotalResults() == r.TotalFailures() + |r.skipped| + |r.successes|
    ensures r.Success() <==> r.TotalFailures() == |r.expectedFailures|
    ensures r.TotalFailures() == 0 ==> r.Success()
    ensures r.failedExecutors != [] ==> !r.Success() && r.TotalFailures() > 0
  {
  }

  /** The `Result(...)` built once the pool is done, from the aggregator's lists. */
  function Summarize(tally: Tally, failedExecutors: seq<Value>, labels: seq<string>): (r: RunResult)
    ensures r.testsRun == tally.TestsRun() && r.testLabels == labels
    ensures r.TotalResults() == tally.TestsRun() + |failedExecutors|
    ensures r.Success() <==> tally.unexpectedSuccesses == [] && tally.failures == [] && tally.errors == [] && failedExecutors == []
    ensures r.successes == tally.successes && r.timings == tally.timings
  {
    RunResult(tally.TestsRun(), tally.timings, tally.failures, tally.errors, tally.skipped,
      tally.expectedFailures, tally.unexpectedSuccesses, failedExecutors, tally.successes, labels)
  }

  /** `(config.timings.get(label, 0), label)` for every label, in order. */
  function Weighted(labels: seq<string>, timings: map<string, int>): (weighted: seq<WeightedLabel>)
    ensures |weighted| == |labels|
    ensures Labels(weighted) == labels
    ensures forall i :: 0 <= i < |labels| ==> weighted[i].weight == (if labels[i] in timings then timings[labels[i]] else 0)
  {
    seq(|labels|, i requires 0 <= i < |labels| => WeightedLabel(if labels[i] in timings then timings[labels[i]] else 0, labels[i]))
  }

  function Min(a: nat, b: nat): nat
  {
    if a <= b then a else b
  }

  /**
   * The chunks `run` hands to the pool for `config.mode`. In PARALLEL mode
   * with no processes the partition's cursor is empty and raises
   * StopIteration as soon as there is a label to place.
   */
  function SelectChunks(mode: int, labels: seq<string>, timings: map<string, int>, processes: nat): (r: Result<seq<seq<string>>>)
    ensures r.Err? <==> (mode !in {STANDARD, ISOLATED, PARALLEL} || (mode == PARALLEL && processes == 0 && labels != []))
    ensures mode !in {STANDARD, ISOLATED, PARALLEL} ==> r == Err(ValueError("Unknown mode: " + IntToString(mode)))
    ensures mode == PARALLEL && processes == 0 && labels != [] ==> r == Err(StopIteration)
  {
    if mode == ISOLATED then
      Ok(seq(|labels|, i requires 0 <= i < |labels| => [labels[i]]))
    else if mode == PARALLEL then
      if processes == 0 && labels != [] then Err(StopIteration)
      else Ok(NonEmpty(Deal(ThereAndBack, processes, Labels(SortDescending(Weighted(labels, timings))))))
    else if mode == STANDARD then
      Ok([labels])
    else
      Err(ValueError("Unknown mode: " + IntToString(mode)))
  }

  /** ISOLATED: one singleton chunk per label, in label order. */
  lemma IsolatedChunks(labels: seq<string>, timings: map<string, int>, processes: nat)
    ensures var r := SelectChunks(ISOLATED, labels, timings, processes);
      r.Ok? && |r.value| == |labels| && forall i :: 0 <= i < |labels| ==> r.value[i] == [labels[i]]
  {
  }

  /** STANDARD: a single chunk holding every label. */
  lemma StandardChunks(labels: seq<string>, timings: map<string, int>, processes: nat)
    ensures SelectChunks(STANDARD, labels, timings, processes) == Ok([labels])
  {
  }

  /**
   * PARALLEL: the weighted there-and-back partition into `processes` buckets
   * with the empty ones dropped, which are exactly the buckets past the
   * number of labels; no chunk is empty and each label is in one chunk.
   */
  lemma ParallelChunks(labels: seq<string>, timings: map<string, int>, processes: nat)
    requires processes > 0
    ensures var r := SelectChunks(PARALLEL, labels, timings, processes);
      var buckets := Deal(ThereAndBack, processes, Labels(SortDescending(Weighted(labels, timings))));
      && r.Ok?
      && r.value == buckets[..Min(processes, |labels|)]
      && (forall i :: 0 <= i < |r.value| ==> r.value[i] != [])
      && multiset(Flatten(r.value)) == multiset(labels)
  {
    var weighted := Weighted(labels, timings);
    var buckets := Deal(ThereAndBack, processes, Labels(SortDescending(weighted)));
    PartitionFacts(ThereAndBack, processes, weighted);
    NonEmptyOfPrefix(buckets, Min(processes, |labels|));
  }

  /** In every accepted mode the chunks together hold each label exactly as often as the suite does. */
  lemma ChunksCoverLabels(mode: int, labels: seq<string>, timings: map<string, int>, processes: nat)
    requires SelectChunks(mode, labels, timings, processes).Ok?
    ensures multiset(Flatten(SelectChunks(mode, labels, timings, processes).value)) == multiset(labels)
  {
    if mode == ISOLATED {
      FlattenSingletons(labels);
    } else if mode == PARALLEL {
      var weighted := Weighted(labels, timings);
      PartitionFacts(ThereAndBack, processes, weighted);
    } else {
      assert Flatten([labels]) == labels + Flatten([]);
    }
  }
}
