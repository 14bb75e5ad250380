/**
 * better_test/utils.py: the dotted label of a test, the triple a test is
 * serialized to for the result queue, the there-and-back weighted
 * partitioner, and the split of a built suite into runnable labels and
 * import failures.
 */
module Utils {
  import opened Types
  import opened Text
  import opened Partition
  import opened Aggregator

  /** A live unittest test object, as far as the runner looks at it. */
  datatype TestCase = TestCase(
    moduleName: string,           // test.__class__.__module__
    className: string,            // test.__class__.__name__
    methodName: Option<string>,   // test._testMethodName; an error holder has none
    id: string,                   // test.id()
    display: string,              // str(test)
    description: Option<string>,  // test.shortDescription()
    callError: Option<string>)    // what calling the test method directly raises, if anything

  /** `test_to_dotted`: `module.Class.method`. */
  function TestToDotted(test: TestCase): (dotted: string)
    requires test.methodName.Some?
    ensures |dotted| == |test.moduleName| + |test.className| + |test.methodName.value| + 2
    ensures dotted[..|test.moduleName|] == test.moduleName && dotted[|test.moduleName|] == '.'
    ensures dotted[|dotted| - |test.methodName.value|..] == test.methodName.value && dotted[|dotted| - |test.methodName.value| - 1] == '.'
  {
    test.moduleName + "." + test.className + "." + test.methodName.value
  }

  /** Reads `module.Class.method` back by splitting at the last two dots. */
  function SplitDotted(dotted: string): Option<(string, string, string)>
  {
    match LastDot(dotted)
    case None => None
    case Some(i) =>
      var head := dotted[..i];
      match LastDot(head)
      case None => None
      case Some(j) => Some((head[..j], head[j + 1..], dotted[i + 1..]))
  }

  /** The dotted label names the test's module, class and method, recoverably. */
  lemma DottedRoundTrip(test: TestCase)
    requires test.methodName.Some?
    requires '.' !in test.className && '.' !in test.methodName.value
    ensures SplitDotted(TestToDotted(test)) == Some((test.moduleName, test.className, test.methodName.value))
  {
    var m, c, f := test.moduleName, test.className, test.methodName.value;
    var head := m + "." + c;
    assert TestToDotted(test) == head + "." + f;
    LastDotOfJoin(head, f);
    assert (head + "." + f)[..|head|] == head;
    assert (head + "." + f)[|head| + 1..] == f;
    LastDotOfJoin(m, c);
    assert head[..|m|] == m && head[|m| + 1..] == c;
  }

  /** The qualified name a test travels under: its dotted label, or `test.id()` for an error holder. */
  function QualName(test: TestCase): string
  {
    if test.methodName.Some? then TestToDotted(test) else test.id
  }

  /** `serialize(test)`: `(qualname, str(test), test.shortDescription())`. */
  function Serialize(test: TestCase): (data: Value)
    ensures data.Triple? && data.qualname == QualName(test)
    ensures Deserialize(data) == Ok(StandIn(test))
  {
    Triple(QualName(test), test.display, test.description)
  }

  /** The FakeTest the aggregator rebuilds for a test. */
  function StandIn(test: TestCase): FakeTest
  {
    FakeTest(QualName(test), test.display, test.description)
  }

  /** Deserializing a serialized test answers qualname, `str` and shortDescription as the live test did. */
  lemma SerializeRoundTrip(test: TestCase)
    ensures Deserialize(Serialize(test)) == Ok(StandIn(test))
    ensures StandIn(test).qualname == (if test.methodName.Some? then TestToDotted(test) else test.id)
    ensures StandIn(test).Display() == test.display
    ensures StandIn(test).ShortDescription() == test.description
  {
  }

  /**
   * `simple_weighted_partition`: the `(weight, label)` pairs in descending
   * order, dealt into `partitions` lists along the there-and-back cursor
   * `0, 1, ..., n-1, n-1, ..., 1, 0, 0, 1, ...`. With no partitions and some
   * data the cursor is exhausted at once (StopIteration), hence the requires.
   */
  method SimpleWeightedPartition(weightedData: seq<WeightedLabel>, partitions: nat) returns (results: seq<seq<string>>)
    requires partitions > 0 || weightedData == []
    ensures results == Deal(ThereAndBack, partitions, Labels(SortDescending(weightedData)))
    ensures |results| == partitions
    ensures multiset(Flatten(results)) == multiset(Labels(weightedData))
    ensures forall b1, b2 :: 0 <= b1 < partitions && 0 <= b2 < partitions ==> |results[b1]| <= |results[b2]| + 1
    ensures forall b :: 0 <= b < partitions ==> (results[b] != [] <==> b < |weightedData|)
  {
    results := seq(partitions, _ => []);
    var sortedData := SortDescending(weightedData);
    ghost var labels := Labels(sortedData);
    var order := CycleOrder(ThereAndBack, partitions);
    var pos := 0;
    for k := 0 to |sortedData|
      invariant partitions > 0 ==> pos == k % |order|
      invariant results == Deal(ThereAndBack, partitions, labels[..k])
    {
      CycleOrderIsSlot(ThereAndBack, partitions, k);
      DealStep(ThereAndBack, partitions, labels, k);
      var index := order[pos];
      DivModStep(k, |order|);
      pos := if pos + 1 == |order| then 0 else pos + 1;
      results := results[index := results[index] + [sortedData[k].value]];
    }
    assert labels[..|sortedData|] == labels;
    PartitionFacts(ThereAndBack, partitions, weightedData);
  }

  /**
   * Where the k-th item in descending order lands: in bucket `Slot(k)`, which
   * with `r = k mod 2n` is `r` on the way out and `2n - 1 - r` on the way back,
   * at position `2 * (k div 2n)` on the way out and one past it on the way back.
   */
  lemma ThereAndBackPlacement(data: seq<WeightedLabel>, n: nat, k: nat)
    requires n > 0 && k < |data|
    ensures var b := Slot(ThereAndBack, n, k);
      var i := ClosedCount(ThereAndBack, n, k, b);
      var buckets := Deal(ThereAndBack, n, Labels(SortDescending(data)));
      0 <= i < |buckets[b]| && buckets[b][i] == SortDescending(data)[k].value
    ensures ClosedCount(ThereAndBack, n, k, Slot(ThereAndBack, n, k)) == 2 * (k / (2 * n)) + (if k % (2 * n) < n then 0 else 1)
  {
    Placement(ThereAndBack, n, data, k);
    ThereAndBackCount(n, k);
  }

  /** suite_to_labels treats a test as a failed import by its class name and module. */
  predicate IsImportFailure(test: TestCase)
  {
    test.className == "ModuleImportFailure" && test.moduleName == "unittest.loader"
  }

  /** A test suite_to_labels can handle: import failures always; other tests need a method name. */
  predicate Labellable(test: TestCase)
  {
    IsImportFailure(test) || test.methodName.Some?
  }

  /** The index of the first test suite_to_labels cannot handle, or the suite's length when there is none. */
  function FirstUnlabellable(suite: seq<TestCase>): (k: nat)
    ensures k <= |suite|
    ensures forall i :: 0 <= i < k ==> Labellable(suite[i])
    ensures k < |suite| ==> !Labellable(suite[k])
  {
    if suite == [] then 0
    else if !Labellable(suite[0]) then 0
    else FirstUnlabellable(suite[1..]) + 1
  }

  /** The labels suite_to_labels returns for a suite of handleable tests. */
  function SuiteLabels(suite: seq<TestCase>): seq<string>
    requires forall i :: 0 <= i < |suite| ==> Labellable(suite[i])
  {
    if suite == [] then []
    else
      var last := suite[|suite| - 1];
      assert Labellable(last);
      SuiteLabels(suite[..|suite| - 1]) + (if IsImportFailure(last) then [] else [TestToDotted(last)])
  }

  /** The record an import failure is reported under: qualname `module.Class`. */
  function ImportFailureIdentity(test: TestCase): FakeTest
  {
    FakeTest(test.moduleName + "." + test.className, test.display, test.description)
  }

  /**
   * What calling an import failure's test method raises, if anything; looking
   * up a missing method name raises AttributeError inside the same `try`.
   */
  function ImportFailureRaises(test: TestCase): Option<Value>
  {
    if test.methodName.None? then Some(Str("AttributeError: _testMethodName"))
    else if test.callError.Some? then Some(Str(test.callError.value))
    else None
  }

  /** The errors suite_to_labels reports: one per import failure whose method raises. */
  function ImportErrors(suite: seq<TestCase>): seq<(FakeTest, Value)>
  {
    if suite == [] then []
    else
      var last := suite[|suite| - 1];
      ImportErrors(suite[..|suite| - 1])
        + (if IsImportFailure(last) && ImportFailureRaises(last).Some?
           then [(ImportFailureIdentity(last), ImportFailureRaises(last).value)]
           else [])
  }

  /** Number of import failures in a suite. */
  function ImportFailureCount(suite: seq<TestCase>): nat
  {
    if suite == [] then 0
    else ImportFailureCount(suite[..|suite| - 1]) + (if IsImportFailure(suite[|suite| - 1]) then 1 else 0)
  }

  /**
   * Every test yields its label, except import failures, which yield at most
   * one reported error each and never a label.
   */
  lemma {:induction false} SuiteSplitCounts(suite: seq<TestCase>)
    requires forall i :: 0 <= i < |suite| ==> Labellable(suite[i])
    ensures |SuiteLabels(suite)| + ImportFailureCount(suite) == |suite|
    ensures |ImportErrors(suite)| <= ImportFailureCount(suite)
    decreases |suite|
  {
    if suite != [] {
      SuiteSplitCounts(suite[..|suite| - 1]);
    }
  }

  /**
   * `suite_to_labels(suite, result)`: the dotted label of every test, in
   * order, except import failures, whose test method is called and whose
   * exception is reported through `result.addError`. An ordinary test without
   * a method name makes `test_to_dotted` raise AttributeError, after the
   * errors of the tests before it have been reported.
   */
  method SuiteToLabels(suite: seq<TestCase>, result: TextResult) returns (labels: seq<string>, raised: Option<Error>)
    modifies result
    ensures raised.None? <==> forall i :: 0 <= i < |suite| ==> Labellable(suite[i])
    ensures raised.Some? ==> raised.value == AttributeError("_testMethodName")
    ensures raised.None? ==> labels == SuiteLabels(suite)
    ensures raised.None? ==> result.State() == old(result.State()).(errors := old(result.State()).errors + ImportErrors(suite))
    ensures raised.Some? ==> result.State() == old(result.State()).(errors := old(result.State()).errors + ImportErrors(suite[..FirstUnlabellable(suite)]))
  {
    labels := [];
    for k := 0 to |suite|
      invariant forall i :: 0 <= i < k ==> Labellable(suite[i])
      invariant labels == SuiteLabels(suite[..k])
      invariant result.State() == old(result.State()).(errors := old(result.State()).errors + ImportErrors(suite[..k]))
    {
      var test := suite[k];
      assert suite[..k + 1][..k] == suite[..k];
      if IsImportFailure(test) {
        var err := ImportFailureRaises(test);
        if err.Some? {
          result.AddError(ImportFailureIdentity(test), err.value);
        }
      } else if test.methodName.None? {
        assert FirstUnlabellable(suite) == k;
        return labels, Some(AttributeError("_testMethodName"));
      } else {
        labels := labels + [TestToDotted(test)];
      }
    }
    assert suite[..|suite|] == suite;
    return labels, None;
  }
}
