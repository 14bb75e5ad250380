/**
 * better_test/management/commands/test.py, the older `test` management
 * command: its own `suite_to_labels`, the equal-size chunking on the CPU
 * count, the event protocol between its workers and its aggregator (with a
 * two-field FakeTest), and the summary line and exit code.
 */
module Command {
  import opened Types
  import opened Text
  import opened Partition
  import opened Aggregator
  import opened Utils

  // ---------------------------------------------------------------------------
  // Labels and chunks
  // ---------------------------------------------------------------------------

  /**
   * `suite_to_labels(suite)`: `module.Class.method` for every test, in order;
   * a test without `_testMethodName` raises AttributeError.
   */
  function LegacySuiteToLabels(suite: seq<TestCase>): (r: Result<seq<string>>)
    ensures r.Ok? <==> forall i :: 0 <= i < |suite| ==> suite[i].methodName.Some?
    ensures r.Err? ==> r.error == AttributeError("_testMethodName")
    ensures r.Ok? ==> |r.value| == |suite| && forall i :: 0 <= i < |suite| ==> r.value[i] == TestToDotted(suite[i])
  {
    if forall i :: 0 <= i < |suite| ==> suite[i].methodName.Some? then
      Ok(seq(|suite|, i requires 0 <= i < |suite| && suite[i].methodName.Some? => TestToDotted(suite[i])))
    else
      Err(AttributeError("_testMethodName"))
  }

  /** Python's `s[lo:hi]` for non-negative bounds: both are clamped to the length. */
  function PySlice<T>(s: seq<T>, lo: nat, hi: nat): (r: seq<T>)
    ensures lo <= hi <= |s| ==> r == s[lo..hi]
    ensures lo <= |s| < hi ==> r == s[lo..]
    ensures lo >= hi || lo >= |s| ==> r == []
  {
    var a := if lo <= |s| then lo else |s|;
    var b := if hi <= |s| then hi else |s|;
    if a <= b then s[a..b] else []
  }

  /** `int(float(len(labels)) / chunk_count)`, raised to 1 when it is 0. */
  function ChunkSize(n: nat, cpuCount: nat): (size: nat)
    requires cpuCount > 0
    ensures size >= 1
  {
    if n / cpuCount == 0 then 1 else n / cpuCount
  }

  /** The i-th index of `range(0, ..., size)`. */
  function Offset(i: nat, size: nat): nat
  {
    i * size
  }

  /** `labels[index:index + size]` for the i-th index. */
  function Piece(labels: seq<string>, size: nat, i: nat): seq<string>
  {
    PySlice(labels, Offset(i, size), Offset(i, size) + size)
  }

  /**
   * The chunks before filtering: `cpuCount - 1` slices of `size` labels
   * starting at `0, size, 2*size, ...`, then everything from
   * `(cpuCount - 1) * size` on.
   */
  function EqualChunks(labels: seq<string>, cpuCount: nat): (chunks: seq<seq<string>>)
    requires cpuCount > 0
    ensures |chunks| == cpuCount
    ensures forall i :: 0 <= i < cpuCount - 1 ==> |chunks[i]| <= ChunkSize(|labels|, cpuCount)
  {
    var size := ChunkSize(|labels|, cpuCount);
    seq(cpuCount - 1, i requires 0 <= i < cpuCount - 1 => Piece(labels, size, i))
      + [PySlice(labels, Offset(cpuCount - 1, size), |labels|)]
  }

  /**
   * The chunks the command sends to the pool, or None when there are no
   * labels and Django's own command runs instead. Isolation gives one label
   * per chunk; otherwise empty chunks are dropped when the size is 1.
   */
  function LegacyChunks(labels: seq<string>, cpuCount: nat, isolate: bool): (r: Option<seq<seq<string>>>)
    requires cpuCount > 0
    ensures r.None? <==> labels == []
    ensures r.Some? && isolate ==> |r.value| == |labels| && forall i :: 0 <= i < |labels| ==> r.value[i] == [labels[i]]
    ensures r.Some? && !isolate && ChunkSize(|labels|, cpuCount) != 1 ==> |r.value| == cpuCount
  {
    if labels == [] then None
    else if isolate then Some(seq(|labels|, i requires 0 <= i < |labels| => [labels[i]]))
    else
      var chunks := EqualChunks(labels, cpuCount);
      Some(if ChunkSize(|labels|, cpuCount) == 1 then NonEmpty(chunks) else chunks)
  }

  lemma OffsetMonotone(a: nat, b: nat, size: nat)
    requires a <= b
    ensures Offset(a, size) <= Offset(b, size)
  {
  }

  lemma OffsetStep(j: nat, size: nat)
    ensures Offset(j + 1, size) == Offset(j, size) + size
  {
  }

  /** Adjacent clamped slices join up. */
  lemma PySliceJoin<T>(s: seq<T>, a: nat, b: nat, c: nat)
    requires a <= b <= c
    ensures PySlice(s, a, b) + PySlice(s, b, c) == PySlice(s, a, c)
  {
    var n := |s|;
    if c <= n {
      assert s[a..b] + s[b..c] == s[a..c];
    } else if b <= n {
      assert s[a..b] + s[b..n] == s[a..n];
    } else if a <= n {
      assert PySlice(s, b, c) == [];
    } else {
      assert PySlice(s, b, c) == [];
    }
  }

  /** The first j fixed-size slices, laid end to end, are the first `j * size` labels (clamped). */
  lemma {:induction false} FlattenSlices(labels: seq<string>, size: nat, j: nat)
    ensures Flatten(seq(j, i requires 0 <= i < j => Piece(labels, size, i))) == PySlice(labels, 0, Offset(j, size))
    decreases j
  {
    var chunks := seq(j, i requires 0 <= i < j => Piece(labels, size, i));
    if j == 0 {
      assert chunks == [];
    } else {
      var front := seq(j - 1, i requires 0 <= i < j - 1 => Piece(labels, size, i));
      var piece := Piece(labels, size, j - 1);
      assert chunks == front + [piece];
      FlattenSlices(labels, size, j - 1);
      FlattenConcat(front, [piece]);
      assert Flatten([piece]) == piece + Flatten([]);
      OffsetStep(j - 1, size);
      PySliceJoin(labels, 0, Offset(j - 1, size), Offset(j, size));
    }
  }

  /** Before filtering there are exactly `cpuCount` chunks, and laid end to end they are the labels in order. */
  lemma EqualChunksShape(labels: seq<string>, cpuCount: nat)
    requires cpuCount > 0
    ensures |EqualChunks(labels, cpuCount)| == cpuCount
    ensures Flatten(EqualChunks(labels, cpuCount)) == labels
  {
    var size := ChunkSize(|labels|, cpuCount);
    var front := seq(cpuCount - 1, i requires 0 <= i < cpuCount - 1 => Piece(labels, size, i));
    var lo := Offset(cpuCount - 1, size);
    var last := PySlice(labels, lo, |labels|);
    assert EqualChunks(labels, cpuCount) == front + [last];
    FlattenSlices(labels, size, cpuCount - 1);
    FlattenConcat(front, [last]);
    assert Flatten([last]) == last + Flatten([]);
    if lo <= |labels| {
      PySliceJoin(labels, 0, lo, |labels|);
      assert PySlice(labels, 0, |labels|) == labels;
    } else {
      assert PySlice(labels, 0, lo) == labels;
    }
  }

  /** `len / cpuCount` is at least 1 exactly when there are at least as many labels as CPUs. */
  lemma QuotientAtLeastOne(n: nat, cpuCount: nat)
    requires cpuCount > 0
    ensures n / cpuCount >= 1 <==> n >= cpuCount
    ensures cpuCount * (n / cpuCount) <= n
  {
    if n < cpuCount {
      DivModUnique(n, cpuCount, 0, n);
    } else {
      DivModUnique(n, cpuCount, (n - cpuCount) / cpuCount + 1, (n - cpuCount) % cpuCount);
    }
  }

  /**
   * With at least as many labels as CPUs, the first `cpuCount - 1` chunks
   * hold exactly `len / cpuCount` labels each and the last one the rest,
   * which is never fewer.
   */
  lemma EqualChunksSizes(labels: seq<string>, cpuCount: nat)
    requires cpuCount > 0 && |labels| >= cpuCount
    ensures ChunkSize(|labels|, cpuCount) == |labels| / cpuCount
    ensures forall i :: 0 <= i < cpuCount - 1 ==> |EqualChunks(labels, cpuCount)[i]| == |labels| / cpuCount
    ensures |EqualChunks(labels, cpuCount)[cpuCount - 1]| == |labels| - Offset(cpuCount - 1, |labels| / cpuCount)
    ensures |labels| - Offset(cpuCount - 1, |labels| / cpuCount) >= |labels| / cpuCount
  {
    var n := |labels|;
    var size := n / cpuCount;
    QuotientAtLeastOne(n, cpuCount);
    var chunks := EqualChunks(labels, cpuCount);
    OffsetStep(cpuCount - 1, size);
    assert Offset(cpuCount, size) == cpuCount * size;
    forall i | 0 <= i < cpuCount - 1
      ensures |chunks[i]| == size
    {
      OffsetMonotone(i + 1, cpuCount - 1, size);
      OffsetStep(i, size);
      assert chunks[i] == Piece(labels, size, i);
    }
  }

  /**
   * Whenever the command runs chunks at all, they are non-empty and, laid end
   * to end, are the labels in order; in isolation each chunk is one label.
   */
  lemma LegacyChunksCover(labels: seq<string>, cpuCount: nat, isolate: bool)
    requires cpuCount > 0
    ensures LegacyChunks(labels, cpuCount, isolate).None? <==> labels == []
    ensures var r := LegacyChunks(labels, cpuCount, isolate);
      r.Some? ==> Flatten(r.value) == labels && forall i :: 0 <= i < |r.value| ==> r.value[i] != []
    ensures isolate && labels != [] ==> LegacyChunks(labels, cpuCount, isolate) == Some(seq(|labels|, i requires 0 <= i < |labels| => [labels[i]]))
  {
    if labels != [] {
      if isolate {
        FlattenSingletons(labels);
      } else {
        var chunks := EqualChunks(labels, cpuCount);
        EqualChunksShape(labels, cpuCount);
        if ChunkSize(|labels|, cpuCount) != 1 {
          QuotientAtLeastOne(|labels|, cpuCount);
          EqualChunksSizes(labels, cpuCount);
          assert forall i :: 0 <= i < |chunks| ==> |chunks[i]| >= 1;
        }
      }
    }
  }

  // ---------------------------------------------------------------------------
  // The worker-to-aggregator protocol of the command
  // ---------------------------------------------------------------------------

  /** The command's FakeTest: only `str(test)` and shortDescription. */
  datatype LegacyTest = LegacyTest(name: string, description: Option<string>)
  {
    function Display(): string
    {
      name
    }

    function ShortDescription(): Option<string>
    {
      description
    }
  }

  /** `(str(test), test.shortDescription())` */
  function LegacySerialize(test: TestCase): (data: Value)
    ensures data.Pair? && LegacyDeserialize(data) == Ok(LegacyStandIn(test))
  {
    Pair(test.display, test.description)
  }

  function LegacyStandIn(test: TestCase): LegacyTest
  {
    LegacyTest(test.display, test.description)
  }

  /**
   * `FakeTest(*test_info)`: a pair fills the two constructor parameters, and
   * so does a two-character string, which unpacks into its characters; any
   * other payload has the wrong length or does not unpack at all.
   */
  function LegacyDeserialize(data: Value): (r: Result<LegacyTest>)
    ensures r.Ok? <==> data.Pair? || (data.Str? && |data.s| == 2)
    ensures data.Pair? ==> r.Ok? && r.value.Display() == data.pairName && r.value.ShortDescription() == data.pairDescription
    ensures r.Err? ==> r.error.TypeError?
  {
    match data
    case Pair(name, description) => Ok(LegacyTest(name, description))
    case Str(s) =>
      if |s| == 2 then Ok(LegacyTest([s[0]], Some([s[1]])))
      else Err(TypeError("__init__() takes 3 positional arguments"))
    case _ => Err(TypeError("__init__() takes 3 positional arguments"))
  }

  /** A string of the right length unpacks into the stand-in, one character per field. */
  lemma LegacyDeserializeUnpacksString(s: string)
    ensures LegacyDeserialize(Str(s)).Ok? <==> |s| == 2
    ensures |s| == 2 ==> (LegacyDeserialize(Str(s)).value.Display() == [s[0]]
      && LegacyDeserialize(Str(s)).value.ShortDescription() == Some([s[1]]))
  {
  }

  /**
   * The worker's events exactly as the command's MultiProcessingTestResult
   * queues them. `addSkip` queues the test alone: its `reason` is dropped.
   * The command's workers report no timings.
   */
  function LegacyEncodeAsWritten(c: Call<TestCase>): (e: Event)
    requires c.IsOutcome()
    ensures e.methodName == c.MethodName() && |e.args| >= 1 && e.args[0] == LegacySerialize(c.test)
  {
    Event(c.MethodName(), [LegacySerialize(c.test)] + (if c.AddSkip? then [] else c.Extras()))
  }

  /** The events as evidently intended: every call keeps its arguments, the skip reason included. */
  function LegacyEncode(c: Call<TestCase>): (e: Event)
    requires c.IsOutcome()
    ensures e.methodName == c.MethodName() && |e.args| >= 1 && e.args[0] == LegacySerialize(c.test) && e.args[1..] == c.Extras()
  {
    Event(c.MethodName(), [LegacySerialize(c.test)] + c.Extras())
  }

  /**
   * The command's `handle`: rebuild the test from the pair and look the
   * method up on the aggregator, a plain TextTestResult, which has no
   * `registerTiming`.
   */
  function LegacyDecode(e: Event): (r: Result<Call<LegacyTest>>)
    ensures e.args == [] ==> r == Err(IndexError)
    ensures r.Ok? <==> (e.args != [] && LegacyDeserialize(e.args[0]).Ok? && e.methodName != "registerTiming"
      && Arity(e.methodName).Some? && |e.args| - 1 == Arity(e.methodName).value)
    ensures r.Ok? ==> (r.value.IsOutcome() && r.value.MethodName() == e.methodName
      && r.value.test == LegacyDeserialize(e.args[0]).value && r.value.Extras() == e.args[1..])
  {
    if e.args == [] then Err(IndexError)
    else
      match LegacyDeserialize(e.args[0])
      case Err(x) => Err(x)
      case Ok(test) =>
        if e.methodName == "registerTiming" then Err(AttributeError(e.methodName))
        else CallNamed(e.methodName, test, e.args[1..])
  }

  /** Every outcome survives the intended encoding and decoding unchanged but for the test stand-in. */
  lemma LegacyRoundTrip(c: Call<TestCase>)
    requires c.IsOutcome()
    ensures LegacyDecode(LegacyEncode(c)) == Ok(c.WithTest(LegacyStandIn(c.test)))
  {
    CallNamedOfCall(c.WithTest(LegacyStandIn(c.test)));
  }

  /** The encoding as written agrees with the intended one on every outcome but a skip. */
  lemma LegacyEncodingsAgree(c: Call<TestCase>)
    requires c.IsOutcome() && !c.AddSkip?
    ensures LegacyEncodeAsWritten(c) == LegacyEncode(c)
  {
  }

  /** A skip as written reaches `addSkip(fake_test)` without its reason, which raises TypeError in the aggregator. */
  lemma LegacySkipLosesReason(test: TestCase, reason: Value)
    ensures LegacyDecode(LegacyEncodeAsWritten(AddSkip(test, reason))).Err?
    ensures LegacyDecode(LegacyEncodeAsWritten(AddSkip(test, reason))).error.TypeError?
  {
    var e := LegacyEncodeAsWritten(AddSkip(test, reason));
    assert e.args == [LegacySerialize(test)];
    assert e.args[1..] == [];
  }

  /** The lists of the command's aggregator; its `addSuccess` only writes to the stream. */
  datatype LegacyTally = LegacyTally(
    errors: seq<(LegacyTest, Value)>,
    failures: seq<(LegacyTest, Value)>,
    skipped: seq<(LegacyTest, Value)>,
    expectedFailures: seq<(LegacyTest, Value)>,
    unexpectedSuccesses: seq<LegacyTest>)

  /** One call on the TextTestResult, whose error text is taken as given. */
  function LegacyApply(s: LegacyTally, c: Call<LegacyTest>): (t: LegacyTally)
    ensures |t.failures| == |s.failures| + (if c.AddFailure? then 1 else 0)
    ensures |t.errors| == |s.errors| + (if c.AddError? then 1 else 0)
  {
    match c
    case AddSuccess(_) => s
    case AddUnexpectedSuccess(test) => s.(unexpectedSuccesses := s.unexpectedSuccesses + [test])
    case AddError(test, err) => s.(errors := s.errors + [(test, err)])
    case AddFailure(test, err) => s.(failures := s.failures + [(test, err)])
    case AddExpectedFailure(test, err) => s.(expectedFailures := s.expectedFailures + [(test, err)])
    case AddSkip(test, reason) => s.(skipped := s.skipped + [(test, reason)])
    case RegisterTiming(_, _) => s
  }

  function LegacyReplay(s: LegacyTally, events: seq<Event>): (r: Result<LegacyTally>)
    ensures (forall i :: 0 <= i < |events| ==> LegacyDecode(events[i]).Ok?) ==> r.Ok?
    ensures r.Ok? ==> |s.failures| <= |r.value.failures| <= |s.failures| + |events|
    ensures r.Ok? ==> |s.errors| <= |r.value.errors| <= |s.errors| + |events|
    decreases |events|
  {
    if events == [] then Ok(s)
    else
      match LegacyDecode(events[0])
      case Err(x) => Err(x)
      case Ok(c) => LegacyReplay(LegacyApply(s, c), events[1..])
  }

  /** Outcome calls only: the command's workers report nothing else. */
  predicate AllOutcomes(cs: seq<Call<TestCase>>)
  {
    forall i :: 0 <= i < |cs| ==> cs[i].IsOutcome()
  }

  function LegacyEncodeAll(cs: seq<Call<TestCase>>): seq<Event>
    requires AllOutcomes(cs)
  {
    if cs == [] then [] else [LegacyEncode(cs[0])] + LegacyEncodeAll(cs[1..])
  }

  /** The events the command's workers queue, as written. */
  function LegacyEncodeAllAsWritten(cs: seq<Call<TestCase>>): (es: seq<Event>)
    requires AllOutcomes(cs)
    ensures |es| == |cs|
    ensures forall i :: 0 <= i < |cs| ==> es[i] == LegacyEncodeAsWritten(cs[i])
  {
    if cs == [] then [] else [LegacyEncodeAsWritten(cs[0])] + LegacyEncodeAllAsWritten(cs[1..])
  }

  /** No call is a skip. */
  predicate NoSkip(cs: seq<Call<TestCase>>)
  {
    forall i :: 0 <= i < |cs| ==> !cs[i].AddSkip?
  }

  /** Without a skip, the events as written are the intended ones. */
  lemma {:induction false} LegacyEncodeAllAgree(cs: seq<Call<TestCase>>)
    requires AllOutcomes(cs) && NoSkip(cs)
    ensures LegacyEncodeAllAsWritten(cs) == LegacyEncodeAll(cs)
    decreases |cs|
  {
    if cs != [] {
      LegacyEncodingsAgree(cs[0]);
      LegacyEncodeAllAgree(cs[1..]);
    }
  }

  /** How many of the calls report a failure or an error. */
  function FailedCount(cs: seq<Call<TestCase>>): nat
  {
    if cs == [] then 0 else (if cs[0].AddFailure? || cs[0].AddError? then 1 else 0) + FailedCount(cs[1..])
  }

  // ---------------------------------------------------------------------------
  // Summary and exit code
  // ---------------------------------------------------------------------------

  /** `wasSuccessful()` of the aggregator, unittest's TestResult: no failure, error or unexpected success. */
  predicate WasSuccessful(failures: nat, errors: nat, unexpectedSuccesses: nat)
  {
    failures == 0 && errors == 0 && unexpectedSuccesses == 0
  }

  /**
   * `return_code = len(failures) + len(errors)`, the argument the command
   * passes to `sys.exit`. The status the parent process sees is `ExitStatus`
   * of it.
   */
  function ReturnCode(failures: nat, errors: nat): (code: nat)
    ensures code == 0 <==> failures == 0 && errors == 0
  {
    failures + errors
  }

  /** The status a POSIX parent sees after `sys.exit(code)`: only the low 8 bits. */
  function ExitStatus(code: nat): (status: nat)
    ensures status < 256
    ensures code < 256 ==> status == code
  {
    code % 256
  }

  /** As written: 256 failures and no error leave the process with status 0, as a successful run does. */
  lemma ExitStatusHidesFailures()
    ensures ReturnCode(256, 0) != 0
    ensures ExitStatus(ReturnCode(256, 0)) == ExitStatus(ReturnCode(0, 0)) == 0
  {
  }

  /**
   * The status evidently intended: the number of failures and errors while it
   * fits in the 8-bit status, 255 beyond that, so that it is 0 exactly when
   * there is no failure and no error.
   */
  function IntendedExitStatus(failures: nat, errors: nat): (status: nat)
    ensures status < 256
    ensures status == 0 <==> failures == 0 && errors == 0
    ensures ReturnCode(failures, errors) < 256 ==> status == ExitStatus(ReturnCode(failures, errors))
  {
    var code := ReturnCode(failures, errors);
    if code < 256 then code else 255
  }

  /**
   * Replaying the workers' events in the intended encoding never raises, and
   * the exit code is the number of failures and errors the workers reported.
   */
  lemma {:induction false} ReturnCodeCountsFailures(s: LegacyTally, cs: seq<Call<TestCase>>)
    requires AllOutcomes(cs)
    ensures LegacyReplay(s, LegacyEncodeAll(cs)).Ok?
    ensures var t := LegacyReplay(s, LegacyEncodeAll(cs)).value;
      ReturnCode(|t.failures|, |t.errors|) == ReturnCode(|s.failures|, |s.errors|) + FailedCount(cs)
    decreases |cs|
  {
    if cs != [] {
      var c := cs[0].WithTest(LegacyStandIn(cs[0].test));
      var next := LegacyApply(s, c);
      var es := LegacyEncodeAll(cs);
      assert es == [LegacyEncode(cs[0])] + LegacyEncodeAll(cs[1..]);
      LegacyRoundTrip(cs[0]);
      assert es[0] == LegacyEncode(cs[0]) && es[1..] == LegacyEncodeAll(cs[1..]);
      assert LegacyReplay(s, es) == LegacyReplay(next, LegacyEncodeAll(cs[1..]));
      ReturnCodeCountsFailures(next, cs[1..]);
    }
  }

  /**
   * The events as the command's workers actually queue them replay without
   * raising, and count every failure and error, as long as no test was
   * skipped; a skip ends the replay with TypeError.
   */
  lemma ReturnCodeCountsFailuresAsWritten(s: LegacyTally, cs: seq<Call<TestCase>>)
    requires AllOutcomes(cs) && NoSkip(cs)
    ensures LegacyReplay(s, LegacyEncodeAllAsWritten(cs)).Ok?
    ensures var t := LegacyReplay(s, LegacyEncodeAllAsWritten(cs)).value;
      ReturnCode(|t.failures|, |t.errors|) == ReturnCode(|s.failures|, |s.errors|) + FailedCount(cs)
  {
    LegacyEncodeAllAgree(cs);
    ReturnCodeCountsFailures(s, cs);
  }

  /** One `"<kind>=<count>"` entry of the summary. */
  datatype Info = Info(kind: string, count: nat)
  {
    function Render(): string
    {
      kind + "=" + Decimal(count)
    }
  }

  /** `[x]` when x has a non-zero count, `[]` otherwise. */
  function Keep(x: Info): (r: seq<Info>)
    ensures |r| <= 1 && (x in r <==> x.count != 0)
    ensures r == [] || r == [x]
  {
    if x.count != 0 then [x] else []
  }

  /**
   * The entries the summary shows, in the order it shows them: each count
   * that is non-zero, failures and errors only when the run is unsuccessful.
   */
  function ExpectedInfos(failures: nat, errors: nat, skipped: nat, expectedFailures: nat, unexpectedSuccesses: nat): seq<Info>
  {
    var failed := !WasSuccessful(failures, errors, unexpectedSuccesses);
    Keep(Info("failures", if failed then failures else 0)) + Keep(Info("errors", if failed then errors else 0))
      + Keep(Info("skipped", skipped)) + Keep(Info("expected failures", expectedFailures))
      + Keep(Info("unexpected successes", unexpectedSuccesses))
  }

  /** `", ".join(...)` over the rendered entries. */
  function RenderAll(infos: seq<Info>): seq<string>
  {
    seq(|infos|, i requires 0 <= i < |infos| => infos[i].Render())
  }

  /** What the stream gets first: `FAILED` for an unsuccessful run, `OK` otherwise. */
  function StatusWord(successful: bool): string
  {
    if successful then "OK" else "FAILED"
  }

  /** The rest of the line: the entries in parentheses, or just the line end when there are none. */
  function InfoSuffix(infos: seq<Info>): string
  {
    if infos == [] then "\n" else " (" + Join(", ", RenderAll(infos)) + ")\n"
  }

  /**
   * The result line after "Ran N tests": FAILED or OK, then the non-empty
   * counts in parentheses, or just the line end when there are none.
   */
  method Summary(failures: nat, errors: nat, skipped: nat, expectedFailures: nat, unexpectedSuccesses: nat)
    returns (line: string, infos: seq<Info>, returnCode: nat)
    ensures infos == ExpectedInfos(failures, errors, skipped, expectedFailures, unexpectedSuccesses)
    ensures line == StatusWord(WasSuccessful(failures, errors, unexpectedSuccesses)) + InfoSuffix(infos)
    ensures returnCode == ReturnCode(failures, errors)
  {
    var failed := !WasSuccessful(failures, errors, unexpectedSuccesses);
    line := StatusWord(!failed);
    ghost var f := Info("failures", if failed then failures else 0);
    ghost var e := Info("errors", if failed then errors else 0);
    infos := [];
    if failed {
      if failures != 0 {
        infos := infos + [Info("failures", failures)];
      }
      if errors != 0 {
        infos := infos + [Info("errors", errors)];
      }
    }
    assert infos == Keep(f) + Keep(e);
    if skipped != 0 {
      infos := infos + [Info("skipped", skipped)];
    }
    assert infos == Keep(f) + Keep(e) + Keep(Info("skipped", skipped));
    if expectedFailures != 0 {
      infos := infos + [Info("expected failures", expectedFailures)];
    }
    assert infos == Keep(f) + Keep(e) + Keep(Info("skipped", skipped)) + Keep(Info("expected failures", expectedFailures));
    if unexpectedSuccesses != 0 {
      infos := infos + [Info("unexpected successes", unexpectedSuccesses)];
    }
    if infos != [] {
      line := line + (" (" + Join(", ", RenderAll(infos)) + ")\n");
    } else {
      line := line + "\n";
    }
    returnCode := failures + errors;
  }

  /**
   * What the summary shows: each count exactly when it is non-zero (failures
   * and errors only on an unsuccessful run), and it says OK exactly when the
   * return code passed to `sys.exit` is 0 and no test unexpectedly succeeded.
   */
  lemma SummaryEntries(failures: nat, errors: nat, skipped: nat, expectedFailures: nat, unexpectedSuccesses: nat)
    ensures var infos := ExpectedInfos(failures, errors, skipped, expectedFailures, unexpectedSuccesses);
      && (Info("failures", failures) in infos <==> failures != 0 && !WasSuccessful(failures, errors, unexpectedSuccesses))
      && (Info("errors", errors) in infos <==> errors != 0 && !WasSuccessful(failures, errors, unexpectedSuccesses))
      && (Info("skipped", skipped) in infos <==> skipped != 0)
      && (Info("expected failures", expectedFailures) in infos <==> expectedFailures != 0)
      && (Info("unexpected successes", unexpectedSuccesses) in infos <==> unexpectedSuccesses != 0)
      && |infos| <= 5
    ensures WasSuccessful(failures, errors, unexpectedSuccesses) <==> ReturnCode(failures, errors) == 0 && unexpectedSuccesses == 0
  {
    var failed := !WasSuccessful(failures, errors, unexpectedSuccesses);
    var f, e := Info("failures", if failed then failures else 0), Info("errors", if failed then errors else 0);
    var sk, ef, us := Info("skipped", skipped), Info("expected failures", expectedFailures), Info("unexpected successes", unexpectedSuccesses);
    var infos := Keep(f) + Keep(e) + Keep(sk) + Keep(ef) + Keep(us);
    assert ExpectedInfos(failures, errors, skipped, expectedFailures, unexpectedSuccesses) == infos;
    // The five kinds have five different lengths, so no entry can stand for another.
    assert |f.kind| == 8 && |e.kind| == 6 && |sk.kind| == 7 && |ef.kind| == 17 && |us.kind| == 20;
    forall x | x in [f, e, sk, ef, us]
      ensures x in infos <==> x.count != 0
    {
    }
  }
}
