/**
 * better_test/parallel.py, the sequential parts: the worker-side result
 * object that turns each outcome into a queued `(method_name, args)` event,
 * the round trip of those events through `handle`, the argument patching of
 * `multi_processing_runner_factory`, and the per-chunk database renaming in
 * `executor`.
 */
module Parallel {
  import opened Types
  import opened Text
  import opened Aggregator
  import opened Utils

  // ---------------------------------------------------------------------------
  // Worker side: MultiProcessingTestResult
  // ---------------------------------------------------------------------------

  /** The event a worker queues for a call on its result: the serialized test, then the call's own arguments. */
  function Encode(c: Call<TestCase>): (e: Event)
    ensures e.methodName == c.MethodName() && |e.args| == 1 + |c.Extras()|
    ensures e.args[0] == Serialize(c.test) && e.args[1..] == c.Extras()
  {
    Event(c.MethodName(), [Serialize(c.test)] + c.Extras())
  }

  /**
   * `handle` undoes the encoding: it calls the same method on the aggregator,
   * with the same extra arguments, on a stand-in that answers qualname, `str`
   * and shortDescription as the worker's test did.
   */
  lemma EncodeRoundTrip(c: Call<TestCase>)
    ensures Decode(Encode(c)) == Ok(c.WithTest(StandIn(c.test)))
  {
    var e := Encode(c);
    assert e.args[0] == Serialize(c.test) && e.args[1..] == c.Extras();
    SerializeRoundTrip(c.test);
    CallNamedOfCall(c.WithTest(StandIn(c.test)));
  }

  /**
   * MultiProcessingTestResult: each outcome becomes one event on the result
   * queue, which is modelled as the list of events this worker has sent.
   * `started` is `_timings`: when each test started, by the caller's clock.
   */
  class WorkerResult {
    var sent: seq<Event>
    var started: map<TestCase, int>

    constructor ()
      ensures sent == [] && started == map[]
    {
      sent, started := [], map[];
    }

    /** `startTest` records the start time and sends nothing. */
    method StartTest(test: TestCase, now: int)
      modifies this
      ensures started == old(started)[test := now] && sent == old(sent)
    {
      started := started[test := now];
    }

    /** `stopTest` sends the test's duration; a test that never started raises KeyError. */
    method StopTest(test: TestCase, now: int) returns (raised: Option<Error>)
      modifies this
      ensures started == old(started)
      ensures test in old(started) ==> raised == None && sent == old(sent) + [Encode(RegisterTiming(test, Int(now - old(started)[test])))]
      ensures test !in old(started) ==> raised == Some(KeyError(test.display)) && sent == old(sent)
    {
      if test !in started {
        return Some(KeyError(test.display));
      }
      sent := sent + [Encode(RegisterTiming(test, Int(now - started[test])))];
      return None;
    }

    /** `addError`; `err` is the traceback already rendered to text, since tracebacks do not cross processes. */
    method AddError(test: TestCase, err: Value)
      modifies this
      ensures sent == old(sent) + [Encode(Call.AddError(test, err))] && started == old(started)
    {
      sent := sent + [Encode(Call.AddError(test, err))];
    }

    method AddFailure(test: TestCase, err: Value)
      modifies this
      ensures sent == old(sent) + [Encode(Call.AddFailure(test, err))] && started == old(started)
    {
      sent := sent + [Encode(Call.AddFailure(test, err))];
    }

    method AddSuccess(test: TestCase)
      modifies this
      ensures sent == old(sent) + [Encode(Call.AddSuccess(test))] && started == old(started)
    {
      sent := sent + [Encode(Call.AddSuccess(test))];
    }

    /** `addSkip(test, reason=None)`: the reason travels as given, NoneValue by default. */
    method AddSkip(test: TestCase, reason: Value)
      modifies this
      ensures sent == old(sent) + [Encode(Call.AddSkip(test, reason))] && started == old(started)
    {
      sent := sent + [Encode(Call.AddSkip(test, reason))];
    }

    method AddExpectedFailure(test: TestCase, err: Value)
      modifies this
      ensures sent == old(sent) + [Encode(Call.AddExpectedFailure(test, err))] && started == old(started)
    {
      sent := sent + [Encode(Call.AddExpectedFailure(test, err))];
    }

    method AddUnexpectedSuccess(test: TestCase)
      modifies this
      ensures sent == old(sent) + [Encode(Call.AddUnexpectedSuccess(test))] && started == old(started)
    {
      sent := sent + [Encode(Call.AddUnexpectedSuccess(test))];
    }
  }

  // ---------------------------------------------------------------------------
  // Replaying a worker's events on the aggregator
  // ---------------------------------------------------------------------------

  /** The events a worker queues for its calls, one per call, in order. */
  function EncodeAll(cs: seq<Call<TestCase>>): (es: seq<Event>)
    ensures |es| == |cs|
    ensures forall i :: 0 <= i < |cs| ==> es[i] == Encode(cs[i])
  {
    if cs == [] then [] else [Encode(cs[0])] + EncodeAll(cs[1..])
  }

  /** The calls as the aggregator receives them: the same calls on stand-in tests. */
  function StandIns(cs: seq<Call<TestCase>>): (r: seq<Call<FakeTest>>)
    ensures |r| == |cs|
    ensures forall i :: 0 <= i < |cs| ==> r[i] == cs[i].WithTest(StandIn(cs[i].test))
  {
    if cs == [] then [] else [cs[0].WithTest(StandIn(cs[0].test))] + StandIns(cs[1..])
  }

  /** Calls applied to the aggregator one after another. */
  function ApplyAll(s: Tally, calls: seq<Call<FakeTest>>): Tally
    decreases |calls|
  {
    if calls == [] then s else ApplyAll(Apply(s, calls[0]), calls[1..])
  }

  /** How many of the calls are test outcomes rather than timings. */
  function OutcomeCount<T>(cs: seq<Call<T>>): nat
  {
    if cs == [] then 0 else (if cs[0].IsOutcome() then 1 else 0) + OutcomeCount(cs[1..])
  }

  /** The tests of the addSuccess calls, in order. */
  function SuccessTests<T>(cs: seq<Call<T>>): seq<T>
  {
    if cs == [] then []
    else (if cs[0].AddSuccess? then [cs[0].test] else []) + SuccessTests(cs[1..])
  }

  /** Replaying everything one worker sent never raises: it applies the same calls on stand-ins. */
  lemma {:induction false} ReplayOfEncoded(s: Tally, cs: seq<Call<TestCase>>)
    ensures Replay(s, EncodeAll(cs)) == Ok(ApplyAll(s, StandIns(cs)))
    decreases |cs|
  {
    if cs != [] {
      var c := cs[0].WithTest(StandIn(cs[0].test));
      ReplayEncodedCons(s, cs);
      ReplayOfEncoded(Apply(s, c), cs[1..]);
      assert StandIns(cs) == [c] + StandIns(cs[1..]);
      assert ApplyAll(s, StandIns(cs)) == ApplyAll(Apply(s, c), StandIns(cs[1..]));
    }
  }

  /**
   * The aggregator's `testsRun` grows by the number of outcomes applied
   * (timings do not count), and `successes` gains the successful tests in the
   * order they were reported.
   */
  lemma {:induction false} ApplyAllCounts(s: Tally, calls: seq<Call<FakeTest>>)
    ensures ApplyAll(s, calls).TestsRun() == s.TestsRun() + OutcomeCount(calls)
    ensures ApplyAll(s, calls).successes == s.successes + SuccessTests(calls)
    decreases |calls|
  {
    if calls != [] {
      ApplyAllCounts(Apply(s, calls[0]), calls[1..]);
    }
  }

  /** Standing in for the tests keeps which calls are outcomes and which are successes. */
  lemma {:induction false} StandInsCounts(cs: seq<Call<TestCase>>)
    ensures OutcomeCount(StandIns(cs)) == OutcomeCount(cs)
    ensures SuccessTests(StandIns(cs)) == seq(|SuccessTests(cs)|, i requires 0 <= i < |SuccessTests(cs)| => StandIn(SuccessTests(cs)[i]))
    decreases |cs|
  {
    if cs != [] {
      StandInsCounts(cs[1..]);
      var c := cs[0].WithTest(StandIn(cs[0].test));
      assert StandIns(cs)[0] == c && StandIns(cs)[1..] == StandIns(cs[1..]);
    }
  }

  /**
   * End to end: whatever outcomes a worker reports reach the aggregator,
   * which counts each of them once and keeps the successes in order.
   */
  lemma WorkerOutcomesReachAggregator(s: Tally, cs: seq<Call<TestCase>>)
    ensures Replay(s, EncodeAll(cs)).Ok?
    ensures Replay(s, EncodeAll(cs)).value.TestsRun() == s.TestsRun() + OutcomeCount(cs)
    ensures Replay(s, EncodeAll(cs)).value.successes
      == s.successes + seq(|SuccessTests(cs)|, i requires 0 <= i < |SuccessTests(cs)| => StandIn(SuccessTests(cs)[i]))
  {
    ReplayOfEncoded(s, cs);
    ApplyAllCounts(s, StandIns(cs));
    StandInsCounts(cs);
  }

  /** The first encoded call is applied, then the rest are replayed. */
  lemma ReplayEncodedCons(s: Tally, cs: seq<Call<TestCase>>)
    requires cs != []
    ensures Replay(s, EncodeAll(cs)) == Replay(Apply(s, cs[0].WithTest(StandIn(cs[0].test))), EncodeAll(cs[1..]))
  {
    assert EncodeAll(cs) == [Encode(cs[0])] + EncodeAll(cs[1..]);
    EncodeRoundTrip(cs[0]);
    ReplayStep(s, Encode(cs[0]), EncodeAll(cs[1..]));
  }

  /** Replaying a decodable event first applies its call, then goes on with the rest. */
  lemma ReplayStep(s: Tally, e: Event, es: seq<Event>)
    requires Decode(e).Ok?
    ensures Replay(s, [e] + es) == Replay(Apply(s, Decode(e).value), es)
  {
    assert ([e] + es)[0] == e && ([e] + es)[1..] == es;
  }

  // ---------------------------------------------------------------------------
  // multi_processing_runner_factory
  // ---------------------------------------------------------------------------

  /**
   * The value TextTestRunner receives for the parameter at position `p` named
   * `name`: the positional argument when there is one, else the keyword
   * argument, else None (the parameter's default).
   */
  function Bound<A>(args: seq<A>, kwargs: map<string, A>, p: nat, name: string): Option<A>
  {
    if p < |args| then Some(args[p])
    else if name in kwargs then Some(kwargs[name])
    else None
  }

  /**
   * The `inner(*args, **kwargs)` patching: the stream replaces `args[0]` or is
   * passed as `stream=`; the worker result class replaces `args[5]` or is
   * passed as `resultclass=`.
   */
  method PatchRunnerArgs<A>(args: seq<A>, kwargs: map<string, A>, stream: A, resultClass: A)
    returns (newArgs: seq<A>, newKwargs: map<string, A>)
    ensures |newArgs| == |args|
    ensures Bound(newArgs, newKwargs, 0, "stream") == Some(stream)
    ensures Bound(newArgs, newKwargs, 5, "resultclass") == Some(resultClass)
    ensures forall p: nat, name :: p != 0 && p != 5 && name != "stream" && name != "resultclass" ==>
      Bound(newArgs, newKwargs, p, name) == Bound(args, kwargs, p, name)
    ensures newKwargs.Keys <= kwargs.Keys + {"stream", "resultclass"}
  {
    newArgs, newKwargs := args, kwargs;
    if |newArgs| > 0 {
      newArgs := newArgs[0 := stream];
    } else {
      newKwargs := newKwargs["stream" := stream];
    }
    if |newArgs| > 5 {
      newArgs := newArgs[5 := resultClass];
    } else {
      newKwargs := newKwargs["resultclass" := resultClass];
    }
  }

  // ---------------------------------------------------------------------------
  // executor: one database per chunk
  // ---------------------------------------------------------------------------

  const MemoryName := ":memory:"

  /** The database name chunk `chunkNum` runs against. */
  function PatchedName(name: string, chunkNum: nat): (patched: string)
    ensures chunkNum == 0 || name == MemoryName ==> patched == name
    ensures chunkNum != 0 && name != MemoryName ==>
      |patched| > |name| + 1 && patched[..|name|] == name && patched[|name|] == '_'
      && patched[|name| + 1..] == Decimal(chunkNum)
  {
    if chunkNum == 0 || name == MemoryName then name else name + "_" + Decimal(chunkNum)
  }

  /** Two chunks never share an on-disk database; the first chunk keeps the configured name. */
  lemma PatchedNamesDistinct(name: string, a: nat, b: nat)
    requires name != MemoryName && a != b
    ensures PatchedName(name, a) != PatchedName(name, b)
    ensures PatchedName(name, 0) == name
  {
    if a != 0 && b != 0 && PatchedName(name, a) == PatchedName(name, b) {
      var prefix := name + "_";
      assert PatchedName(name, a) == prefix + Decimal(a);
      assert PatchedName(name, b) == prefix + Decimal(b);
      assert Decimal(a) == (prefix + Decimal(a))[|prefix|..];
      assert Decimal(b) == (prefix + Decimal(b))[|prefix|..];
      DecimalInjective(a, b);
    }
  }

  /**
   * Across configs, names can collide: a config named `db` in chunk 1 gets
   * the very name a config named `db_1` keeps in chunk 0.
   */
  lemma PatchedNamesCollideAcrossConfigs()
    ensures "db" != "db_1" && PatchedName("db", 1) == PatchedName("db_1", 0)
  {
    assert Decimal(1) == "1";
  }

  /** One database config after renaming, or the KeyError of `config['NAME']` when it has no name. */
  function RenameConfig(config: map<string, string>, chunkNum: nat): (r: Result<map<string, string>>)
    requires chunkNum != 0
    ensures r.Ok? <==> "NAME" in config
    ensures r.Err? ==> r.error == KeyError("NAME")
    ensures r.Ok? ==> r.value.Keys == config.Keys && r.value["NAME"] == PatchedName(config["NAME"], chunkNum)
    ensures r.Ok? ==> forall k :: k in config && k != "NAME" ==> r.value[k] == config[k]
  {
    if "NAME" in config && config["NAME"] == MemoryName then Ok(config)
    else if "NAME" !in config then Err(KeyError("NAME"))
    else Ok(config["NAME" := config["NAME"] + "_" + Decimal(chunkNum)])
  }

  /** The first config without a NAME, if any. */
  function FirstUnnamed(configs: seq<map<string, string>>): (r: Option<nat>)
    ensures r.None? <==> forall i :: 0 <= i < |configs| ==> "NAME" in configs[i]
    ensures r.Some? ==> r.value < |configs| && "NAME" !in configs[r.value]
    ensures r.Some? ==> forall i :: 0 <= i < r.value ==> "NAME" in configs[i]
  {
    if configs == [] then None
    else if "NAME" !in configs[0] then Some(0)
    else match FirstUnnamed(configs[1..])
      case None => None
      case Some(i) => Some(i + 1)
  }

  /** The configs renamed one by one, as the loop leaves them. */
  function RenameAll(configs: seq<map<string, string>>, chunkNum: nat): (r: seq<map<string, string>>)
    requires chunkNum != 0
    requires forall i :: 0 <= i < |configs| ==> "NAME" in configs[i]
    ensures |r| == |configs|
    ensures forall i :: 0 <= i < |configs| ==> RenameConfig(configs[i], chunkNum) == Ok(r[i])
  {
    seq(|configs|, i requires 0 <= i < |configs| && "NAME" in configs[i] => RenameConfig(configs[i], chunkNum).value)
  }

  /** The part of django.conf.settings that `executor` changes. */
  class Settings {
    /** The values of DATABASES, in the dict's insertion order. */
    var databases: seq<map<string, string>>

    constructor (databases: seq<map<string, string>>)
      ensures this.databases == databases
    {
      this.databases := databases;
    }

    /**
     * The renaming at the start of `executor`: chunk 0 leaves every config
     * alone; any other chunk suffixes every name but ":memory:" with
     * `_<chunkNum>`, and stops with KeyError at the first config without a
     * NAME, the ones before it already renamed.
     */
    method PatchDatabaseNames(chunkNum: nat) returns (raised: Option<Error>)
      modifies this
      ensures chunkNum == 0 ==> raised == None && databases == old(databases)
      ensures chunkNum != 0 ==> (raised.None? <==> FirstUnnamed(old(databases)).None?)
      ensures chunkNum != 0 && raised.None? ==> databases == RenameAll(old(databases), chunkNum)
      ensures raised.Some? ==> chunkNum != 0 && FirstUnnamed(old(databases)).Some? && raised == Some(KeyError("NAME"))
      ensures raised.Some? ==> (var j := FirstUnnamed(old(databases)).value;
        databases == RenameAll(old(databases)[..j], chunkNum) + old(databases)[j..])
    {
      if chunkNum == 0 {
        return None;
      }
      ghost var original := databases;
      for k := 0 to |databases|
        invariant |databases| == |original|
        invariant forall i :: 0 <= i < k ==> "NAME" in original[i]
        invariant databases == RenameAll(original[..k], chunkNum) + original[k..]
      {
        assert databases[k] == original[k];
        var renamed := RenameConfig(databases[k], chunkNum);
        if renamed.Err? {
          FirstUnnamedAt(original, k);
          return Some(renamed.error);
        }
        RenameStep(original, k, chunkNum);
        databases := databases[k := renamed.value];
      }
      assert original[..|original|] == original;
      assert databases == RenameAll(original, chunkNum);
      return None;
    }
  }

  lemma FirstUnnamedAt(configs: seq<map<string, string>>, k: nat)
    requires k < |configs| && "NAME" !in configs[k]
    requires forall i :: 0 <= i < k ==> "NAME" in configs[i]
    ensures FirstUnnamed(configs) == Some(k)
  {
  }

  /** Renaming config k extends the renamed prefix by one. */
  lemma RenameStep(configs: seq<map<string, string>>, k: nat, chunkNum: nat)
    requires chunkNum != 0 && k < |configs|
    requires forall i :: 0 <= i <= k ==> "NAME" in configs[i]
    ensures (RenameAll(configs[..k], chunkNum) + configs[k..])[k := RenameConfig(configs[k], chunkNum).value]
      == RenameAll(configs[..k + 1], chunkNum) + configs[k + 1..]
  {
    var lhs := (RenameAll(configs[..k], chunkNum) + configs[k..])[k := RenameConfig(configs[k], chunkNum).value];
    var rhs := RenameAll(configs[..k + 1], chunkNum) + configs[k + 1..];
    assert |lhs| == |rhs|;
    forall i | 0 <= i < |lhs|
      ensures lhs[i] == rhs[i]
    {
      if i < k {
        assert configs[..k][i] == configs[..k + 1][i];
      }
    }
  }
}
