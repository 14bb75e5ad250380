/**
 * The receiving end of the result queue in better_test/parallel.py: the
 * FakeTest stand-in rebuilt from a serialized test, the calls a worker makes
 * on its result object, the MultiProcessingTextTestResult that collects them,
 * and the `handle` step of wait_for_tests_to_finish that replays one queued
 * event onto it.
 */
module Aggregator {
  import opened Types

  /** One queued event: `(method_name, args)`, the serialized test first in `args`. */
  datatype Event = Event(methodName: string, args: seq<Value>)

  /** FakeTest: answers `qualname`, `str(test)` and `shortDescription()` from three stored fields. */
  datatype FakeTest = FakeTest(qualname: string, name: string, description: Option<string>)
  {
    /** `str(test)` */
    function Display(): string
    {
      name
    }

    function ShortDescription(): Option<string>
    {
      description
    }
  }

  /**
   * `FakeTest.deserialize(data)`, which is `cls(*data)`: a triple fills the
   * three constructor parameters, and so does a three-character string, which
   * unpacks into its characters; any other payload has the wrong length or
   * does not unpack at all.
   */
  function Deserialize(data: Value): (r: Result<FakeTest>)
    ensures r.Ok? <==> data.Triple? || (data.Str? && |data.s| == 3)
    ensures data.Triple? ==> (r.Ok? && r.value.qualname == data.qualname
      && r.value.Display() == data.name && r.value.ShortDescription() == data.description)
    ensures r.Err? ==> r.error.TypeError?
  {
    match data
    case Triple(qualname, name, description) => Ok(FakeTest(qualname, name, description))
    case Str(s) =>
      if |s| == 3 then Ok(FakeTest([s[0]], [s[1]], Some([s[2]])))
      else Err(TypeError("__init__() takes 4 positional arguments"))
    case _ => Err(TypeError("__init__() takes 4 positional arguments"))
  }

  /** A string of the right length unpacks into the stand-in, one character per field. */
  lemma DeserializeUnpacksString(s: string)
    ensures Deserialize(Str(s)).Ok? <==> |s| == 3
    ensures |s| == 3 ==> Deserialize(Str(s)).value == FakeTest([s[0]], [s[1]], Some([s[2]]))
  {
  }

  /** A call on a test result object, made by a worker and replayed by `handle`. */
  datatype Call<T> =
    | AddSuccess(test: T)
    | AddUnexpectedSuccess(test: T)
    | AddError(test: T, err: Value)
    | AddFailure(test: T, err: Value)
    | AddExpectedFailure(test: T, err: Value)
    | AddSkip(test: T, reason: Value)
    | RegisterTiming(test: T, timing: Value)
  {
    function MethodName(): string
    {
      match this
      case AddSuccess(_) => "addSuccess"
      case AddUnexpectedSuccess(_) => "addUnexpectedSuccess"
      case AddError(_, _) => "addError"
      case AddFailure(_, _) => "addFailure"
      case AddExpectedFailure(_, _) => "addExpectedFailure"
      case AddSkip(_, _) => "addSkip"
      case RegisterTiming(_, _) => "registerTiming"
    }

    /** The arguments that follow the test. */
    function Extras(): seq<Value>
    {
      match this
      case AddSuccess(_) => []
      case AddUnexpectedSuccess(_) => []
      case AddError(_, err) => [err]
      case AddFailure(_, err) => [err]
      case AddExpectedFailure(_, err) => [err]
      case AddSkip(_, reason) => [reason]
      case RegisterTiming(_, timing) => [timing]
    }

    /** The same call made on another test object. */
    function WithTest<U>(u: U): (c: Call<U>)
      ensures c.test == u && c.MethodName() == MethodName() && c.Extras() == Extras()
      ensures c.IsOutcome() == IsOutcome() && c.AddSuccess? == AddSuccess?
    {
      match this
      case AddSuccess(_) => AddSuccess(u)
      case AddUnexpectedSuccess(_) => AddUnexpectedSuccess(u)
      case AddError(_, err) => AddError(u, err)
      case AddFailure(_, err) => AddFailure(u, err)
      case AddExpectedFailure(_, err) => AddExpectedFailure(u, err)
      case AddSkip(_, reason) => AddSkip(u, reason)
      case RegisterTiming(_, timing) => RegisterTiming(u, timing)
    }

    /** A test outcome, as opposed to a timing record. */
    predicate IsOutcome()
    {
      !RegisterTiming?
    }
  }

  /** How many arguments after the test each method of the aggregator takes; None: no such method. */
  function Arity(name: string): Option<nat>
  {
    if name == "addSuccess" || name == "addUnexpectedSuccess" then Some(0)
    else if name in {"addError", "addFailure", "addExpectedFailure", "addSkip", "registerTiming"} then Some(1)
    else None
  }

  /**
   * `getattr(real_result, name)(test, *extras)` as far as choosing the call:
   * an unknown name raises AttributeError, a wrong argument count TypeError.
   */
  function CallNamed<T>(name: string, test: T, extras: seq<Value>): (r: Result<Call<T>>)
    ensures r.Ok? <==> Arity(name).Some? && |extras| == Arity(name).value
    ensures r.Ok? ==> r.value.MethodName() == name && r.value.test == test && r.value.Extras() == extras
    ensures Arity(name).None? ==> r == Err(AttributeError(name))
  {
    match Arity(name)
    case None => Err(AttributeError(name))
    case Some(k) =>
      if |extras| != k then Err(TypeError(name + "() got the wrong number of arguments"))
      else if name == "addSuccess" then Ok(AddSuccess(test))
      else if name == "addUnexpectedSuccess" then Ok(AddUnexpectedSuccess(test))
      else if name == "addError" then Ok(AddError(test, extras[0]))
      else if name == "addFailure" then Ok(AddFailure(test, extras[0]))
      else if name == "addExpectedFailure" then Ok(AddExpectedFailure(test, extras[0]))
      else if name == "addSkip" then Ok(AddSkip(test, extras[0]))
      else Ok(RegisterTiming(test, extras[0]))
  }

  /** Naming a call and passing its arguments rebuilds exactly that call. */
  lemma CallNamedOfCall<T>(c: Call<T>)
    ensures CallNamed(c.MethodName(), c.test, c.Extras()) == Ok(c)
  {
  }

  /**
   * The decoding half of `handle`: pop the serialized test off the arguments,
   * rebuild it as a FakeTest, and pick the method to call with the rest.
   */
  function Decode(e: Event): (r: Result<Call<FakeTest>>)
    ensures e.args == [] ==> r == Err(IndexError)
    ensures r.Ok? <==> (e.args != [] && Deserialize(e.args[0]).Ok?
      && Arity(e.methodName).Some? && |e.args| - 1 == Arity(e.methodName).value)
    ensures r.Ok? ==> (r.value.MethodName() == e.methodName && r.value.test == Deserialize(e.args[0]).value
      && r.value.Extras() == e.args[1..])
  {
    if e.args == [] then Err(IndexError)
    else
      match Deserialize(e.args[0])
      case Err(x) => Err(x)
      case Ok(test) => CallNamed(e.methodName, test, e.args[1..])
  }

  /** The lists and timings a MultiProcessingTextTestResult holds. */
  datatype Tally = Tally(
    errors: seq<(FakeTest, Value)>,
    failures: seq<(FakeTest, Value)>,
    skipped: seq<(FakeTest, Value)>,
    expectedFailures: seq<(FakeTest, Value)>,
    unexpectedSuccesses: seq<FakeTest>,
    successes: seq<FakeTest>,
    timings: map<string, Value>)
  {
    /** The `testsRun` property: the number of recorded outcomes; timings do not count. */
    function TestsRun(): (n: nat)
      ensures n == 0 <==> (errors == [] && failures == [] && unexpectedSuccesses == [] && expectedFailures == []
        && successes == [] && skipped == [])
      ensures n >= |successes| + |skipped|
    {
      |errors| + |failures| + |unexpectedSuccesses| + |expectedFailures| + |successes| + |skipped|
    }
  }

  const EmptyTally := Tally([], [], [], [], [], [], map[])

  /**
   * The effect of one call on the aggregator: every outcome is appended to its
   * own list once, and registerTiming records the duration under the test's
   * qualified name, replacing an earlier one.
   */
  function Apply(s: Tally, c: Call<FakeTest>): (t: Tally)
    ensures t.TestsRun() == s.TestsRun() + (if c.IsOutcome() then 1 else 0)
    ensures c.RegisterTiming? ==> t.timings == s.timings[c.test.qualname := c.timing]
    ensures !c.RegisterTiming? ==> t.timings == s.timings
    ensures c.AddSuccess? ==> t.successes == s.successes + [c.test]
    ensures !c.AddSuccess? ==> t.successes == s.successes
  {
    match c
    case AddSuccess(test) => s.(successes := s.successes + [test])
    case AddUnexpectedSuccess(test) => s.(unexpectedSuccesses := s.unexpectedSuccesses + [test])
    case AddError(test, err) => s.(errors := s.errors + [(test, err)])
    case AddFailure(test, err) => s.(failures := s.failures + [(test, err)])
    case AddExpectedFailure(test, err) => s.(expectedFailures := s.expectedFailures + [(test, err)])
    case AddSkip(test, reason) => s.(skipped := s.skipped + [(test, reason)])
    case RegisterTiming(test, timing) => s.(timings := s.timings[test.qualname := timing])
  }

  /** Events handled in queue order; the first one `handle` cannot replay raises and ends the run. */
  function Replay(s: Tally, events: seq<Event>): (r: Result<Tally>)
    ensures (forall i :: 0 <= i < |events| ==> Decode(events[i]).Ok?) ==> r.Ok?
    ensures r.Ok? ==> s.TestsRun() <= r.value.TestsRun() <= s.TestsRun() + |events|
    ensures r.Ok? ==> forall q :: q in s.timings ==> q in r.value.timings
    decreases |events|
  {
    if events == [] then Ok(s)
    else
      match Decode(events[0])
      case Err(x) => Err(x)
      case Ok(c) => Replay(Apply(s, c), events[1..])
  }

  /** MultiProcessingTextTestResult, the result object in the aggregating process. */
  class TextResult {
    var errors: seq<(FakeTest, Value)>
    var failures: seq<(FakeTest, Value)>
    var skipped: seq<(FakeTest, Value)>
    var expectedFailures: seq<(FakeTest, Value)>
    var unexpectedSuccesses: seq<FakeTest>
    var timings: map<string, Value>
    var successes: seq<FakeTest>

    /** The object's lists and timings as one value. */
    function State(): Tally
      reads this
    {
      Tally(errors, failures, skipped, expectedFailures, unexpectedSuccesses, successes, timings)
    }

    /** The `testsRun` property, computed from the lists. */
    function TestsRun(): nat
      reads this
    {
      State().TestsRun()
    }

    constructor ()
      ensures State() == EmptyTally && TestsRun() == 0
    {
      errors, failures, skipped, expectedFailures := [], [], [], [];
      unexpectedSuccesses, timings, successes := [], map[], [];
    }

    /** The `testsRun` setter discards the value it is given. */
    method SetTestsRun(value: int)
      ensures State() == old(State())
    {
    }

    method RegisterTiming(test: FakeTest, timing: Value)
      modifies this
      ensures State() == Apply(old(State()), Call.RegisterTiming(test, timing))
      ensures timings == old(timings)[test.qualname := timing] && TestsRun() == old(TestsRun())
    {
      timings := timings[test.qualname := timing];
    }

    method AddSuccess(test: FakeTest)
      modifies this
      ensures State() == Apply(old(State()), Call.AddSuccess(test))
      ensures successes == old(successes) + [test] && TestsRun() == old(TestsRun()) + 1
    {
      successes := successes + [test];
    }

    method AddUnexpectedSuccess(test: FakeTest)
      modifies this
      ensures State() == Apply(old(State()), Call.AddUnexpectedSuccess(test))
      ensures TestsRun() == old(TestsRun()) + 1
    {
      unexpectedSuccesses := unexpectedSuccesses + [test];
    }

    method AddError(test: FakeTest, err: Value)
      modifies this
      ensures State() == Apply(old(State()), Call.AddError(test, err))
      ensures TestsRun() == old(TestsRun()) + 1
    {
      errors := errors + [(test, err)];
    }

    method AddFailure(test: FakeTest, err: Value)
      modifies this
      ensures State() == Apply(old(State()), Call.AddFailure(test, err))
      ensures TestsRun() == old(TestsRun()) + 1
    {
      failures := failures + [(test, err)];
    }

    method AddExpectedFailure(test: FakeTest, err: Value)
      modifies this
      ensures State() == Apply(old(State()), Call.AddExpectedFailure(test, err))
      ensures TestsRun() == old(TestsRun()) + 1
    {
      expectedFailures := expectedFailures + [(test, err)];
    }

    method AddSkip(test: FakeTest, reason: Value)
      modifies this
      ensures State() == Apply(old(State()), Call.AddSkip(test, reason))
      ensures TestsRun() == old(TestsRun()) + 1
    {
      skipped := skipped + [(test, reason)];
    }
  }

  /**
   * `handle(result)`: rebuild the test, look the method up by name and call it
   * with the remaining arguments; a malformed event raises instead.
   */
  method Handle(realResult: TextResult, e: Event) returns (raised: Option<Error>)
    modifies realResult
    ensures Decode(e).Err? ==> raised == Some(Decode(e).error) && realResult.State() == old(realResult.State())
    ensures Decode(e).Ok? ==> raised == None && realResult.State() == Apply(old(realResult.State()), Decode(e).value)
  {
    var decoded := Decode(e);
    if decoded.Err? {
      return Some(decoded.error);
    }
    match decoded.value {
      case AddSuccess(test) => realResult.AddSuccess(test);
      case AddUnexpectedSuccess(test) => realResult.AddUnexpectedSuccess(test);
      case AddError(test, err) => realResult.AddError(test, err);
      case AddFailure(test, err) => realResult.AddFailure(test, err);
      case AddExpectedFailure(test, err) => realResult.AddExpectedFailure(test, err);
      case AddSkip(test, reason) => realResult.AddSkip(test, reason);
      case RegisterTiming(test, timing) => realResult.RegisterTiming(test, timing);
    }
    return None;
  }
}
