# django-better-test, modelled in Dafny

django-better-test runs a Django test suite in several processes. The
parent process builds the suite and turns it into dotted test labels
(`module.Class.method`). It splits the labels into chunks by run mode. Each
worker runs one chunk against its own copy of the database. Each worker
reports every outcome as a `(method_name, args)` event on a queue, with the
test serialized to plain values. The parent replays the events onto one
aggregating result object, then summarises the run.

This project models that sequential core and proves its properties:

- `types.dfy` (`Types`): `Option`, `Result`, the Python exceptions the core
  can raise, and the plain values that cross the queue.
- `text.dfy` (`Text`): decimal rendering with its parse inverse,
  `str.join` and `str.rfind('.')`.
- `partition.dfy` (`Partition`): the `(weight, label)` tuple order, the
  descending sort, the two bucket cursors (round-robin and there-and-back),
  and `Deal`, the specification of dealing items into buckets. It also holds
  the facts about the partitions: permutation, sizes, placement, order
  inside a bucket, and empty buckets.
- `aggregator.dfy` (`Aggregator`): the receiving half of
  `better_test/parallel.py`. It covers `FakeTest`, the calls a worker
  makes, `MultiProcessingTextTestResult` as a class, and `handle`.
- `utils.py`, `database.py`, `parallel.py`, `core.py` and
  `management/commands/test.py` become `utils.dfy`, `database.dfy`,
  `parallel.dfy`, `core.dfy` and `command.dfy`.

The partitioners, `suite_to_labels`, the worker result, the database
renaming and the summary are loops or in-place updates in the source. They
are methods here, proved against specification functions. Label building,
serialization, event encoding and chunk selection are expressions in the
source, and are functions here.

## Model

| member | source | states |
|---|---|---|
| Text.Decimal | better_test/parallel.py:55 | `str(n)` of a natural number is a non-empty string of digits |
| Text.ParseDecimalOfDecimal | better_test/parallel.py:55 | reading the digits of `str(n)` back gives `n` |
| Text.DecimalInjective | better_test/parallel.py:55 | different chunk numbers render to different strings |
| Text.IntToString | better_test/core.py:111 | `str(i)` of an integer is non-empty and starts with `-` exactly when `i` is negative |
| Text.Join | better_test/management/commands/test.py:232 | `", ".join` of no parts is empty; of one part it is that part |
| Text.LastDot | better_test/utils.py:88-92 | `rfind('.')`, the read-back `Utils.DottedRoundTrip` applies to the label these lines build: the position found holds a dot with no dot after it; no position means there is no dot |
| Text.LastDotOfJoin | better_test/utils.py:88-92 | for the label these lines build, read back by `Utils.DottedRoundTrip`: in `a + "." + b`, with no dot in `b`, the last dot is the joining one |
| Partition.LabelLeTotal | better_test/utils.py:17 | string comparison is total (reflexive, antisymmetric and transitive in the lemmas beside it) |
| Partition.TupleLeTransitive | better_test/utils.py:17 | the `(weight, label)` tuple order is transitive (with totality and antisymmetry beside it) |
| Partition.SortDescending | better_test/utils.py:17 | `reversed(sorted(data))` is a permutation of the data in descending tuple order, of the same length |
| Partition.DescendingIsUnique | better_test/utils.py:17 | any two descending rearrangements of the same pairs are equal, so the sort algorithm does not matter |
| Partition.SortKeepsLabels | better_test/utils.py:17-21 | sorting keeps the multiset of labels |
| Partition.CycleOrder | better_test/utils.py:18-20 | one turn of the cursor visits `n` (round-robin) or `2n` (there-and-back) bucket indices, all below `n` |
| Partition.CycleOrderIsSlot | better_test/utils.py:18-20 | the cursor's k-th value is the closed-form slot: `k mod n`, or `r`/`2n-1-r` with `r = k mod 2n` |
| Partition.Deal | better_test/utils.py:16-22 | dealing always yields exactly `n` buckets, empty ones included |
| Partition.CountIsClosed | better_test/utils.py:18-22 | how many of the first m items reach bucket b, in closed form |
| Partition.DealSizes | better_test/utils.py:21-22 | bucket b holds exactly as many items as the cursor sent to it |
| Partition.DealPlacement | better_test/utils.py:21-22 | the k-th item sits in bucket `Slot(k)`, after the earlier items sent there |
| Partition.DealIsPermutation | better_test/utils.py:21-22 | the buckets together hold every item exactly once |
| Partition.DealKeepsDescending | better_test/utils.py:17-22 | each bucket keeps the descending order of the input |
| Partition.DealLabels | better_test/utils.py:21-22 | dealing labels equals taking the labels of the dealt pairs |
| Partition.DealBalanced | better_test/utils.py:18-22 | bucket sizes differ by at most one |
| Partition.RoundRobinSizesNonIncreasing | better_test/database.py:9-11 | with the round-robin cursor, bucket sizes do not grow with the index |
| Partition.DealOccupied | better_test/utils.py:18-22 | bucket b is non-empty exactly when there are more than b items |
| Partition.NonEmpty | better_test/core.py:107 | `filter(bool, chunks)` keeps no empty chunk and loses no item, in order (which chunks it keeps: the rows below) |
| Partition.NonEmptyIndices | better_test/core.py:107 | the positions of the non-empty chunks, strictly increasing, each holding a non-empty chunk, and missing none |
| Partition.NonEmptyKeepsChunks | better_test/core.py:107 | with `from = 0`: the i-th chunk `filter(bool, chunks)` keeps is, unchanged, the input chunk at the i-th non-empty position |
| Partition.NonEmptyMembers | better_test/core.py:107 | a chunk is kept exactly when it is a non-empty chunk of the input |
| Partition.NonEmptyOfPrefix | better_test/core.py:107 | when exactly the first k buckets are occupied, filtering keeps just those k |
| Partition.FlattenSingletons | better_test/core.py:92-94 | one singleton chunk per label, laid end to end, is the label list |
| Partition.Placement | better_test/utils.py:17-22 | the k-th item in descending order is at index `ClosedCount(k)` of bucket `Slot(k)` |
| Partition.PartitionFacts | better_test/utils.py:15-23 | the partition is a permutation of the labels, balanced, and bucket b is occupied iff b < len(data) |
| Partition.PartitionBucketsDescending | better_test/utils.py:17-22 | within each bucket the weights do not increase |
| Aggregator.Call.WithTest | better_test/parallel.py:83-85 | calling the same method on another test keeps the method, the extras and the outcome kind |
| Aggregator.Deserialize | better_test/parallel.py:264-266 | `cls(*data)` succeeds exactly for a triple or a three-character string; a triple's stand-in answers qualname, `str` and shortDescription from its three fields; anything else is TypeError |
| Aggregator.DeserializeUnpacksString | better_test/parallel.py:264-266 | a string unpacks into the stand-in exactly when it has three characters, one character per field |
| Aggregator.CallNamed | better_test/parallel.py:84-85 | `getattr(result, name)(test, *extras)` succeeds iff the method exists and the argument count fits; an unknown name is AttributeError |
| Aggregator.CallNamedOfCall | better_test/parallel.py:84-85 | looking up a call's own name with its own arguments rebuilds that call |
| Aggregator.Decode | better_test/parallel.py:79-85 | no arguments is IndexError; decoding succeeds iff the test deserializes and the method exists with a fitting argument count, and then the call has the event's method name, the stand-in and the remaining arguments |
| Aggregator.Tally.TestsRun | better_test/parallel.py:114-127 | `testsRun` is 0 exactly when the six outcome lists are empty, and counts at least the successes and skips |
| Aggregator.Apply | better_test/parallel.py:114-145 | an outcome adds one to `testsRun` and a timing adds none; `registerTiming` overwrites `timings[qualname]`; only `addSuccess` appends to `successes` |
| Aggregator.Replay | better_test/parallel.py:79-100 | the queue drained through `handle` in order: when every event decodes nothing raises, `testsRun` grows by at most one per event, and no recorded timing is lost |
| Aggregator.TextResult.constructor | better_test/parallel.py:109-112 | a new aggregator has empty lists and timings and `testsRun` 0 |
| Aggregator.TextResult.SetTestsRun | better_test/parallel.py:129-135 | assigning `testsRun` changes nothing |
| Aggregator.TextResult.RegisterTiming | better_test/parallel.py:137-138 | sets `timings[test.qualname]`, overwriting, and leaves `testsRun` unchanged |
| Aggregator.TextResult.AddSuccess | better_test/parallel.py:140-145 | appends the test to `successes` once; `testsRun` grows by one |
| Aggregator.TextResult.AddError | better_test/parallel.py:147-152 | appends `(test, err)` with the already rendered error; `testsRun` grows by one |
| Aggregator.TextResult.AddFailure | better_test/parallel.py:147-152 | appends `(test, err)` to failures; `testsRun` grows by one |
| Aggregator.TextResult.AddExpectedFailure | better_test/parallel.py:147-152 | appends `(test, err)` to expected failures; `testsRun` grows by one |
| Aggregator.TextResult.AddUnexpectedSuccess | better_test/parallel.py:114-127 | appends the test to unexpected successes; `testsRun` grows by one |
| Aggregator.TextResult.AddSkip | better_test/parallel.py:114-127 | appends `(test, reason)` to skipped; `testsRun` grows by one |
| Aggregator.Handle | better_test/parallel.py:79-85 | a decodable event (a triple, or a three-character string, as the test) is applied to the aggregator; otherwise its exception is raised and nothing changes |
| Utils.TestToDotted | better_test/utils.py:84-92 | the label starts with the module and a dot, ends with a dot and the method, and is two dots longer than its three parts |
| Utils.Serialize | better_test/utils.py:62-81 | the triple carries the test's qualified name, and `FakeTest.deserialize` rebuilds the test's stand-in from it |
| Utils.DottedRoundTrip | better_test/utils.py:84-92 | `module.Class.method` splits back into module, class and method when class and method have no dot |
| Utils.SerializeRoundTrip | better_test/utils.py:62-81 | the triple is the dotted label (or `id()` without `_testMethodName`), `str(test)` and `shortDescription()`; `FakeTest.deserialize` answers all three as the live test did |
| Utils.SimpleWeightedPartition | better_test/utils.py:15-23 | result is the there-and-back deal of the descending pairs: `n` buckets, a permutation of the labels, sizes within one, bucket b non-empty iff b < len(data) |
| Utils.ThereAndBackPlacement | better_test/utils.py:17-22 | the k-th item goes to bucket `r` or `2n-1-r` (`r = k mod 2n`), at position `2*(k div 2n)` or one past it |
| Utils.SuiteSplitCounts | better_test/utils.py:31-44 | every test yields a label except import failures, each of which reports at most one error |
| Utils.FirstUnlabellable | better_test/utils.py:31-43 | the first test `suite_to_labels` cannot label: every test before it can be handled and it cannot |
| Utils.SuiteToLabels | better_test/utils.py:26-44 | labels of all non-import-failure tests in order; each raising import failure is added to `result.errors` under `module.Class`; a test without a method name raises AttributeError, after the errors of the import failures before it have been added |
| Database.SimpleWeightedPartition | better_test/database.py:6-12 | result is the round-robin deal of the descending pairs: `n` buckets, a permutation of the labels, sizes non-increasing by index and within one |
| Database.RoundRobinPlacement | better_test/database.py:8-11 | the k-th item in descending order is at position `k div n` of bucket `k mod n` |
| Parallel.Encode | better_test/parallel.py:201-248 | an event carries the method name, then the serialized test, then exactly the call's own arguments |
| Parallel.EncodeRoundTrip | better_test/parallel.py:201-248 | `handle` (lines 79-85) on an encoded call makes the same call on the test's stand-in |
| Parallel.WorkerResult.StartTest | better_test/parallel.py:178-179 | records the start time and queues nothing |
| Parallel.WorkerResult.StopTest | better_test/parallel.py:187-193 | queues `registerTiming` with the elapsed time; a test never started raises KeyError and queues nothing |
| Parallel.WorkerResult.AddError | better_test/parallel.py:201-208 | queues exactly one `addError` event for the test with its rendered error |
| Parallel.WorkerResult.AddFailure | better_test/parallel.py:210-217 | queues exactly one `addFailure` event |
| Parallel.WorkerResult.AddSuccess | better_test/parallel.py:219-224 | queues exactly one `addSuccess` event with no extra arguments |
| Parallel.WorkerResult.AddSkip | better_test/parallel.py:226-232 | queues exactly one `addSkip` event carrying the reason |
| Parallel.WorkerResult.AddExpectedFailure | better_test/parallel.py:234-241 | queues exactly one `addExpectedFailure` event |
| Parallel.WorkerResult.AddUnexpectedSuccess | better_test/parallel.py:243-248 | queues exactly one `addUnexpectedSuccess` event |
| Parallel.EncodeAll | better_test/parallel.py:201-248 | one event per call, in the order the calls were made |
| Parallel.StandIns | better_test/parallel.py:79-85 | the calls the aggregator receives are the worker's calls, in order, each on the test's stand-in |
| Parallel.ReplayOfEncoded | better_test/parallel.py:79-100 | replaying a worker's events never raises and applies the same calls on stand-ins, in order |
| Parallel.ApplyAllCounts | better_test/parallel.py:114-145 | after a sequence of calls, `testsRun` has grown by the number of outcomes and `successes` by the successful tests in order |
| Parallel.WorkerOutcomesReachAggregator | better_test/parallel.py:79-248 | end to end: every reported outcome is counted once by the aggregator, and the successes arrive in order |
| Parallel.PatchRunnerArgs | better_test/parallel.py:30-40 | TextTestRunner receives the stream as its `stream` and the worker result as its `resultclass`, however they are passed; every other parameter and the positional count are unchanged |
| Parallel.PatchedName | better_test/parallel.py:52-55 | chunk 0 and `:memory:` keep the name; otherwise the name is followed by `_` and the chunk number |
| Parallel.PatchedNamesDistinct | better_test/parallel.py:48-55 | for one configured name other than `:memory:`: chunk 0 keeps it and two different chunks never get the same name |
| Parallel.PatchedNamesCollideAcrossConfigs | better_test/parallel.py:52-55 | across configs names can collide: `db` in chunk 1 becomes `db_1`, the name a config `db_1` keeps in chunk 0 |
| Parallel.RenameConfig | better_test/parallel.py:53-55 | a config keeps its keys and other values; `NAME` becomes `NAME_<chunk>` unless it is `:memory:`; a config without `NAME` raises KeyError |
| Parallel.FirstUnnamed | better_test/parallel.py:53-55 | finds the first config without `NAME`, or proves that every config has one |
| Parallel.Settings.PatchDatabaseNames | better_test/parallel.py:52-55 | chunk 0 changes nothing; otherwise every config is renamed, or KeyError is raised at the first config without `NAME` with the earlier ones already renamed |
| Core.ResultProperties | better_test/core.py:31-60 | `total_results` = `total_failures` + skips + successes; `success` iff the only failures counted are expected ones; one crashed executor makes the run fail |
| Core.RunResult.TotalResults | better_test/core.py:31-41 | `total_results` is 0 exactly when all seven lists are empty, and counts every crashed executor and success |
| Core.RunResult.TotalFailures | better_test/core.py:52-60 | `total_failures` is at most `total_results`, counts every expected failure and crashed executor, and is 0 exactly when those five lists are empty |
| Core.RunResult.Success | better_test/core.py:43-50 | `success` holds exactly when the only failures counted are expected ones; a crashed executor makes it false; a successful run's results are skips, expected failures and successes |
| Core.Summarize | better_test/core.py:125-139 | the returned `Result` has `total_results` = `testsRun` + failed executors; it succeeds iff there is no unexpected success, failure, error or crashed executor |
| Core.Weighted | better_test/core.py:99-102 | each label is weighted by `timings.get(label, 0)`, in order |
| Core.SelectChunks | better_test/core.py:90-111 | unknown modes raise `ValueError("Unknown mode: <mode>")`; PARALLEL with no processes and some labels raises StopIteration; every other case succeeds |
| Core.IsolatedChunks | better_test/core.py:90-94 | ISOLATED gives one singleton chunk per label, in label order |
| Core.StandardChunks | better_test/core.py:108-109 | STANDARD gives one chunk holding all labels |
| Core.ParallelChunks | better_test/core.py:95-107 | PARALLEL gives the first `min(processes, len(labels))` buckets of the weighted partition, none empty, together holding every label once |
| Core.ChunksCoverLabels | better_test/core.py:90-109 | in every accepted mode the chunks together hold each label exactly as often as the suite does |
| Command.LegacySuiteToLabels | better_test/management/commands/test.py:16-27 | one `module.Class.method` label per test, in order; a test without a method name raises AttributeError |
| Command.PySlice | better_test/management/commands/test.py:157-161 | Python slicing with the bounds clamped to the length |
| Command.ChunkSize | better_test/management/commands/test.py:152-155 | the chunk size is at least one |
| Command.EqualChunks | better_test/management/commands/test.py:152-161 | exactly `cpu_count` chunks, each before the last holding at most the chunk size |
| Command.EqualChunksShape | better_test/management/commands/test.py:156-161 | before filtering there are exactly `cpu_count` chunks, which laid end to end are the labels in order |
| Command.EqualChunksSizes | better_test/management/commands/test.py:153-161 | with at least as many labels as CPUs, the first `cpu_count-1` chunks hold `len // cpu_count` labels and the last the rest, never fewer |
| Command.LegacyChunks | better_test/management/commands/test.py:141-163 | None (Django's own command) exactly when there are no labels; isolation gives one singleton per label; `cpu_count` chunks when the chunk size is above 1 |
| Command.LegacyChunksCover | better_test/management/commands/test.py:143-163 | with no labels Django's own command runs; otherwise no chunk is empty, the chunks are the labels in order, and isolation gives singletons |
| Command.LegacyEncodeAsWritten | better_test/management/commands/test.py:281-327 | the event carries the method name and the `(str, shortDescription)` pair first |
| Command.LegacyEncode | better_test/management/commands/test.py:281-327 | as intended: the pair followed by the call's own arguments |
| Command.LegacySerialize | better_test/management/commands/test.py:281-327 | the `(str(test), shortDescription())` pair the workers queue, which `FakeTest(*test_info)` rebuilds into the test's two-field stand-in |
| Command.LegacyDeserialize | better_test/management/commands/test.py:333-346 | `FakeTest(*test_info)` succeeds exactly for a pair or a two-character string; a pair's stand-in answers `str` and shortDescription from it; anything else is TypeError |
| Command.LegacyDeserializeUnpacksString | better_test/management/commands/test.py:333-346 | a string unpacks into the stand-in exactly when it has two characters |
| Command.LegacyDecode | better_test/management/commands/test.py:89-95 | no arguments is IndexError; decoding succeeds iff the pair deserializes and the outcome method exists with a fitting argument count (a plain TextTestResult has no `registerTiming`), and then the call has the event's name, the stand-in and the remaining arguments |
| Command.LegacyRoundTrip | better_test/management/commands/test.py:333-346 | the command's `handle` (lines 89-95) makes the same call on a two-field FakeTest for every intended encoding |
| Command.LegacyEncodingsAgree | better_test/management/commands/test.py:281-327 | as written and as intended agree on every outcome except a skip |
| Command.LegacySkipLosesReason | better_test/management/commands/test.py:306-311 | a skip as written makes `handle` call `addSkip(fake_test)` without a reason, which raises TypeError |
| Command.LegacyApply | better_test/management/commands/test.py:240-247 | a failure adds one to `failures`, an error one to `errors`, nothing else touches those lists |
| Command.LegacyReplay | better_test/management/commands/test.py:81-103 | the command's `handle` loop in queue order: when every event decodes nothing raises, and failures and errors each grow by at most one per event |
| Command.ReturnCode | better_test/management/commands/test.py:236 | the argument passed to `sys.exit` is 0 exactly when there is no failure and no error |
| Command.ExitStatus | better_test/management/commands/test.py:236-237 | the status a POSIX parent sees after `sys.exit(code)` is below 256 and equals the code below 256 |
| Command.ExitStatusHidesFailures | better_test/management/commands/test.py:236-237 | as written, 256 failures give the same status 0 as a successful run |
| Command.IntendedExitStatus | better_test/management/commands/test.py:236-237 | as intended, the status is below 256, 0 exactly when there is no failure and no error, and the count itself when it fits |
| Command.ReturnCodeCountsFailures | better_test/management/commands/test.py:236 | in the intended encoding, replaying (the `handle` of lines 89-103) the workers' events never raises, and the `sys.exit` argument grows by the number of failures and errors reported |
| Command.LegacyEncodeAllAgree | better_test/management/commands/test.py:281-327 | without a skip, the events the workers queue as written are the intended ones |
| Command.LegacyEncodeAllAsWritten | better_test/management/commands/test.py:281-327 | one event per call, in order, each exactly as the command's worker queues it |
| Command.ReturnCodeCountsFailuresAsWritten | better_test/management/commands/test.py:236 | as written, when no test is skipped, replaying never raises and the `sys.exit` argument grows by the failures and errors reported |
| Command.Keep | better_test/management/commands/test.py:219-230 | an entry is shown exactly when its count is non-zero |
| Command.Summary | better_test/management/commands/test.py:211-236 | the entries built by the appends are the non-zero counts in order (failures and errors only when unsuccessful); the line is FAILED/OK followed by the entries or just the line end; the return code passed to `sys.exit` is failures + errors |
| Command.SummaryEntries | better_test/management/commands/test.py:211-236 | each count is shown iff non-zero, failures and errors only when unsuccessful; OK iff the `sys.exit` argument is 0 and nothing succeeded unexpectedly |

## Left out

- The process pool, `apply_async`, the task counter and the busy-poll loops of `wait_for_tests_to_finish` are concurrency. Only the per-event `handle` step and the replay of one worker's events in order are modelled. The interleaving of several workers on one queue is not modelled.
- `init_task` and the `QUEUE`/`COUNTER` globals are left out. A worker's queue is the `sent` list of `Parallel.WorkerResult`.
- `null_stdout`, all stream output (`printErrors`, the `Ran N tests in Xs` line, the separators) and `traceback.print_exc` are I/O. They are left out.
- Clocks: `time.time()` becomes the `now` parameter of `StartTest`/`StopTest`. Durations and timing weights are integers, since they are only subtracted, stored and compared. `Result.time_taken` is left out.
- Partition.SortDescending: float weights are not modelled, because the model uses integer weights.
- Command.ChunkSize: `int(float(n) / cpu_count)` is modelled as exact floor division. Float rounding above 2^53 labels is not modelled.
- The JSON timing database (`read_database`, `write_database`) and the `testinfo` command are file and stdout I/O.
- Django and unittest glue is left out: `get_test_runner`, `get_settings_dict`, `DisableMigrations`, the runtime `type(...)` runner subclass and the `run_tests` call in `executor`, `MultiProcessingTestRunner.run_suite`, `compat.py`, `setup.py`, `manage.py`.
- Django's own `test` command, which handles a run with nothing to run (`Command.LegacyChunks` returns None for it), is left out. So is the missing `return` after it at better_test/management/commands/test.py:118-119.
- The command's `multi_processing_runner_factory` (better_test/management/commands/test.py:30-39) and `run_tests` are left out. Each only sets keyword arguments and runs Django code that is not part of this model.
- The command's worker result methods each make one queue put. They are modelled by the encoding functions alone, not as a class.
- The unittest superclass methods are not part of this model. `addError`, `addFailure`, `addSkip`, `addExpectedFailure` and `addUnexpectedSuccess` are modelled as plain appends of the values they receive. The error text is the string the worker rendered.
- Command.WasSuccessful: follows unittest's `wasSuccessful` (no failure, no error, no unexpected success), which is not part of this model.
- Aggregator.CallNamed: only the methods events name are modelled. Any other attribute of the result object is treated as missing (AttributeError).
- Utils.SuiteToLabels: `result.addError` receives the live test with `qualname` set to `module.Class`. The model records its stand-in (qualname, `str`, shortDescription), which is all the aggregator reads.
- Parallel.PatchRunnerArgs: does not model the TypeError TextTestRunner raises when a caller passes `stream` or `resultclass` both positionally and by keyword. `Bound` reports the positional value.
- Core.RunResult: failed executors come from the pool, which is not part of this model. They are opaque values, and only their number matters.
- Parallel.PatchedNamesDistinct: holds for one configured name only. Two configs can end up on one database name, e.g. `db` in chunk 1 and `db_1` in chunk 0 (`Parallel.PatchedNamesCollideAcrossConfigs`).
- Parallel.Settings.PatchDatabaseNames: the configs are values, not shared dicts, so two aliases of one config dict, which the source suffixes twice (`db_1_1`), are each renamed once here. Names are strings, so the TypeError that `+=` raises for a NAME that is not a `str` (such as a `pathlib.Path`) is not modelled; the only error modelled is KeyError.
- The test files and harnesses under better_test/tests and better_test/harness are left out.

## Findings

| source | as written | input that shows it | evidently intended | confidence | as-written member | corrected member |
|---|---|---|---|---|---|---|
| better_test/management/commands/test.py:306-311 | the command's worker queues `addSkip` with the serialized test only and drops `reason` | any skipped test, e.g. `addSkip(test, "not ready")`: the parent calls `addSkip(fake_test)`, which lacks its required `reason` and raises TypeError, ending the run | queue `(pair, reason)` like every other one-argument outcome, as better_test/parallel.py:226-232 does | high; not executed | Command.LegacyEncodeAsWritten, Command.LegacySkipLosesReason | Command.LegacyEncode, Command.LegacyRoundTrip |
| better_test/management/commands/test.py:236-237 | `sys.exit(len(failures) + len(errors))`; a POSIX parent sees only the low 8 bits of the status | 256 failures and no error: `sys.exit(256)` ends the process with status 0, the status of a successful run | an exit status that is non-zero whenever a test failed or errored, e.g. the count capped at 255 | medium; not executed | Command.ExitStatus, Command.ExitStatusHidesFailures | Command.IntendedExitStatus |
