# Moray search-filter benchmarks, modelled in Dafny

The benchmarks exercise a Moray store's reindexing after a schema change. Each one does the following:
- It creates a bucket whose schema (version 0) indexes only `uuid`.
- It updates the schema to version 1, which adds indexes on a string, a boolean and a number field.
- It stores two cohorts of objects: sentinel values and non-sentinel values.
- It then searches each of the three fields for its sentinel value.

`benchmark-reindexed.js` always recreates the bucket and drains the reindex before it adds objects. `benchmark-unindexed.js` reuses a bucket that already exists and never reindexes. `lib/moray.js` holds the client-side logic the two share:
- the batched population;
- the reindex drain loop;
- record collection from a scan;
- the search check.

`lib/mocked-data.js` holds the sentinel and non-sentinel value tables.

The store, key generation and the scan's event stream are oracles. Their answers are input sequences, consumed in the order the client sees them. When a sequence runs out before an operation finishes, the result says so (`Unfinished`, `Pending`, `Stalled`). The JavaScript program would still be waiting at that point.

Modules:
- `Wrappers` (wrappers.dfy): `Option`, `Result` (with an assertion-failure case) and `Min`/`Max`.
- `Store` (store.dfy): values, objects, schemas, records, buckets and errors with their cause chains. It also holds `VError.findCauseByName` and how a value prints inside a string.
- `MockedData` (mocked_data.dfy): the two value tables.
- `Moray` (moray.dfy):
  - `addObjects`, as a method with waves of at most 100 puts, proved against the recursive specification `Populate`;
  - `reindexObjects`, as a loop proved against `Drain`;
  - `findObjectsWithFilter`, as a loop proved against `Collect`;
  - `searchForObjects`.
- `Benchmark` (benchmark.dfy): what both drivers share.
  - The store calls they make, and the `Context` class whose `bucket` field the pipeline functions update.
  - How a step's callback maps to the pipeline's next step.
  - The fail-fast pipeline with its single close. Its lemmas are stated over any list of functions.
- `ReindexedBenchmark` (benchmark_reindexed.dfy) and `UnindexedBenchmark` (benchmark_unindexed.dfy): each has:
  - the driver's constants and its cohort split;
  - one `RunStep` method per pipeline function, which mutates the context;
  - a `RunPipeline` loop;
  - the properties of a whole run: fail-fast, a single close, exactly when a run is all done, and the calls of such a run.

`benchmark-reindexed.js` drains the reindex right after the schema update (lines 166-174), before adding any object, and the model keeps that order.

Both drivers log the string search's expected value as `'foo'`, not the sentinel `'sentinel'`. That property check can never succeed against either cohort (`ExpectationsAgainstCohorts`). Since the check is only logged, the outcome of a run does not depend on it.

## Model

| member | source | states |
|---|---|---|
| Store.FindCauseByNameFound | benchmark-reindexed.js:129-131 | the cause lookup finds an error exactly when some error along the cause chain has the name |
| Store.FindCauseByNameFirst | benchmark-reindexed.js:129-131 | what the lookup returns has the name and is the first error along the chain with it |
| MockedData.SentinelValueForType | lib/mocked-data.js:3-16 | a value exactly for `string`, `boolean` and `number`, of the type named; any other name is an assertion failure `unsupported type: <name>` |
| MockedData.NonSentinelValueForType | lib/mocked-data.js:18-31 | the same contract as the sentinel table, for the non-sentinel table |
| MockedData.Tables | lib/mocked-data.js:3-31 | sentinel: `'sentinel'`, `true`, `42`; non-sentinel: `'nonSentinel'`, `false`, `24` |
| MockedData.SentinelDiffersFromNonSentinel | lib/mocked-data.js:6-12 | for every supported type, the sentinel value differs from the non-sentinel value |
| Moray.StoredInFull | lib/moray.js:53-55 | a range of puts stored every object exactly when none of them got an error |
| Moray.FirstFatalInSpec | lib/moray.js:41-51 | a range reports no error exactly when none of its replies is `InvalidIndexTypeError` or `UniqueAttributeError`; an error it reports is such a reply of the range |
| Moray.FatalNotStored | lib/moray.js:46-55 | a range with a fatal reply stored fewer objects than it issued puts |
| Moray.ObjectFor | lib/moray.js:35-37 | the stored object is the template plus `uuid` set to the put's key; every other field keeps the template's value |
| Moray.AddWave | lib/moray.js:29-60 | one wave: a fresh key and a put per slot; the counter grows by the puts stored; the wave's error is its first fatal reply |
| Moray.PopulateLoopResumes | lib/moray.js:18-70 | the loop's wave-by-wave run from any point equals the specification resumed from that point |
| Moray.AddObjects | lib/moray.js:7-71 | the run equals `Populate`; the puts are one per answer used, each storing the template under that answer's key |
| Moray.PopulateCounter | lib/moray.js:15-27 | starting at or below the target, the counter never decreases and never passes `nbObjects`; success exactly when it reaches `nbObjects`; a met target issues no put |
| Moray.CompletedStoresAll | lib/moray.js:24-27 | a completed population stored exactly the objects it was asked for |
| Moray.PopulateIssued | lib/moray.js:21-31 | a population never issues more puts than the answers it is given |
| Moray.PopulateCountsStored | lib/moray.js:53-55 | the counter grows by exactly the puts answered without error |
| Moray.PopulateWaveSizes | lib/moray.js:16-31 | every wave issues `min(nbObjects - created, 100)` puts: between 1 and 100, never more than still missing, storing at most that many |
| Moray.PopulateWaveChain | lib/moray.js:53-66 | each wave starts from the counter the previous one left, so slots lost to transient errors are asked for again; the run ends with the last counter |
| Moray.PopulateErrors | lib/moray.js:41-66 | an aborted run reports the first fatal reply of its last wave, with no fatal reply before it; any other run met no fatal reply |
| Moray.PopulateAllStored | lib/moray.js:18-31 | when every put succeeds, the run completes in full waves of 100 and a last wave with the remainder |
| Moray.PopulateThousand | lib/moray.js:16-31 | 1000 objects stored without error take ten waves of 100 |
| Moray.DistinctKeysStored | lib/moray.js:29-39 | with pairwise distinct keys, the puts have distinct keys and distinct objects |
| Moray.ReindexObjects | lib/moray.js:73-98 | the loop equals `Drain`; each call uses the same bucket and `reindexCount`, and a call still waiting for its answer is counted |
| Moray.DrainStopsAtFirstTerminal | lib/moray.js:80-95 | the loop stops at the first answer with an error or `remaining === 0`, passes that error on, and makes one call per answer up to it; when no answer ends it, one more call than answers has been sent |
| Moray.NegativeRemainingContinues | lib/moray.js:87-91 | a negative count is not 0, so the loop calls again |
| Moray.DrainTerminates | lib/moray.js:80-95 | when the remaining count strictly decreases, the loop ends within (first count + 1) calls |
| Moray.DrainFixture | lib/moray.js:80-95 | answers 300, 200, 100 and 0 drain the bucket in exactly four calls |
| Moray.CollectSpec | lib/moray.js:109-127 | the records are those emitted before the first end or error, in arrival order; the callback reports that event |
| Moray.FindObjectsWithFilter | lib/moray.js:100-128 | the query carries the filter, the required bucket version and `noLimit: true`; the result equals `Collect` |
| Moray.SomeHasPropertyIsExistential | lib/moray.js:171-176 | a property check holds exactly when at least one record carries the value |
| Moray.SearchForObjects | lib/moray.js:130-192 | a scan error is passed on; otherwise the search succeeds and only reports the count found, the expected count (0 when absent) and one existential check per expected property |
| Benchmark.Context.constructor | benchmark-reindexed.js:121 | a fresh context holds no bucket |
| Benchmark.AddObjectsStep | benchmark-reindexed.js:175-199 | the step runs `addObjects`; its outcome and calls are those of the population |
| Benchmark.ReindexStep | benchmark-reindexed.js:170-174 | the step runs `reindexObjects` with chunk size given; its outcome and calls are those of the drain |
| Benchmark.SearchStep | benchmark-reindexed.js:200-242 | the step runs `searchForObjects`; it makes one scan call and continues exactly when the scan ends |
| Benchmark.PipelineFromRan | benchmark-reindexed.js:123-243 | the pipeline runs a prefix of its functions in order, each on the context the previous one left, and stops at the first that does not continue |
| Benchmark.PipelineShape | benchmark-reindexed.js:123-243 | the same, from the first function and an empty context |
| Benchmark.PipelineReport | benchmark-reindexed.js:243-251 | the final callback reports success exactly when every function continued, and otherwise the last function's error |
| Benchmark.PipelineFromSucceeds | benchmark-reindexed.js:123-243 | when every remaining function succeeds, their calls follow one another; otherwise the run stops at a failing one |
| Benchmark.PipelineAllDone | benchmark-reindexed.js:123-251 | a run is all done exactly when every function succeeds in turn; its calls are theirs followed by one close |
| Benchmark.FinishClosesOnce | benchmark-reindexed.js:243-251 | the client is closed once, as the last call, exactly when the final callback runs, with success or with the failing step's error |
| ReindexedBenchmark.SchemaUpgrade | benchmark-reindexed.js:38-66 | version 1 keeps version 0's `uuid` index, adds exactly `reindexed_boolean`, `reindexed_string` and `reindexed_number` with those types, and raises the version from 0 to 1 |
| ReindexedBenchmark.SplitCohorts | benchmark-reindexed.js:98-106 | a split exactly when the total is at least 1: at least one sentinel, cohorts summing to the total, near halves; otherwise the non-sentinel assertion fails |
| ReindexedBenchmark.DefaultCohorts | benchmark-reindexed.js:93-106 | without `-n` the total is 1000, split 500/500 |
| ReindexedBenchmark.SentinelTexts | benchmark-reindexed.js:200-231 | the sentinel values concatenate into filters as `sentinel`, `true` and `42` |
| ReindexedBenchmark.StringFilterText | benchmark-reindexed.js:201-202 | the string search's filter is `(&(uuid=*)(reindexed_string=sentinel))` |
| ReindexedBenchmark.BooleanFilterText | benchmark-reindexed.js:216-217 | the boolean search's filter is `(&(uuid=*)(reindexed_boolean=true))` |
| ReindexedBenchmark.NumberFilterText | benchmark-reindexed.js:230-231 | the number search's filter is `(&(uuid=*)(reindexed_number=42))` |
| ReindexedBenchmark.RunStep | benchmark-reindexed.js:124-242 | each pipeline function, acting on the context's bucket, matches the step specification: fetch, delete when present, create at V0 asserting no bucket, update to V1, drain by 100, both cohorts, three searches |
| ReindexedBenchmark.RunPipeline | benchmark-reindexed.js:123-251 | the loop over the functions with fail-fast equals the pipeline specification and its single close |
| ReindexedBenchmark.RunBenchmark | benchmark-reindexed.js:93-251 | the count default and split, then the pipeline on a fresh context |
| ReindexedBenchmark.Ran | benchmark-reindexed.js:123-243 | a run executes a non-empty prefix of the ten functions in order, each on the bucket left before it, and every function but the last continued |
| ReindexedBenchmark.OnlyCreateThrows | benchmark-reindexed.js:158-159 | a function throws exactly when it is the create step and the context still holds a bucket |
| ReindexedBenchmark.DeleteClears | benchmark-reindexed.js:138-157 | the delete step clears the bucket on success; on a delete error the bucket stays |
| ReindexedBenchmark.NeverThrows | benchmark-reindexed.js:138-159 | the create step's assertion never fires in a run, because the delete step clears any bucket before it |
| ReindexedBenchmark.ThrowsOnlyOnBadCount | benchmark-reindexed.js:98-106 | a run throws exactly when the total is below 1, and then makes no call |
| ReindexedBenchmark.StepErrorFromStore | benchmark-reindexed.js:124-242 | an error a function passes on is one the store answered with |
| ReindexedBenchmark.FailedReportsStoreError | benchmark-reindexed.js:123-251 | a failed run reports a store error, from the last function run, and every earlier function continued |
| ReindexedBenchmark.StepNeverCloses | benchmark-reindexed.js:123-242 | no pipeline function closes the client |
| ReindexedBenchmark.ClosesOnce | benchmark-reindexed.js:243-244 | the client is closed as the last call exactly when the final callback runs, and never before |
| ReindexedBenchmark.AllDoneStoresCohorts | benchmark-reindexed.js:175-199 | a run that is all done stored both cohorts in full |
| ReindexedBenchmark.ExpectationsAgainstCohorts | benchmark-reindexed.js:175-242 | sentinel objects carry `true` and `42`, non-sentinel ones do not, and no object carries `'foo'` |
| ReindexedBenchmark.SucceedsHead | benchmark-reindexed.js:124-157 | fetch and delete succeed exactly when the bucket is found or missing by cause, and a found bucket is deleted without error |
| ReindexedBenchmark.SucceedsMiddle | benchmark-reindexed.js:158-174 | create, update and drain succeed exactly when the store accepts them and the drain ends at zero remaining |
| ReindexedBenchmark.SucceedsAdditions | benchmark-reindexed.js:175-199 | both population steps succeed exactly when both populations complete |
| ReindexedBenchmark.SucceedsSearches | benchmark-reindexed.js:200-242 | the three searches succeed exactly when each scan ends |
| ReindexedBenchmark.SucceedsIffAccepts | benchmark-reindexed.js:123-243 | every function succeeds exactly when the store accepts every call |
| ReindexedBenchmark.HeadCalls | benchmark-reindexed.js:124-157 | an accepted run first gets the bucket, then deletes it only when it was found |
| ReindexedBenchmark.MiddleCalls | benchmark-reindexed.js:158-174 | then it creates at V0, updates to V1, and makes one reindex call per drain answer |
| ReindexedBenchmark.AdditionCalls | benchmark-reindexed.js:175-199 | then it puts the sentinel cohort, then the non-sentinel cohort |
| ReindexedBenchmark.SearchCallOrder | benchmark-reindexed.js:200-242 | then it scans the string, boolean and number fields, in that order |
| ReindexedBenchmark.SucceedingCallOrder | benchmark-reindexed.js:123-244 | the calls of an accepted run, down to the close, are exactly that sequence |
| ReindexedBenchmark.AllDoneIff | benchmark-reindexed.js:123-251 | a run is all done exactly when the store accepts every call, and then makes exactly that sequence of calls |
| UnindexedBenchmark.SchemaUpgrade | benchmark-unindexed.js:17-45 | version 1 keeps version 0's `uuid` index, adds exactly the three `not_yet_reindexed_` fields with their types, and raises the version from 0 to 1 |
| UnindexedBenchmark.CohortSizes | benchmark-unindexed.js:46-52 | both cohorts hold 5000 objects, both > 0, summing to the total of 10000 |
| UnindexedBenchmark.SentinelValueForType | benchmark-unindexed.js:54-67 | the local sentinel table: a value of the named type for the three supported types, an assertion failure otherwise |
| UnindexedBenchmark.NonSentinelValueForType | benchmark-unindexed.js:69-82 | the local non-sentinel table, with the same contract |
| UnindexedBenchmark.TablesAgree | benchmark-unindexed.js:54-82 | the local tables return exactly what the shared tables return, for every type name |
| UnindexedBenchmark.SentinelTexts | benchmark-unindexed.js:155-190 | the sentinel values concatenate into filters as `sentinel`, `true` and `42` |
| UnindexedBenchmark.StringFilterText | benchmark-unindexed.js:156-157 | the string search's filter is `(&(uuid=*)(not_yet_reindexed_string=sentinel))` |
| UnindexedBenchmark.BooleanFilterText | benchmark-unindexed.js:173-174 | the boolean search's filter is `(&(uuid=*)(not_yet_reindexed_boolean=true))` |
| UnindexedBenchmark.NumberFilterText | benchmark-unindexed.js:189-190 | the number search's filter is `(&(uuid=*)(not_yet_reindexed_number=42))` |
| UnindexedBenchmark.RunStep | benchmark-unindexed.js:89-203 | each pipeline function, acting on the context's bucket, matches the step specification: fetch, then create, update and both cohorts only without a bucket, then three searches at bucket version 1 |
| UnindexedBenchmark.RunPipeline | benchmark-unindexed.js:88-212 | the loop over the functions with fail-fast equals the pipeline specification and its single close |
| UnindexedBenchmark.RunBenchmark | benchmark-unindexed.js:84-212 | the pipeline on a fresh context |
| UnindexedBenchmark.Ran | benchmark-unindexed.js:88-204 | a run executes a non-empty prefix of the eight functions in order, each on the bucket left before it, and every function but the last continued |
| UnindexedBenchmark.GetBucketContinues | benchmark-unindexed.js:89-100 | the fetch stores the bucket found, and continues exactly on success or when the error's own name is `BucketNotFoundError`; otherwise it passes the error on |
| UnindexedBenchmark.WrappedNotFoundStops | benchmark-unindexed.js:94-95 | an error that only wraps `BucketNotFoundError` stops this driver, where the reindexed driver's cause lookup continues |
| UnindexedBenchmark.OnlyGetSetsBucket | benchmark-unindexed.js:102-203 | no function other than the fetch changes the context's bucket |
| UnindexedBenchmark.ExistingBucketSkipsSetup | benchmark-unindexed.js:102-154 | with a bucket, create, update and both population steps continue without any call |
| UnindexedBenchmark.StepNeverThrows | benchmark-unindexed.js:89-203 | no pipeline function throws |
| UnindexedBenchmark.NeverThrows | benchmark-unindexed.js:88-212 | no run throws |
| UnindexedBenchmark.StepErrorFromStore | benchmark-unindexed.js:89-203 | an error a function passes on is one the store answered with |
| UnindexedBenchmark.FailedReportsStoreError | benchmark-unindexed.js:88-212 | a failed run reports a store error, from the last function run, and every earlier function continued |
| UnindexedBenchmark.StepNeverCloses | benchmark-unindexed.js:88-203 | no pipeline function closes the client |
| UnindexedBenchmark.ClosesOnce | benchmark-unindexed.js:204-205 | the client is closed as the last call exactly when the final callback runs, and never before |
| UnindexedBenchmark.ExpectationsAgainstCohorts | benchmark-unindexed.js:134-203 | sentinel objects carry `true` and `42`, non-sentinel ones do not, and no object carries `'foo'` |
| UnindexedBenchmark.SearchesText | benchmark-unindexed.js:155-203 | the three scans use the sentinel filters, `requiredBucketVersion: 1` and `noLimit: true` |
| UnindexedBenchmark.SucceedsSetup | benchmark-unindexed.js:102-154 | with a bucket the set-up functions succeed; without one, exactly when create and update are accepted and both populations complete |
| UnindexedBenchmark.SucceedsSearches | benchmark-unindexed.js:155-203 | the three searches succeed exactly when each scan ends |
| UnindexedBenchmark.SucceedsIffAccepts | benchmark-unindexed.js:88-204 | every function succeeds exactly when the store accepts every call |
| UnindexedBenchmark.SucceedingCallOrder | benchmark-unindexed.js:88-205 | an accepted run gets the bucket, sets it up only when it was missing, scans three times and closes |
| UnindexedBenchmark.AllDoneIff | benchmark-unindexed.js:88-212 | a run is all done exactly when the store accepts every call, and then makes exactly those calls |
| UnindexedBenchmark.FoundAllDoneCalls | benchmark-unindexed.js:102-154 | against an existing bucket, the calls of a run that is all done skip the whole set-up |
| UnindexedBenchmark.ExistingBucketOnlySearches | benchmark-unindexed.js:88-212 | against an existing bucket whose scans end, a run is all done and makes only the fetch, the three literal scans and the close |
| UnindexedBenchmark.AllDoneStoresCohorts | benchmark-unindexed.js:126-154 | a run that is all done against a missing bucket stored 5000 objects of each cohort |

## Left out

- The store client and its wire protocol are not modelled. This covers getBucket, deleteBucket, createBucket, updateBucket, putObject, reindexObjects, findObjects, connect and close. Their answers are inputs, and `Call` records the requests.
- vasync scheduling, `setImmediate` and real parallelism are left out. A wave settles in full before the next one starts. Its completions come in a given order.
- Moray.AddObjects: when the answers run out in the middle of a wave, the run is `Unfinished` and records none of that wave's puts. The program has already sent them all (lib/moray.js:29-39). Each key comes with its answer, so the model has no keys for the slots that were never answered. The same holds for the puts in a `Stalled` run's calls.
- Moray.AddObjects: where vasync would aggregate several fatal put errors into a `MultiError`, the model reports only the first fatal reply in completion order.
- libuuid key generation is an input: each put's key comes with its answer. Distinct keys are a hypothesis of `DistinctKeysStored`, not a derived fact.
- Node's event emitter is modelled only as an ordered sequence of record, end and error events.
- The store evaluates the LDAP-style filters, and that evaluation is left out. The model only builds the filter strings.
- The dashdash command line (`--help`, `-n` parsing), config.json, the bunyan logger and console text are left out. For `JSON.parse` of `--findobjectsopts`, the parsed options are a parameter of the reindexed run.
- The searches' console output (count found, property messages) is reported as data in `SearchLog`, not as text.
- ReindexedBenchmark.SplitCohorts: `nbobjects` is an integer. A fractional `-n` value, which `Math.floor` would round, is not modelled.
- ReindexedBenchmark.OnlyCreateThrows: the assertion's exception is a `Threw` report carrying a fixed message. Its assert-plus message text and process exit are not modelled.
- Moray.AddObjects: a negative `nbObjects` is modelled as `Spinning`, a run that never calls back. This matches the JavaScript, which keeps rescheduling empty waves. An oracle that runs out gives `Unfinished`, `DrainUnfinished` or `FindPending`, where the program would wait forever.
- MockedData.SentinelValueForType: a non-string argument, which `assert.string` rejects, cannot be expressed, since the argument is typed.
