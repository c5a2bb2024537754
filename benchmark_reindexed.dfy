/**
 * benchmark-reindexed.js: with a fresh bucket at version 0, add three fields
 * at version 1, reindex, store a sentinel cohort and a non-sentinel cohort,
 * then search each reindexed field for its sentinel value.
 */
module ReindexedBenchmark {
  import opened Wrappers
  import opened Store
  import opened MockedData
  import opened Moray
  import opened Benchmark

  const BENCHMARK_BUCKET_NAME: string := "moray_benchmark_reindexed"

  /** Version 0 of the bucket indexes only `uuid`. */
  const BENCHMARK_BUCKET_CFG_V0: Schema := Schema(map["uuid" := "string"], 0)

  /** Version 1 adds an index on each of the three reindexed fields. */
  const BENCHMARK_BUCKET_CFG_V1: Schema :=
    Schema(map["uuid" := "string", "reindexed_boolean" := "boolean",
               "reindexed_string" := "string", "reindexed_number" := "number"], 1)

  /**
   * The schema update keeps version 0's index on `uuid` as it is, adds exactly
   * the three typed fields, and raises the version from 0 to 1.
   */
  lemma SchemaUpgrade()
    ensures BENCHMARK_BUCKET_CFG_V0.version == 0 && BENCHMARK_BUCKET_CFG_V1.version == 1
    ensures forall f :: f in BENCHMARK_BUCKET_CFG_V0.index ==>
      f in BENCHMARK_BUCKET_CFG_V1.index && BENCHMARK_BUCKET_CFG_V1.index[f] == BENCHMARK_BUCKET_CFG_V0.index[f]
    ensures BENCHMARK_BUCKET_CFG_V1.index.Keys - BENCHMARK_BUCKET_CFG_V0.index.Keys
      == {"reindexed_boolean", "reindexed_string", "reindexed_number"}
    ensures BENCHMARK_BUCKET_CFG_V1.index["reindexed_boolean"] == "boolean"
    ensures BENCHMARK_BUCKET_CFG_V1.index["reindexed_string"] == "string"
    ensures BENCHMARK_BUCKET_CFG_V1.index["reindexed_number"] == "number"
  {
    var added := {"reindexed_boolean", "reindexed_string", "reindexed_number"};
    assert BENCHMARK_BUCKET_CFG_V0.index.Keys == {"uuid"};
    assert BENCHMARK_BUCKET_CFG_V1.index.Keys == {"uuid"} + added;
    assert "uuid" !in added by {
      assert forall f :: f in added ==> |f| != |"uuid"|;
    }
  }

  const DEFAULT_NB_TOTAL_OBJECTS: int := 1000

  /** Records reindexed per reindexObjects call. */
  const REINDEX_COUNT: int := 100

  /** The message of the assertion createBenchmarkBucket makes on the context. */
  const BUCKET_UNSET_MESSAGE: string := "ctx.bucket == undefined"

  /** The value of --nbobjects, or the default when it is not given. */
  function NbTotalObjects(nbobjects: Option<int>): int
  {
    if nbobjects.Some? then nbobjects.value else DEFAULT_NB_TOTAL_OBJECTS
  }

  /** How many objects each cohort holds. */
  datatype Cohorts = Cohorts(sentinel: nat, nonSentinel: nat)

  /**
   * The split of the total into cohorts: half of it rounded down, but at
   * least one, are sentinels; an assertion fails unless the rest is not
   * negative.
   */
  function SplitCohorts(total: int): (r: Result<Cohorts>)
    ensures r.Ok? <==> total >= 1
    ensures r.Ok? ==> r.value.sentinel >= 1 && r.value.sentinel + r.value.nonSentinel == total
    ensures r.Ok? && total >= 2 ==> r.value.sentinel <= r.value.nonSentinel <= r.value.sentinel + 1
    ensures total == 1 ==> r == Ok(Cohorts(1, 0))
    ensures r.AssertionFailed? ==> r.message == "NB_OBJECTS_NON_SENTINEL must be >= 0"
  {
    var sentinel := Max(total / 2, 1);
    var nonSentinel := total - sentinel;
    if nonSentinel >= 0 then Ok(Cohorts(sentinel, nonSentinel))
    else AssertionFailed("NB_OBJECTS_NON_SENTINEL must be >= 0")
  }

  /** The default run stores 500 objects in each cohort. */
  lemma DefaultCohorts()
    ensures SplitCohorts(NbTotalObjects(None)) == Ok(Cohorts(500, 500))
  {
  }

  /** The fields every object of a cohort carries besides its `uuid`. */
  function CohortTemplate(valueFor: string -> Result<Value>): Object
  {
    Benchmark.CohortTemplate("reindexed_string", "reindexed_number", "reindexed_boolean", valueFor)
  }

  function SentinelTemplate(): Object
  {
    CohortTemplate(SentinelValueForType)
  }

  function NonSentinelTemplate(): Object
  {
    CohortTemplate(NonSentinelValueForType)
  }

  /** The filter of a search: any uuid, and the field equal to its sentinel value. */
  function SearchFilter(field: string, typeName: string): string
  {
    EqualityFilter(field, ValueOr(SentinelValueForType(typeName)))
  }

  /** The sentinel values as text: the string itself, true, and 42. */
  lemma SentinelTexts()
    ensures ValueText(ValueOr(SentinelValueForType("string"))) == "sentinel"
    ensures ValueText(ValueOr(SentinelValueForType("boolean"))) == "true"
    ensures ValueText(ValueOr(SentinelValueForType("number"))) == "42"
  {
    MockedData.Tables();
    assert NatText(4) == "4";
    assert NatText(42) == NatText(4) + "2";
  }

  /** The filters as the store receives them: the sentinel value is written as text. */
  lemma StringFilterText()
    ensures SearchFilter("reindexed_string", "string") == "(&(uuid=*)(reindexed_string=sentinel))"
  {
    SentinelTexts();
  }

  lemma BooleanFilterText()
    ensures SearchFilter("reindexed_boolean", "boolean") == "(&(uuid=*)(reindexed_boolean=true))"
  {
    SentinelTexts();
  }

  lemma NumberFilterText()
    ensures SearchFilter("reindexed_number", "number") == "(&(uuid=*)(reindexed_number=42))"
  {
    SentinelTexts();
  }

  /** What a search expects: as many records as sentinels, and one field value. */
  function Expectation(cohorts: Cohorts, field: string, value: Value): ExpectedResults
  {
    ExpectedResults(Some(cohorts.sentinel), Some([ExpectedProperty(field, value)]))
  }

  /** The pipeline's functions. */
  datatype Step =
    | GetBenchmarkBucket
    | DeleteBenchmarkBucket
    | CreateBenchmarkBucket
    | UpdateBenchmarkBucket
    | ReindexBenchmarkObjects
    | AddSentinelObjects
    | AddNonSentinelObjects
    | SearchOnUnindexedString
    | SearchOnUnindexedBoolean
    | SearchOnUnindexedNumber

  const FUNCS: seq<Step> := [
    GetBenchmarkBucket, DeleteBenchmarkBucket, CreateBenchmarkBucket, UpdateBenchmarkBucket,
    ReindexBenchmarkObjects, AddSentinelObjects, AddNonSentinelObjects,
    SearchOnUnindexedString, SearchOnUnindexedBoolean, SearchOnUnindexedNumber]

  /** The store's answers to every call a run can make, in the order it makes them. */
  datatype Replies = Replies(
    getBucket: FetchReply,
    deleteBucket: Option<Error>,
    createBucket: Option<Error>,
    updateBucket: Option<Error>,
    reindex: seq<ReindexReply>,
    sentinelPuts: seq<Attempt>,
    nonSentinelPuts: seq<Attempt>,
    stringSearch: seq<FindEvent>,
    booleanSearch: seq<FindEvent>,
    numberSearch: seq<FindEvent>)

  /** Everything a pipeline run depends on. */
  datatype Setup = Setup(cohorts: Cohorts, findObjectsOptions: FindOptions, replies: Replies)

  /** One pipeline function, run on the bucket the context holds. */
  function StepSpec(step: Step, bucket: Option<Bucket>, setup: Setup): StepResult
  {
    var replies := setup.replies;
    var cohorts := setup.cohorts;
    match step
    case GetBenchmarkBucket =>
      var calls := [GetBucket(BENCHMARK_BUCKET_NAME)];
      (match replies.getBucket
       case Fetched(b) => StepResult(StepDone, Some(b), calls)
       case FetchFailed(e) =>
         var outcome := if FindCauseByName(e, "BucketNotFoundError").Some? then StepDone else StepFailed(e);
         StepResult(outcome, None, calls))
    case DeleteBenchmarkBucket =>
      if bucket.None? then StepResult(StepDone, None, [])
      else
        var calls := [DeleteBucket(BENCHMARK_BUCKET_NAME)];
        if replies.deleteBucket.None? then StepResult(StepDone, None, calls)
        else StepResult(StepFailed(replies.deleteBucket.value), bucket, calls)
    case CreateBenchmarkBucket =>
      if bucket.Some? then StepResult(StepAssertionFailed(BUCKET_UNSET_MESSAGE), bucket, [])
      else
        StepResult(CallbackOutcome(replies.createBucket), bucket,
                   [CreateBucket(BENCHMARK_BUCKET_NAME, BENCHMARK_BUCKET_CFG_V0)])
    case UpdateBenchmarkBucket =>
      StepResult(CallbackOutcome(replies.updateBucket), bucket,
                 [UpdateBucket(BENCHMARK_BUCKET_NAME, BENCHMARK_BUCKET_CFG_V1)])
    case ReindexBenchmarkObjects =>
      var run := Drain(replies.reindex);
      StepResult(DrainStepOutcome(run), bucket, ReindexCalls(BENCHMARK_BUCKET_NAME, REINDEX_COUNT, run.calls))
    case AddSentinelObjects =>
      StepResult(AddStepOutcome(Populate(cohorts.sentinel, replies.sentinelPuts)), bucket,
                 PopulationCalls(BENCHMARK_BUCKET_NAME, SentinelTemplate(), cohorts.sentinel, replies.sentinelPuts))
    case AddNonSentinelObjects =>
      StepResult(AddStepOutcome(Populate(cohorts.nonSentinel, replies.nonSentinelPuts)), bucket,
                 PopulationCalls(BENCHMARK_BUCKET_NAME, NonSentinelTemplate(), cohorts.nonSentinel, replies.nonSentinelPuts))
    case SearchOnUnindexedString =>
      StepResult(FindStepOutcome(Collect(replies.stringSearch).status), bucket,
                 SearchCalls(BENCHMARK_BUCKET_NAME, SearchFilter("reindexed_string", "string"), setup.findObjectsOptions))
    case SearchOnUnindexedBoolean =>
      StepResult(FindStepOutcome(Collect(replies.booleanSearch).status), bucket,
                 SearchCalls(BENCHMARK_BUCKET_NAME, SearchFilter("reindexed_boolean", "boolean"), setup.findObjectsOptions))
    case SearchOnUnindexedNumber =>
      StepResult(FindStepOutcome(Collect(replies.numberSearch).status), bucket,
                 SearchCalls(BENCHMARK_BUCKET_NAME, SearchFilter("reindexed_number", "number"), setup.findObjectsOptions))
  }

  /** One pipeline function on the context: it updates the context's bucket and calls next as StepSpec says. */
  method RunStep(step: Step, ctx: Context, setup: Setup) returns (outcome: StepOutcome, calls: seq<Call>)
    modifies ctx
    ensures StepResult(outcome, ctx.bucket, calls) == StepSpec(step, old(ctx.bucket), setup)
  {
    var replies := setup.replies;
    var cohorts := setup.cohorts;
    match step
    case GetBenchmarkBucket =>
      calls := [GetBucket(BENCHMARK_BUCKET_NAME)];
      match replies.getBucket {
        case Fetched(b) =>
          ctx.bucket := Some(b);
          outcome := StepDone;
        case FetchFailed(e) =>
          ctx.bucket := None;
          if FindCauseByName(e, "BucketNotFoundError").Some? {
            outcome := StepDone;
          } else {
            outcome := StepFailed(e);
          }
      }
    case DeleteBenchmarkBucket =>
      if ctx.bucket.None? {
        outcome, calls := StepDone, [];
        return;
      }
      calls := [DeleteBucket(BENCHMARK_BUCKET_NAME)];
      if replies.deleteBucket.None? {
        ctx.bucket := None;
        outcome := StepDone;
      } else {
        outcome := StepFailed(replies.deleteBucket.value);
      }
    case CreateBenchmarkBucket =>
      if ctx.bucket.Some? {
        outcome, calls := StepAssertionFailed(BUCKET_UNSET_MESSAGE), [];
        return;
      }
      calls := [CreateBucket(BENCHMARK_BUCKET_NAME, BENCHMARK_BUCKET_CFG_V0)];
      outcome := CallbackOutcome(replies.createBucket);
    case UpdateBenchmarkBucket =>
      calls := [UpdateBucket(BENCHMARK_BUCKET_NAME, BENCHMARK_BUCKET_CFG_V1)];
      outcome := CallbackOutcome(replies.updateBucket);
    case ReindexBenchmarkObjects =>
      outcome, calls := ReindexStep(BENCHMARK_BUCKET_NAME, REINDEX_COUNT, replies.reindex);
    case AddSentinelObjects =>
      outcome, calls := AddObjectsStep(BENCHMARK_BUCKET_NAME, SentinelTemplate(), cohorts.sentinel, replies.sentinelPuts);
    case AddNonSentinelObjects =>
      outcome, calls := AddObjectsStep(BENCHMARK_BUCKET_NAME, NonSentinelTemplate(), cohorts.nonSentinel, replies.nonSentinelPuts);
    case SearchOnUnindexedString =>
      outcome, calls := SearchStep(BENCHMARK_BUCKET_NAME, SearchFilter("reindexed_string", "string"),
                                   setup.findObjectsOptions, Expectation(cohorts, "reindexed_string", Str("foo")),
                                   replies.stringSearch);
    case SearchOnUnindexedBoolean =>
      outcome, calls := SearchStep(BENCHMARK_BUCKET_NAME, SearchFilter("reindexed_boolean", "boolean"),
                                   setup.findObjectsOptions, Expectation(cohorts, "reindexed_boolean", Bool(true)),
                                   replies.booleanSearch);
    case SearchOnUnindexedNumber =>
      outcome, calls := SearchStep(BENCHMARK_BUCKET_NAME, SearchFilter("reindexed_number", "number"),
                                   setup.findObjectsOptions, Expectation(cohorts, "reindexed_number", Num(42)),
                                   replies.numberSearch);
  }

  function StepFor(setup: Setup): (Step, Option<Bucket>) -> StepResult
  {
    (step, bucket) => StepSpec(step, bucket, setup)
  }

  /** The pipeline functions that run, from an empty context. */
  function Executed(setup: Setup): seq<StepResult>
  {
    Pipeline(FUNCS, StepFor(setup))
  }

  /** vasync.pipeline over FUNCS with the shared context, then the final callback. */
  method RunPipeline(ctx: Context, setup: Setup) returns (outcome: Outcome)
    modifies ctx
    requires ctx.bucket == None
    ensures outcome == Finish(Executed(setup))
  {
    ghost var target := Executed(setup);
    var executed: seq<StepResult> := [];
    var i := 0;
    while i < |FUNCS|
      invariant i <= |FUNCS|
      invariant PipelineFrom(FUNCS, StepFor(setup), i, ctx.bucket, executed) == target
      decreases |FUNCS| - i
    {
      ghost var before := ctx.bucket;
      var stepOutcome, calls := RunStep(FUNCS[i], ctx, setup);
      PipelineFromStep(FUNCS, StepFor(setup), i, before, executed, StepResult(stepOutcome, ctx.bucket, calls));
      executed := executed + [StepResult(stepOutcome, ctx.bucket, calls)];
      if stepOutcome != StepDone {
        outcome := Finish(executed);
        return;
      }
      i := i + 1;
    }
    outcome := Finish(executed);
  }

  /** A whole run: the cohort split, then the pipeline once connected. */
  function BenchmarkOutcome(nbobjects: Option<int>, findObjectsOptions: FindOptions, replies: Replies): Outcome
  {
    match SplitCohorts(NbTotalObjects(nbobjects))
    case AssertionFailed(message) => Outcome(Threw(message), [])
    case Ok(cohorts) => Finish(Executed(Setup(cohorts, findObjectsOptions, replies)))
  }

  method RunBenchmark(nbobjects: Option<int>, findObjectsOptions: FindOptions, replies: Replies)
    returns (outcome: Outcome)
    ensures outcome == BenchmarkOutcome(nbobjects, findObjectsOptions, replies)
  {
    var split := SplitCohorts(NbTotalObjects(nbobjects));
    if split.AssertionFailed? {
      return Outcome(Threw(split.message), []);
    }
    var ctx := new Context();
    outcome := RunPipeline(ctx, Setup(split.value, findObjectsOptions, replies));
  }

  // ---------------------------------------------------------------------------
  // Properties of a run
  // ---------------------------------------------------------------------------

  /** What ran: a prefix of FUNCS, each on the bucket the previous one left, all succeeding but the last. */
  lemma Ran(setup: Setup)
    ensures var executed := Executed(setup);
      && 0 < |executed| <= |FUNCS|
      && (forall j {:trigger FUNCS[j]} :: 0 <= j < |executed| ==>
            executed[j] == StepSpec(FUNCS[j], BucketBefore(executed, j), setup))
      && (forall j :: 0 <= j < |executed| - 1 ==> executed[j].outcome == StepDone)
      && (|executed| < |FUNCS| ==> executed[|executed| - 1].outcome != StepDone)
  {
    PipelineShape(FUNCS, StepFor(setup));
  }

  /** Only createBenchmarkBucket asserts, and only when the context still holds a bucket. */
  lemma OnlyCreateThrows(step: Step, bucket: Option<Bucket>, setup: Setup)
    ensures StepSpec(step, bucket, setup).outcome.StepAssertionFailed? <==>
      step == CreateBenchmarkBucket && bucket.Some?
  {
  }

  /** deleteBenchmarkBucket succeeds only with the context's bucket cleared. */
  lemma DeleteClears(bucket: Option<Bucket>, setup: Setup)
    ensures var r := StepSpec(DeleteBenchmarkBucket, bucket, setup);
      && (r.outcome == StepDone ==> r.bucket == None)
      && (r.outcome != StepDone ==> r.bucket == bucket && bucket.Some?)
  {
  }

  /**
   * The assertion of createBenchmarkBucket always holds: once the cohorts are
   * split, a run never throws.
   */
  lemma NeverThrows(setup: Setup)
    ensures !Finish(Executed(setup)).report.Threw?
  {
    Ran(setup);
    PipelineReport(FUNCS, StepFor(setup));
    var executed := Executed(setup);
    var k := |executed| - 1;
    assert executed[k] == StepSpec(FUNCS[k], BucketBefore(executed, k), setup);
    OnlyCreateThrows(FUNCS[k], BucketBefore(executed, k), setup);
    if k == 2 {
      assert executed[1] == StepSpec(FUNCS[1], BucketBefore(executed, 1), setup);
      DeleteClears(BucketBefore(executed, 1), setup);
    }
  }

  /** A run throws exactly when the object count leaves no sentinel cohort of at least one. */
  lemma ThrowsOnlyOnBadCount(nbobjects: Option<int>, findObjectsOptions: FindOptions, replies: Replies)
    ensures BenchmarkOutcome(nbobjects, findObjectsOptions, replies).report.Threw? <==> NbTotalObjects(nbobjects) < 1
    ensures NbTotalObjects(nbobjects) < 1 ==> BenchmarkOutcome(nbobjects, findObjectsOptions, replies).calls == []
  {
    var split := SplitCohorts(NbTotalObjects(nbobjects));
    if split.Ok? {
      NeverThrows(Setup(split.value, findObjectsOptions, replies));
    }
  }

  /** The store accepts every call of a run: the answers under which every pipeline function succeeds. */
  predicate StoreAccepts(setup: Setup)
  {
    var replies := setup.replies;
    && (replies.getBucket.FetchFailed? ==> FindCauseByName(replies.getBucket.error, "BucketNotFoundError").Some?)
    && (replies.getBucket.Fetched? ==> replies.deleteBucket.None?)
    && replies.createBucket.None?
    && replies.updateBucket.None?
    && Drain(replies.reindex).status == Drained
    && Populate(setup.cohorts.sentinel, replies.sentinelPuts).status == Completed
    && Populate(setup.cohorts.nonSentinel, replies.nonSentinelPuts).status == Completed
    && Collect(replies.stringSearch).status == FindEnded
    && Collect(replies.booleanSearch).status == FindEnded
    && Collect(replies.numberSearch).status == FindEnded
  }

  /** The errors the store can answer with that stop a run. */
  predicate StoreError(e: Error, setup: Setup)
  {
    var replies := setup.replies;
    || (replies.getBucket == FetchFailed(e) && FindCauseByName(e, "BucketNotFoundError").None?)
    || replies.deleteBucket == Some(e)
    || replies.createBucket == Some(e)
    || replies.updateBucket == Some(e)
    || Drain(replies.reindex).status == DrainFailed(e)
    || Populate(setup.cohorts.sentinel, replies.sentinelPuts).status == Aborted(e)
    || Populate(setup.cohorts.nonSentinel, replies.nonSentinelPuts).status == Aborted(e)
    || Collect(replies.stringSearch).status == FindErrored(e)
    || Collect(replies.booleanSearch).status == FindErrored(e)
    || Collect(replies.numberSearch).status == FindErrored(e)
  }

  /** A function that passes an error to next() passes one the store answered with. */
  lemma StepErrorFromStore(step: Step, bucket: Option<Bucket>, setup: Setup)
    ensures var r := StepSpec(step, bucket, setup);
      r.outcome.StepFailed? ==> StoreError(r.outcome.error, setup)
  {
  }

  /**
   * A run that reports an error reports the one the store answered to the
   * first function that failed; every function before it succeeded and none
   * after it ran.
   */
  lemma FailedReportsStoreError(setup: Setup)
    ensures var executed := Executed(setup);
      var report := Finish(executed).report;
      report.Failed? ==>
        && StoreError(report.error, setup)
        && executed[|executed| - 1].outcome == StepFailed(report.error)
        && forall j :: 0 <= j < |executed| - 1 ==> executed[j].outcome == StepDone
  {
    Ran(setup);
    PipelineReport(FUNCS, StepFor(setup));
    var executed := Executed(setup);
    var k := |executed| - 1;
    assert executed[k] == StepSpec(FUNCS[k], BucketBefore(executed, k), setup);
    StepErrorFromStore(FUNCS[k], BucketBefore(executed, k), setup);
  }

  /** No pipeline function closes the client. */
  lemma StepNeverCloses(step: Step, bucket: Option<Bucket>, setup: Setup)
    ensures NoClose(StepSpec(step, bucket, setup).calls)
  {
  }

  /**
   * The client is closed exactly when the final callback runs, that is when
   * the run is all done or reports an error, and then once, as the last call.
   */
  lemma ClosesOnce(setup: Setup)
    ensures var outcome := Finish(Executed(setup));
      && ((outcome.report.AllDone? || outcome.report.Failed?) <==>
            |outcome.calls| > 0 && outcome.calls[|outcome.calls| - 1] == Close)
      && forall j :: 0 <= j < |outcome.calls| - 1 ==> outcome.calls[j] != Close
  {
    Ran(setup);
    var executed := Executed(setup);
    forall k | 0 <= k < |executed|
      ensures NoClose(executed[k].calls)
    {
      assert executed[k] == StepSpec(FUNCS[k], BucketBefore(executed, k), setup);
      StepNeverCloses(FUNCS[k], BucketBefore(executed, k), setup);
    }
    FinishClosesOnce(executed);
  }

  /** A run that is all done stored both cohorts in full. */
  lemma AllDoneStoresCohorts(setup: Setup)
    requires Finish(Executed(setup)).report == AllDone
    ensures Populate(setup.cohorts.sentinel, setup.replies.sentinelPuts).created == setup.cohorts.sentinel
    ensures Populate(setup.cohorts.nonSentinel, setup.replies.nonSentinelPuts).created == setup.cohorts.nonSentinel
  {
    AllDoneIff(setup);
    CompletedStoresAll(setup.cohorts.sentinel, setup.replies.sentinelPuts);
    CompletedStoresAll(setup.cohorts.nonSentinel, setup.replies.nonSentinelPuts);
  }

  /**
   * What the searches' property checks can find among the stored objects:
   * every sentinel object carries the expected boolean and number and no
   * non-sentinel object does, but no object of either cohort carries the
   * expected string 'foo', since the sentinel string is 'sentinel'.
   */
  lemma ExpectationsAgainstCohorts(key: string)
    ensures var sentinel := Record(key, ObjectFor(SentinelTemplate(), key));
      var nonSentinel := Record(key, ObjectFor(NonSentinelTemplate(), key));
      && HasProperty(sentinel, "reindexed_boolean", Bool(true))
      && HasProperty(sentinel, "reindexed_number", Num(42))
      && !HasProperty(nonSentinel, "reindexed_boolean", Bool(true))
      && !HasProperty(nonSentinel, "reindexed_number", Num(42))
      && !HasProperty(sentinel, "reindexed_string", Str("foo"))
      && !HasProperty(nonSentinel, "reindexed_string", Str("foo"))
  {
    MockedData.Tables();
  }

  /** The calls of a run that is all done, in order, down to the last close. */
  function AllDoneCalls(setup: Setup): seq<Call>
  {
    var replies := setup.replies;
    var cohorts := setup.cohorts;
    var options := setup.findObjectsOptions;
    [GetBucket(BENCHMARK_BUCKET_NAME)]
    + ((if replies.getBucket.Fetched? then [DeleteBucket(BENCHMARK_BUCKET_NAME)] else [])
    + ([CreateBucket(BENCHMARK_BUCKET_NAME, BENCHMARK_BUCKET_CFG_V0)]
    + ([UpdateBucket(BENCHMARK_BUCKET_NAME, BENCHMARK_BUCKET_CFG_V1)]
    + (ReindexCalls(BENCHMARK_BUCKET_NAME, REINDEX_COUNT, Drain(replies.reindex).calls)
    + (PopulationCalls(BENCHMARK_BUCKET_NAME, SentinelTemplate(), cohorts.sentinel, replies.sentinelPuts)
    + (PopulationCalls(BENCHMARK_BUCKET_NAME, NonSentinelTemplate(), cohorts.nonSentinel, replies.nonSentinelPuts)
    + (SearchCalls(BENCHMARK_BUCKET_NAME, SearchFilter("reindexed_string", "string"), options)
    + (SearchCalls(BENCHMARK_BUCKET_NAME, SearchFilter("reindexed_boolean", "boolean"), options)
    + (SearchCalls(BENCHMARK_BUCKET_NAME, SearchFilter("reindexed_number", "number"), options)
    + [Close])))))))))
  }

  /** The first two functions succeed exactly when the bucket is found or missing and an existing one is deleted. */
  lemma SucceedsHead(setup: Setup)
    ensures var replies := setup.replies;
      SucceedsFrom(FUNCS, StepFor(setup), 0, None) <==>
        && (replies.getBucket.FetchFailed? ==> FindCauseByName(replies.getBucket.error, "BucketNotFoundError").Some?)
        && (replies.getBucket.Fetched? ==> replies.deleteBucket.None?)
        && SucceedsFrom(FUNCS, StepFor(setup), 2, None)
  {
    var f := StepFor(setup);
    var r0 := StepSpec(GetBenchmarkBucket, None, setup);
    var r1 := StepSpec(DeleteBenchmarkBucket, r0.bucket, setup);
    assert SucceedsFrom(FUNCS, f, 0, None) <==> r0.outcome == StepDone && SucceedsFrom(FUNCS, f, 1, r0.bucket);
    assert SucceedsFrom(FUNCS, f, 1, r0.bucket) <==> r1.outcome == StepDone && SucceedsFrom(FUNCS, f, 2, r1.bucket);
    assert r1.outcome == StepDone ==> r1.bucket == None;
  }

  /** The next three succeed, from a context without a bucket, exactly when the store creates, updates and reindexes. */
  lemma SucceedsMiddle(setup: Setup)
    ensures var replies := setup.replies;
      SucceedsFrom(FUNCS, StepFor(setup), 2, None) <==>
        && replies.createBucket.None?
        && replies.updateBucket.None?
        && Drain(replies.reindex).status == Drained
        && SucceedsFrom(FUNCS, StepFor(setup), 5, None)
  {
    var f := StepFor(setup);
    assert SucceedsFrom(FUNCS, f, 2, None) <==>
      f(FUNCS[2], None).outcome == StepDone && SucceedsFrom(FUNCS, f, 3, None);
    assert SucceedsFrom(FUNCS, f, 3, None) <==>
      f(FUNCS[3], None).outcome == StepDone && SucceedsFrom(FUNCS, f, 4, None);
    assert SucceedsFrom(FUNCS, f, 4, None) <==>
      f(FUNCS[4], None).outcome == StepDone && SucceedsFrom(FUNCS, f, 5, None);
  }

  /** The two additions succeed, from a context without a bucket, exactly when both cohorts are stored. */
  lemma SucceedsAdditions(setup: Setup)
    ensures var replies := setup.replies;
      SucceedsFrom(FUNCS, StepFor(setup), 5, None) <==>
        && Populate(setup.cohorts.sentinel, replies.sentinelPuts).status == Completed
        && Populate(setup.cohorts.nonSentinel, replies.nonSentinelPuts).status == Completed
        && SucceedsFrom(FUNCS, StepFor(setup), 7, None)
  {
    var f := StepFor(setup);
    assert SucceedsFrom(FUNCS, f, 5, None) <==>
      f(FUNCS[5], None).outcome == StepDone && SucceedsFrom(FUNCS, f, 6, None);
    assert SucceedsFrom(FUNCS, f, 6, None) <==>
      f(FUNCS[6], None).outcome == StepDone && SucceedsFrom(FUNCS, f, 7, None);
  }

  /** The three searches succeed, from a context without a bucket, exactly when every scan ends. */
  lemma SucceedsSearches(setup: Setup)
    ensures var replies := setup.replies;
      SucceedsFrom(FUNCS, StepFor(setup), 7, None) <==>
        && Collect(replies.stringSearch).status == FindEnded
        && Collect(replies.booleanSearch).status == FindEnded
        && Collect(replies.numberSearch).status == FindEnded
  {
    var f := StepFor(setup);
    assert SucceedsFrom(FUNCS, f, 7, None) <==>
      f(FUNCS[7], None).outcome == StepDone && SucceedsFrom(FUNCS, f, 8, None);
    assert SucceedsFrom(FUNCS, f, 8, None) <==>
      f(FUNCS[8], None).outcome == StepDone && SucceedsFrom(FUNCS, f, 9, None);
    assert SucceedsFrom(FUNCS, f, 9, None) <==>
      f(FUNCS[9], None).outcome == StepDone && SucceedsFrom(FUNCS, f, 10, None);
  }

  /** Every pipeline function succeeds in turn exactly when the store accepts every call. */
  lemma SucceedsIffAccepts(setup: Setup)
    ensures SucceedsFrom(FUNCS, StepFor(setup), 0, None) <==> StoreAccepts(setup)
  {
    SucceedsHead(setup);
    SucceedsMiddle(setup);
    SucceedsAdditions(setup);
    SucceedsSearches(setup);
  }

  /** When the store accepts every call, the first two functions get the bucket and delete it if it exists. */
  lemma AcceptedHeadSteps(setup: Setup)
    requires StoreAccepts(setup)
    ensures var get := setup.replies.getBucket;
      && StepFor(setup)(FUNCS[0], None)
        == StepResult(StepDone, if get.Fetched? then Some(get.bucket) else None, [GetBucket(BENCHMARK_BUCKET_NAME)])
      && StepFor(setup)(FUNCS[1], StepFor(setup)(FUNCS[0], None).bucket)
        == StepResult(StepDone, None, if get.Fetched? then [DeleteBucket(BENCHMARK_BUCKET_NAME)] else [])
  {
  }

  /** When the store accepts every call, the next three functions create, update and reindex the bucket. */
  lemma AcceptedMiddleSteps(setup: Setup)
    requires StoreAccepts(setup)
    ensures StepFor(setup)(FUNCS[2], None)
      == StepResult(StepDone, None, [CreateBucket(BENCHMARK_BUCKET_NAME, BENCHMARK_BUCKET_CFG_V0)])
    ensures StepFor(setup)(FUNCS[3], None)
      == StepResult(StepDone, None, [UpdateBucket(BENCHMARK_BUCKET_NAME, BENCHMARK_BUCKET_CFG_V1)])
    ensures StepFor(setup)(FUNCS[4], None)
      == StepResult(StepDone, None, ReindexCalls(BENCHMARK_BUCKET_NAME, REINDEX_COUNT, Drain(setup.replies.reindex).calls))
  {
  }

  /** When the store accepts every call, the two additions store both cohorts. */
  lemma AcceptedAdditionSteps(setup: Setup)
    requires StoreAccepts(setup)
    ensures StepFor(setup)(FUNCS[5], None) == StepResult(StepDone, None,
      PopulationCalls(BENCHMARK_BUCKET_NAME, SentinelTemplate(), setup.cohorts.sentinel, setup.replies.sentinelPuts))
    ensures StepFor(setup)(FUNCS[6], None) == StepResult(StepDone, None,
      PopulationCalls(BENCHMARK_BUCKET_NAME, NonSentinelTemplate(), setup.cohorts.nonSentinel, setup.replies.nonSentinelPuts))
  {
  }

  /** When the store accepts every call, the three searches each issue one scan. */
  lemma AcceptedSearchSteps(setup: Setup)
    requires StoreAccepts(setup)
    ensures var options := setup.findObjectsOptions;
      StepFor(setup)(FUNCS[7], None) == StepResult(StepDone, None,
        SearchCalls(BENCHMARK_BUCKET_NAME, SearchFilter("reindexed_string", "string"), options))
    ensures var options := setup.findObjectsOptions;
      StepFor(setup)(FUNCS[8], None) == StepResult(StepDone, None,
        SearchCalls(BENCHMARK_BUCKET_NAME, SearchFilter("reindexed_boolean", "boolean"), options))
    ensures var options := setup.findObjectsOptions;
      StepFor(setup)(FUNCS[9], None) == StepResult(StepDone, None,
        SearchCalls(BENCHMARK_BUCKET_NAME, SearchFilter("reindexed_number", "number"), options))
  {
  }

  /** When the store accepts every call, the run first gets the bucket and deletes it if it exists. */
  lemma HeadCalls(setup: Setup, tail: seq<Call>)
    requires StoreAccepts(setup)
    ensures SucceedingCalls(FUNCS, StepFor(setup), 0, None) + tail ==
      [GetBucket(BENCHMARK_BUCKET_NAME)]
      + ((if setup.replies.getBucket.Fetched? then [DeleteBucket(BENCHMARK_BUCKET_NAME)] else [])
      + (SucceedingCalls(FUNCS, StepFor(setup), 2, None) + tail))
  {
    var f := StepFor(setup);
    AcceptedHeadSteps(setup);
    SucceedingCallsCons(FUNCS, f, 0, None, tail);
    SucceedingCallsCons(FUNCS, f, 1, f(FUNCS[0], None).bucket, tail);
  }

  /** When the store accepts every call, the run next creates, updates and reindexes the bucket. */
  lemma MiddleCalls(setup: Setup, tail: seq<Call>)
    requires StoreAccepts(setup)
    ensures SucceedingCalls(FUNCS, StepFor(setup), 2, None) + tail ==
      [CreateBucket(BENCHMARK_BUCKET_NAME, BENCHMARK_BUCKET_CFG_V0)]
      + ([UpdateBucket(BENCHMARK_BUCKET_NAME, BENCHMARK_BUCKET_CFG_V1)]
      + (ReindexCalls(BENCHMARK_BUCKET_NAME, REINDEX_COUNT, Drain(setup.replies.reindex).calls)
      + (SucceedingCalls(FUNCS, StepFor(setup), 5, None) + tail)))
  {
    var f := StepFor(setup);
    AcceptedMiddleSteps(setup);
    SucceedingCallsCons(FUNCS, f, 2, None, tail);
    SucceedingCallsCons(FUNCS, f, 3, None, tail);
    SucceedingCallsCons(FUNCS, f, 4, None, tail);
  }

  /** When the store accepts every call, the run next stores the sentinel cohort and then the other one. */
  lemma AdditionCalls(setup: Setup, tail: seq<Call>)
    requires StoreAccepts(setup)
    ensures SucceedingCalls(FUNCS, StepFor(setup), 5, None) + tail ==
      PopulationCalls(BENCHMARK_BUCKET_NAME, SentinelTemplate(), setup.cohorts.sentinel, setup.replies.sentinelPuts)
      + (PopulationCalls(BENCHMARK_BUCKET_NAME, NonSentinelTemplate(), setup.cohorts.nonSentinel, setup.replies.nonSentinelPuts)
      + (SucceedingCalls(FUNCS, StepFor(setup), 7, None) + tail))
  {
    var f := StepFor(setup);
    AcceptedAdditionSteps(setup);
    SucceedingCallsCons(FUNCS, f, 5, None, tail);
    SucceedingCallsCons(FUNCS, f, 6, None, tail);
  }

  /** When the store accepts every call, the run ends with the three searches. */
  lemma SearchCallOrder(setup: Setup, tail: seq<Call>)
    requires StoreAccepts(setup)
    ensures var options := setup.findObjectsOptions;
      SucceedingCalls(FUNCS, StepFor(setup), 7, None) + tail ==
      SearchCalls(BENCHMARK_BUCKET_NAME, SearchFilter("reindexed_string", "string"), options)
      + (SearchCalls(BENCHMARK_BUCKET_NAME, SearchFilter("reindexed_boolean", "boolean"), options)
      + (SearchCalls(BENCHMARK_BUCKET_NAME, SearchFilter("reindexed_number", "number"), options)
      + tail))
  {
    var f := StepFor(setup);
    AcceptedSearchSteps(setup);
    SucceedingCallsCons(FUNCS, f, 7, None, tail);
    SucceedingCallsCons(FUNCS, f, 8, None, tail);
    SucceedingCallsCons(FUNCS, f, 9, None, tail);
    SucceedingCallsEnd(FUNCS, f, None, tail);
  }

  /** When the store accepts every call, the pipeline's calls are those of AllDoneCalls. */
  lemma SucceedingCallOrder(setup: Setup)
    requires StoreAccepts(setup)
    ensures SucceedingCalls(FUNCS, StepFor(setup), 0, None) + [Close] == AllDoneCalls(setup)
  {
    HeadCalls(setup, [Close]);
    MiddleCalls(setup, [Close]);
    AdditionCalls(setup, [Close]);
    SearchCallOrder(setup, [Close]);
  }

  /**
   * A run is all done exactly when the store accepts every call: the bucket
   * is found or missing, an existing one is deleted, the bucket is created and
   * updated, the reindex drains, both cohorts are stored in full, and all
   * three scans end. The run then gets or misses the bucket, deletes it if it
   * existed, creates it at version 0, updates it to version 1, reindexes,
   * stores the sentinel cohort and then the other one, runs the three
   * searches, and closes the client.
   */
  lemma AllDoneIff(setup: Setup)
    ensures Finish(Executed(setup)).report == AllDone <==> StoreAccepts(setup)
    ensures StoreAccepts(setup) ==> Finish(Executed(setup)).calls == AllDoneCalls(setup)
  {
    PipelineAllDone(FUNCS, StepFor(setup));
    SucceedsIffAccepts(setup);
    if StoreAccepts(setup) {
      SucceedingCallOrder(setup);
    }
  }
}
