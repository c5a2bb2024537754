/**
 * benchmark-unindexed.js: unless the bucket already exists, create it at
 * version 0 with only `uuid` indexed, add three indexes at version 1 without
 * reindexing, and store a sentinel cohort and a non-sentinel cohort; then, in
 * every case, search each not-yet-reindexed field for its sentinel value.
 */
module UnindexedBenchmark {
  import opened Wrappers
  import opened Store
  import MockedData
  import opened Moray
  import opened Benchmark
  import ReindexedBenchmark

  const BENCHMARK_BUCKET_NAME: string := "moray_benchmark_unindexed"

  /** Version 0 of the bucket indexes only `uuid`. */
  const BENCHMARK_BUCKET_CFG_V0: Schema := Schema(map["uuid" := "string"], 0)

  /** Version 1 adds an index on each of the three fields, which no reindex ever fills. */
  const BENCHMARK_BUCKET_CFG_V1: Schema :=
    Schema(map["uuid" := "string", "not_yet_reindexed_boolean" := "boolean",
               "not_yet_reindexed_string" := "string", "not_yet_reindexed_number" := "number"], 1)

  /**
   * The schema update keeps version 0's index on `uuid` as it is, adds exactly
   * the three typed fields, and raises the version from 0 to 1.
   */
  lemma SchemaUpgrade()
    ensures BENCHMARK_BUCKET_CFG_V0.version == 0 && BENCHMARK_BUCKET_CFG_V1.version == 1
    ensures forall f :: f in BENCHMARK_BUCKET_CFG_V0.index ==>
      f in BENCHMARK_BUCKET_CFG_V1.index && BENCHMARK_BUCKET_CFG_V1.index[f] == BENCHMARK_BUCKET_CFG_V0.index[f]
    ensures BENCHMARK_BUCKET_CFG_V1.index.Keys - BENCHMARK_BUCKET_CFG_V0.index.Keys
      == {"not_yet_reindexed_boolean", "not_yet_reindexed_string", "not_yet_reindexed_number"}
    ensures BENCHMARK_BUCKET_CFG_V1.index["not_yet_reindexed_boolean"] == "boolean"
    ensures BENCHMARK_BUCKET_CFG_V1.index["not_yet_reindexed_string"] == "string"
    ensures BENCHMARK_BUCKET_CFG_V1.index["not_yet_reindexed_number"] == "number"
  {
    var added := {"not_yet_reindexed_boolean", "not_yet_reindexed_string", "not_yet_reindexed_number"};
    assert BENCHMARK_BUCKET_CFG_V0.index.Keys == {"uuid"};
    assert BENCHMARK_BUCKET_CFG_V1.index.Keys == {"uuid"} + added;
    assert "uuid" !in added by {
      assert forall f :: f in added ==> |f| != |"uuid"|;
    }
  }

  const NB_TOTAL_OBJECTS: int := 10000

  const NB_OBJECTS_SENTINEL: int := NB_TOTAL_OBJECTS / 2

  const NB_OBJECTS_NON_SENTINEL: int := NB_TOTAL_OBJECTS / 2

  /** Every search requires version 1 of the bucket. */
  const FIND_OBJECTS_OPTIONS: FindOptions := FindOptions(Some(1))

  /** The assertions on the cohort sizes at load time always hold: each cohort holds half of the total. */
  lemma CohortSizes()
    ensures NB_OBJECTS_SENTINEL > 0 && NB_OBJECTS_NON_SENTINEL > 0
    ensures NB_OBJECTS_SENTINEL == NB_OBJECTS_NON_SENTINEL == 5000
    ensures NB_OBJECTS_SENTINEL + NB_OBJECTS_NON_SENTINEL == NB_TOTAL_OBJECTS
  {
  }

  /** This program's own table of sentinel values, keyed by type name. */
  function SentinelValueForType(typeName: string): (r: Result<Value>)
    ensures r.Ok? <==> MockedData.IsSupportedType(typeName)
    ensures r.Ok? ==> TypeOf(r.value) == typeName
    ensures r.AssertionFailed? ==> r.message == "unsupported type: " + typeName
  {
    match typeName
    case "string" => Ok(Str("sentinel"))
    case "boolean" => Ok(Bool(true))
    case "number" => Ok(Num(42))
    case _ => AssertionFailed("unsupported type: " + typeName)
  }

  /** This program's own table of non-sentinel values, keyed by type name. */
  function NonSentinelValueForType(typeName: string): (r: Result<Value>)
    ensures r.Ok? <==> MockedData.IsSupportedType(typeName)
    ensures r.Ok? ==> TypeOf(r.value) == typeName
    ensures r.AssertionFailed? ==> r.message == "unsupported type: " + typeName
  {
    match typeName
    case "string" => Ok(Str("nonSentinel"))
    case "boolean" => Ok(Bool(false))
    case "number" => Ok(Num(24))
    case _ => AssertionFailed("unsupported type: " + typeName)
  }

  /** The program's own tables agree with the shared ones of the mocked-data module, for every type name. */
  lemma TablesAgree(typeName: string)
    ensures SentinelValueForType(typeName) == MockedData.SentinelValueForType(typeName)
    ensures NonSentinelValueForType(typeName) == MockedData.NonSentinelValueForType(typeName)
  {
  }

  /** The fields every object of a cohort carries besides its `uuid`. */
  function CohortTemplate(valueFor: string -> Result<Value>): Object
  {
    Benchmark.CohortTemplate("not_yet_reindexed_string", "not_yet_reindexed_number", "not_yet_reindexed_boolean", valueFor)
  }

  function SentinelTemplate(): Object
  {
    CohortTemplate(SentinelValueForType)
  }

  function NonSentinelTemplate(): Object
  {
    CohortTemplate(NonSentinelValueForType)
  }

  /** The filter of a search: any uuid, and the field equal to its sentinel value. */
  function SearchFilter(field: string, typeName: string): string
  {
    EqualityFilter(field, ValueOr(SentinelValueForType(typeName)))
  }

  /** The sentinel values as text: the string itself, true, and 42. */
  lemma SentinelTexts()
    ensures ValueText(ValueOr(SentinelValueForType("string"))) == "sentinel"
    ensures ValueText(ValueOr(SentinelValueForType("boolean"))) == "true"
    ensures ValueText(ValueOr(SentinelValueForType("number"))) == "42"
  {
    assert SentinelValueForType("string") == Ok(Str("sentinel"));
    assert SentinelValueForType("boolean") == Ok(Bool(true));
    assert SentinelValueForType("number") == Ok(Num(42));
    assert NatText(4) == "4";
    assert NatText(42) == NatText(4) + "2";
  }

  /** The filters as the store receives them: the sentinel value is written as text. */
  lemma StringFilterText()
    ensures SearchFilter("not_yet_reindexed_string", "string") == "(&(uuid=*)(not_yet_reindexed_string=sentinel))"
  {
    SentinelTexts();
  }

  lemma BooleanFilterText()
    ensures SearchFilter("not_yet_reindexed_boolean", "boolean") == "(&(uuid=*)(not_yet_reindexed_boolean=true))"
  {
    SentinelTexts();
  }

  lemma NumberFilterText()
    ensures SearchFilter("not_yet_reindexed_number", "number") == "(&(uuid=*)(not_yet_reindexed_number=42))"
  {
    SentinelTexts();
  }

  /** What a search expects: as many records as sentinels, and one field value. */
  function Expectation(field: string, value: Value): ExpectedResults
  {
    ExpectedResults(Some(NB_OBJECTS_SENTINEL), Some([ExpectedProperty(field, value)]))
  }

  /** The pipeline's functions. */
  datatype Step =
    | GetBenchmarkBucket
    | CreateBenchmarkBucket
    | UpdateBenchmarkBucket
    | AddSentinelObjects
    | AddNonSentinelObjects
    | SearchOnUnindexedString
    | SearchOnUnindexedBoolean
    | SearchOnUnindexedNumber

  const FUNCS: seq<Step> := [
    GetBenchmarkBucket, CreateBenchmarkBucket, UpdateBenchmarkBucket,
    AddSentinelObjects, AddNonSentinelObjects,
    SearchOnUnindexedString, SearchOnUnindexedBoolean, SearchOnUnindexedNumber]

  /** The store's answers to every call a run can make, in the order it makes them. */
  datatype Replies = Replies(
    getBucket: FetchReply,
    createBucket: Option<Error>,
    updateBucket: Option<Error>,
    sentinelPuts: seq<Attempt>,
    nonSentinelPuts: seq<Attempt>,
    stringSearch: seq<FindEvent>,
    booleanSearch: seq<FindEvent>,
    numberSearch: seq<FindEvent>)

  /** The bucket getBenchmarkBucket leaves in the context: the one found, or none. */
  function FoundBucket(reply: FetchReply): Option<Bucket>
  {
    if reply.Fetched? then Some(reply.bucket) else None
  }

  /**
   * One pipeline function, run on the bucket the context holds. Only the
   * error's own name is compared with BucketNotFoundError, not its causes;
   * the set-up functions do nothing when the bucket exists.
   */
  function StepSpec(step: Step, bucket: Option<Bucket>, replies: Replies): StepResult
  {
    match step
    case GetBenchmarkBucket =>
      var calls := [GetBucket(BENCHMARK_BUCKET_NAME)];
      (match replies.getBucket
       case Fetched(b) => StepResult(StepDone, Some(b), calls)
       case FetchFailed(e) =>
         var outcome := if e.name == "BucketNotFoundError" then StepDone else StepFailed(e);
         StepResult(outcome, None, calls))
    case CreateBenchmarkBucket =>
      if bucket.Some? then StepResult(StepDone, bucket, [])
      else
        StepResult(CallbackOutcome(replies.createBucket), bucket,
                   [CreateBucket(BENCHMARK_BUCKET_NAME, BENCHMARK_BUCKET_CFG_V0)])
    case UpdateBenchmarkBucket =>
      if bucket.Some? then StepResult(StepDone, bucket, [])
      else
        StepResult(CallbackOutcome(replies.updateBucket), bucket,
                   [UpdateBucket(BENCHMARK_BUCKET_NAME, BENCHMARK_BUCKET_CFG_V1)])
    case AddSentinelObjects =>
      if bucket.Some? then StepResult(StepDone, bucket, [])
      else
        StepResult(AddStepOutcome(Populate(NB_OBJECTS_SENTINEL, replies.sentinelPuts)), bucket,
                   PopulationCalls(BENCHMARK_BUCKET_NAME, SentinelTemplate(), NB_OBJECTS_SENTINEL, replies.sentinelPuts))
    case AddNonSentinelObjects =>
      if bucket.Some? then StepResult(StepDone, bucket, [])
      else
        StepResult(AddStepOutcome(Populate(NB_OBJECTS_NON_SENTINEL, replies.nonSentinelPuts)), bucket,
                   PopulationCalls(BENCHMARK_BUCKET_NAME, NonSentinelTemplate(), NB_OBJECTS_NON_SENTINEL, replies.nonSentinelPuts))
    case SearchOnUnindexedString =>
      StepResult(FindStepOutcome(Collect(replies.stringSearch).status), bucket,
                 SearchCalls(BENCHMARK_BUCKET_NAME, SearchFilter("not_yet_reindexed_string", "string"), FIND_OBJECTS_OPTIONS))
    case SearchOnUnindexedBoolean =>
      StepResult(FindStepOutcome(Collect(replies.booleanSearch).status), bucket,
                 SearchCalls(BENCHMARK_BUCKET_NAME, SearchFilter("not_yet_reindexed_boolean", "boolean"), FIND_OBJECTS_OPTIONS))
    case SearchOnUnindexedNumber =>
      StepResult(FindStepOutcome(Collect(replies.numberSearch).status), bucket,
                 SearchCalls(BENCHMARK_BUCKET_NAME, SearchFilter("not_yet_reindexed_number", "number"), FIND_OBJECTS_OPTIONS))
  }

  /** One pipeline function on the context: it updates the context's bucket and calls next as StepSpec says. */
  method RunStep(step: Step, ctx: Context, replies: Replies) returns (outcome: StepOutcome, calls: seq<Call>)
    modifies ctx
    ensures StepResult(outcome, ctx.bucket, calls) == StepSpec(step, old(ctx.bucket), replies)
  {
    if step.GetBenchmarkBucket? {
      calls := [GetBucket(BENCHMARK_BUCKET_NAME)];
      match replies.getBucket {
        case Fetched(b) =>
          ctx.bucket := Some(b);
          outcome := StepDone;
        case FetchFailed(e) =>
          ctx.bucket := None;
          if e.name == "BucketNotFoundError" {
            outcome := StepDone;
          } else {
            outcome := StepFailed(e);
          }
      }
      return;
    }
    if ctx.bucket.Some? && (step.CreateBenchmarkBucket? || step.UpdateBenchmarkBucket? ||
                            step.AddSentinelObjects? || step.AddNonSentinelObjects?) {
      outcome, calls := StepDone, [];
      return;
    }
    match step
    case CreateBenchmarkBucket =>
      calls := [CreateBucket(BENCHMARK_BUCKET_NAME, BENCHMARK_BUCKET_CFG_V0)];
      outcome := CallbackOutcome(replies.createBucket);
    case UpdateBenchmarkBucket =>
      calls := [UpdateBucket(BENCHMARK_BUCKET_NAME, BENCHMARK_BUCKET_CFG_V1)];
      outcome := CallbackOutcome(replies.updateBucket);
    case AddSentinelObjects =>
      outcome, calls := AddObjectsStep(BENCHMARK_BUCKET_NAME, SentinelTemplate(), NB_OBJECTS_SENTINEL, replies.sentinelPuts);
    case AddNonSentinelObjects =>
      outcome, calls := AddObjectsStep(BENCHMARK_BUCKET_NAME, NonSentinelTemplate(), NB_OBJECTS_NON_SENTINEL,
                                       replies.nonSentinelPuts);
    case SearchOnUnindexedString =>
      outcome, calls := SearchStep(BENCHMARK_BUCKET_NAME, SearchFilter("not_yet_reindexed_string", "string"),
                                   FIND_OBJECTS_OPTIONS, Expectation("not_yet_reindexed_string", Str("foo")),
                                   replies.stringSearch);
    case SearchOnUnindexedBoolean =>
      outcome, calls := SearchStep(BENCHMARK_BUCKET_NAME, SearchFilter("not_yet_reindexed_boolean", "boolean"),
                                   FIND_OBJECTS_OPTIONS, Expectation("not_yet_reindexed_boolean", Bool(true)),
                                   replies.booleanSearch);
    case SearchOnUnindexedNumber =>
      outcome, calls := SearchStep(BENCHMARK_BUCKET_NAME, SearchFilter("not_yet_reindexed_number", "number"),
                                   FIND_OBJECTS_OPTIONS, Expectation("not_yet_reindexed_number", Num(42)),
                                   replies.numberSearch);
  }

  function StepFor(replies: Replies): (Step, Option<Bucket>) -> StepResult
  {
    (step, bucket) => StepSpec(step, bucket, replies)
  }

  /** The pipeline functions that run, from an empty context. */
  function Executed(replies: Replies): seq<StepResult>
  {
    Pipeline(FUNCS, StepFor(replies))
  }

  /** vasync.pipeline over FUNCS with the shared context, then the final callback. */
  method RunPipeline(ctx: Context, replies: Replies) returns (outcome: Outcome)
    modifies ctx
    requires ctx.bucket == None
    ensures outcome == Finish(Executed(replies))
  {
    ghost var target := Executed(replies);
    var executed: seq<StepResult> := [];
    var i := 0;
    while i < |FUNCS|
      invariant i <= |FUNCS|
      invariant PipelineFrom(FUNCS, StepFor(replies), i, ctx.bucket, executed) == target
      decreases |FUNCS| - i
    {
      ghost var before := ctx.bucket;
      var stepOutcome, calls := RunStep(FUNCS[i], ctx, replies);
      PipelineFromStep(FUNCS, StepFor(replies), i, before, executed, StepResult(stepOutcome, ctx.bucket, calls));
      executed := executed + [StepResult(stepOutcome, ctx.bucket, calls)];
      if stepOutcome != StepDone {
        outcome := Finish(executed);
        return;
      }
      i := i + 1;
    }
    outcome := Finish(executed);
  }

  /** A whole run, once connected: the pipeline on an empty context. */
  method RunBenchmark(replies: Replies) returns (outcome: Outcome)
    ensures outcome == Finish(Executed(replies))
  {
    var ctx := new Context();
    outcome := RunPipeline(ctx, replies);
  }

  // ---------------------------------------------------------------------------
  // Properties of a run
  // ---------------------------------------------------------------------------

  /** What ran: a prefix of FUNCS, each on the bucket the previous one left, all succeeding but the last. */
  lemma Ran(replies: Replies)
    ensures var executed := Executed(replies);
      && 0 < |executed| <= |FUNCS|
      && (forall j {:trigger FUNCS[j]} :: 0 <= j < |executed| ==>
            executed[j] == StepSpec(FUNCS[j], BucketBefore(executed, j), replies))
      && (forall j :: 0 <= j < |executed| - 1 ==> executed[j].outcome == StepDone)
      && (|executed| < |FUNCS| ==> executed[|executed| - 1].outcome != StepDone)
  {
    PipelineShape(FUNCS, StepFor(replies));
  }

  /**
   * getBenchmarkBucket goes on exactly when the bucket is found or the
   * error itself is named BucketNotFoundError; it leaves the found bucket,
   * or none, in the context.
   */
  lemma GetBucketContinues(bucket: Option<Bucket>, replies: Replies)
    ensures var r := StepSpec(GetBenchmarkBucket, bucket, replies);
      && r.bucket == FoundBucket(replies.getBucket)
      && (r.outcome == StepDone <==>
            replies.getBucket.Fetched? || replies.getBucket.error.name == "BucketNotFoundError")
      && (r.outcome != StepDone ==> r.outcome == StepFailed(replies.getBucket.error))
  {
  }

  /**
   * Unlike the reindex benchmark's, this getBenchmarkBucket ignores the
   * error's causes: an error that merely wraps a BucketNotFoundError stops
   * this run, while the other benchmark treats it as a missing bucket.
   */
  lemma WrappedNotFoundStops(bucket: Option<Bucket>, replies: Replies, rs: ReindexedBenchmark.Setup)
    requires replies.getBucket == FetchFailed(Error("WError", Some(Error("BucketNotFoundError", None))))
    requires rs.replies.getBucket == replies.getBucket
    ensures StepSpec(GetBenchmarkBucket, bucket, replies).outcome.StepFailed?
    ensures ReindexedBenchmark.StepSpec(ReindexedBenchmark.GetBenchmarkBucket, bucket, rs).outcome == StepDone
  {
    assert FindCauseByName(Error("BucketNotFoundError", None), "BucketNotFoundError").Some?;
  }

  /** Only getBenchmarkBucket changes the context's bucket. */
  lemma OnlyGetSetsBucket(step: Step, bucket: Option<Bucket>, replies: Replies)
    requires step != GetBenchmarkBucket
    ensures StepSpec(step, bucket, replies).bucket == bucket
  {
  }

  /** When the bucket exists, creating, updating and both additions do nothing and go on. */
  lemma ExistingBucketSkipsSetup(step: Step, bucket: Option<Bucket>, replies: Replies)
    requires bucket.Some?
    requires step in {CreateBenchmarkBucket, UpdateBenchmarkBucket, AddSentinelObjects, AddNonSentinelObjects}
    ensures StepSpec(step, bucket, replies) == StepResult(StepDone, bucket, [])
  {
  }

  /** No pipeline function throws. */
  lemma StepNeverThrows(step: Step, bucket: Option<Bucket>, replies: Replies)
    ensures !StepSpec(step, bucket, replies).outcome.StepAssertionFailed?
  {
  }

  /** A run never throws. */
  lemma NeverThrows(replies: Replies)
    ensures !Finish(Executed(replies)).report.Threw?
  {
    Ran(replies);
    PipelineReport(FUNCS, StepFor(replies));
    var executed := Executed(replies);
    var k := |executed| - 1;
    assert executed[k] == StepSpec(FUNCS[k], BucketBefore(executed, k), replies);
    StepNeverThrows(FUNCS[k], BucketBefore(executed, k), replies);
  }

  /**
   * The store accepts every call of a run: the answers under which every
   * pipeline function succeeds. The bucket is found, or missing and then
   * created, updated and filled with both cohorts; all three scans end.
   */
  predicate StoreAccepts(replies: Replies)
  {
    && (replies.getBucket.FetchFailed? ==>
          && replies.getBucket.error.name == "BucketNotFoundError"
          && replies.createBucket.None?
          && replies.updateBucket.None?
          && Populate(NB_OBJECTS_SENTINEL, replies.sentinelPuts).status == Completed
          && Populate(NB_OBJECTS_NON_SENTINEL, replies.nonSentinelPuts).status == Completed)
    && Collect(replies.stringSearch).status == FindEnded
    && Collect(replies.booleanSearch).status == FindEnded
    && Collect(replies.numberSearch).status == FindEnded
  }

  /** The errors the store can answer with that stop a run. */
  predicate StoreError(e: Error, replies: Replies)
  {
    || (replies.getBucket == FetchFailed(e) && e.name != "BucketNotFoundError")
    || replies.createBucket == Some(e)
    || replies.updateBucket == Some(e)
    || Populate(NB_OBJECTS_SENTINEL, replies.sentinelPuts).status == Aborted(e)
    || Populate(NB_OBJECTS_NON_SENTINEL, replies.nonSentinelPuts).status == Aborted(e)
    || Collect(replies.stringSearch).status == FindErrored(e)
    || Collect(replies.booleanSearch).status == FindErrored(e)
    || Collect(replies.numberSearch).status == FindErrored(e)
  }

  /** A function that passes an error to next() passes one the store answered with. */
  lemma StepErrorFromStore(step: Step, bucket: Option<Bucket>, replies: Replies)
    ensures var r := StepSpec(step, bucket, replies);
      r.outcome.StepFailed? ==> StoreError(r.outcome.error, replies)
  {
  }

  /**
   * A run that reports an error reports the one the store answered to the
   * first function that failed; every function before it succeeded and none
   * after it ran.
   */
  lemma FailedReportsStoreError(replies: Replies)
    ensures var executed := Executed(replies);
      var report := Finish(executed).report;
      report.Failed? ==>
        && StoreError(report.error, replies)
        && executed[|executed| - 1].outcome == StepFailed(report.error)
        && forall j :: 0 <= j < |executed| - 1 ==> executed[j].outcome == StepDone
  {
    Ran(replies);
    PipelineReport(FUNCS, StepFor(replies));
    var executed := Executed(replies);
    var k := |executed| - 1;
    assert executed[k] == StepSpec(FUNCS[k], BucketBefore(executed, k), replies);
    StepErrorFromStore(FUNCS[k], BucketBefore(executed, k), replies);
  }

  /** No pipeline function closes the client. */
  lemma StepNeverCloses(step: Step, bucket: Option<Bucket>, replies: Replies)
    ensures NoClose(StepSpec(step, bucket, replies).calls)
  {
  }

  /**
   * The client is closed exactly when the final callback runs, that is when
   * the run is all done or reports an error, and then once, as the last call.
   */
  lemma ClosesOnce(replies: Replies)
    ensures var outcome := Finish(Executed(replies));
      && ((outcome.report.AllDone? || outcome.report.Failed?) <==>
            |outcome.calls| > 0 && outcome.calls[|outcome.calls| - 1] == Close)
      && forall j :: 0 <= j < |outcome.calls| - 1 ==> outcome.calls[j] != Close
  {
    Ran(replies);
    var executed := Executed(replies);
    forall k | 0 <= k < |executed|
      ensures NoClose(executed[k].calls)
    {
      assert executed[k] == StepSpec(FUNCS[k], BucketBefore(executed, k), replies);
      StepNeverCloses(FUNCS[k], BucketBefore(executed, k), replies);
    }
    FinishClosesOnce(executed);
  }

  /**
   * What the searches' property checks can find among the stored objects:
   * every sentinel object carries the expected boolean and number and no
   * non-sentinel object does, but no object of either cohort carries the
   * expected string 'foo', since the sentinel string is 'sentinel'.
   */
  lemma ExpectationsAgainstCohorts(key: string)
    ensures var sentinel := Record(key, ObjectFor(SentinelTemplate(), key));
      var nonSentinel := Record(key, ObjectFor(NonSentinelTemplate(), key));
      && HasProperty(sentinel, "not_yet_reindexed_boolean", Bool(true))
      && HasProperty(sentinel, "not_yet_reindexed_number", Num(42))
      && !HasProperty(nonSentinel, "not_yet_reindexed_boolean", Bool(true))
      && !HasProperty(nonSentinel, "not_yet_reindexed_number", Num(42))
      && !HasProperty(sentinel, "not_yet_reindexed_string", Str("foo"))
      && !HasProperty(nonSentinel, "not_yet_reindexed_string", Str("foo"))
  {
    assert SentinelValueForType("string") == Ok(Str("sentinel"));
    assert NonSentinelValueForType("string") == Ok(Str("nonSentinel"));
  }

  // ---------------------------------------------------------------------------
  // Runs that are all done
  // ---------------------------------------------------------------------------

  /** The calls that set the bucket up when it is missing: create, update, then both cohorts. */
  function SetupCalls(replies: Replies): seq<Call>
  {
    [CreateBucket(BENCHMARK_BUCKET_NAME, BENCHMARK_BUCKET_CFG_V0)]
    + ([UpdateBucket(BENCHMARK_BUCKET_NAME, BENCHMARK_BUCKET_CFG_V1)]
    + (PopulationCalls(BENCHMARK_BUCKET_NAME, SentinelTemplate(), NB_OBJECTS_SENTINEL, replies.sentinelPuts)
    + PopulationCalls(BENCHMARK_BUCKET_NAME, NonSentinelTemplate(), NB_OBJECTS_NON_SENTINEL, replies.nonSentinelPuts)))
  }

  /** The three scans, one per field. */
  function SearchesCalls(): seq<Call>
  {
    SearchCalls(BENCHMARK_BUCKET_NAME, SearchFilter("not_yet_reindexed_string", "string"), FIND_OBJECTS_OPTIONS)
    + (SearchCalls(BENCHMARK_BUCKET_NAME, SearchFilter("not_yet_reindexed_boolean", "boolean"), FIND_OBJECTS_OPTIONS)
    + SearchCalls(BENCHMARK_BUCKET_NAME, SearchFilter("not_yet_reindexed_number", "number"), FIND_OBJECTS_OPTIONS))
  }

  /** The three scans as the store receives them. */
  lemma SearchesText()
    ensures SearchesCalls() ==
      [FindObjects(FindRequest(BENCHMARK_BUCKET_NAME, "(&(uuid=*)(not_yet_reindexed_string=sentinel))", Some(1), true)),
       FindObjects(FindRequest(BENCHMARK_BUCKET_NAME, "(&(uuid=*)(not_yet_reindexed_boolean=true))", Some(1), true)),
       FindObjects(FindRequest(BENCHMARK_BUCKET_NAME, "(&(uuid=*)(not_yet_reindexed_number=42))", Some(1), true))]
  {
    StringFilterText();
    BooleanFilterText();
    NumberFilterText();
  }

  /** The calls of a run that is all done, in order, down to the last close. */
  function AllDoneCalls(replies: Replies): seq<Call>
  {
    [GetBucket(BENCHMARK_BUCKET_NAME)]
    + ((if replies.getBucket.Fetched? then [] else SetupCalls(replies))
    + (SearchesCalls() + [Close]))
  }

  /** The set-up functions succeed, on the bucket getBenchmarkBucket left, exactly when the store accepts their calls. */
  lemma SucceedsSetup(replies: Replies, bucket: Option<Bucket>)
    ensures SucceedsFrom(FUNCS, StepFor(replies), 1, bucket) <==>
      && (bucket.None? ==>
            && replies.createBucket.None?
            && replies.updateBucket.None?
            && Populate(NB_OBJECTS_SENTINEL, replies.sentinelPuts).status == Completed
            && Populate(NB_OBJECTS_NON_SENTINEL, replies.nonSentinelPuts).status == Completed)
      && SucceedsFrom(FUNCS, StepFor(replies), 5, bucket)
  {
    var f := StepFor(replies);
    assert SucceedsFrom(FUNCS, f, 1, bucket) <==>
      f(FUNCS[1], bucket).outcome == StepDone && SucceedsFrom(FUNCS, f, 2, bucket);
    assert SucceedsFrom(FUNCS, f, 2, bucket) <==>
      f(FUNCS[2], bucket).outcome == StepDone && SucceedsFrom(FUNCS, f, 3, bucket);
    assert SucceedsFrom(FUNCS, f, 3, bucket) <==>
      f(FUNCS[3], bucket).outcome == StepDone && SucceedsFrom(FUNCS, f, 4, bucket);
    assert SucceedsFrom(FUNCS, f, 4, bucket) <==>
      f(FUNCS[4], bucket).outcome == StepDone && SucceedsFrom(FUNCS, f, 5, bucket);
  }

  /** The three searches succeed exactly when every scan ends. */
  lemma SucceedsSearches(replies: Replies, bucket: Option<Bucket>)
    ensures SucceedsFrom(FUNCS, StepFor(replies), 5, bucket) <==>
      && Collect(replies.stringSearch).status == FindEnded
      && Collect(replies.booleanSearch).status == FindEnded
      && Collect(replies.numberSearch).status == FindEnded
  {
    var f := StepFor(replies);
    assert SucceedsFrom(FUNCS, f, 5, bucket) <==>
      f(FUNCS[5], bucket).outcome == StepDone && SucceedsFrom(FUNCS, f, 6, bucket);
    assert SucceedsFrom(FUNCS, f, 6, bucket) <==>
      f(FUNCS[6], bucket).outcome == StepDone && SucceedsFrom(FUNCS, f, 7, bucket);
    assert SucceedsFrom(FUNCS, f, 7, bucket) <==>
      f(FUNCS[7], bucket).outcome == StepDone && SucceedsFrom(FUNCS, f, 8, bucket);
  }

  /** Every pipeline function succeeds in turn exactly when the store accepts every call. */
  lemma SucceedsIffAccepts(replies: Replies)
    ensures SucceedsFrom(FUNCS, StepFor(replies), 0, None) <==> StoreAccepts(replies)
  {
    var f := StepFor(replies);
    GetBucketContinues(None, replies);
    var bucket := FoundBucket(replies.getBucket);
    assert SucceedsFrom(FUNCS, f, 0, None) <==>
      f(FUNCS[0], None).outcome == StepDone && SucceedsFrom(FUNCS, f, 1, bucket);
    SucceedsSetup(replies, bucket);
    SucceedsSearches(replies, bucket);
  }

  /** When the bucket is found or missing, getBenchmarkBucket gets it and goes on. */
  lemma AcceptedGetStep(replies: Replies)
    requires replies.getBucket.FetchFailed? ==> replies.getBucket.error.name == "BucketNotFoundError"
    ensures StepFor(replies)(FUNCS[0], None)
      == StepResult(StepDone, FoundBucket(replies.getBucket), [GetBucket(BENCHMARK_BUCKET_NAME)])
  {
    assert FUNCS[0] == GetBenchmarkBucket;
  }

  /** Against an existing bucket the set-up functions make no call and go on. */
  lemma SkippedSetupSteps(replies: Replies, bucket: Option<Bucket>)
    requires bucket.Some?
    ensures StepFor(replies)(FUNCS[1], bucket) == StepResult(StepDone, bucket, [])
    ensures StepFor(replies)(FUNCS[2], bucket) == StepResult(StepDone, bucket, [])
    ensures StepFor(replies)(FUNCS[3], bucket) == StepResult(StepDone, bucket, [])
    ensures StepFor(replies)(FUNCS[4], bucket) == StepResult(StepDone, bucket, [])
  {
    assert FUNCS[1] == CreateBenchmarkBucket;
    assert FUNCS[2] == UpdateBenchmarkBucket;
    assert FUNCS[3] == AddSentinelObjects;
    assert FUNCS[4] == AddNonSentinelObjects;
  }

  /** When the store creates and updates a missing bucket, the first two set-up functions make those calls. */
  lemma AcceptedBucketSteps(replies: Replies)
    requires replies.createBucket.None? && replies.updateBucket.None?
    ensures StepFor(replies)(FUNCS[1], None)
      == StepResult(StepDone, None, [CreateBucket(BENCHMARK_BUCKET_NAME, BENCHMARK_BUCKET_CFG_V0)])
    ensures StepFor(replies)(FUNCS[2], None)
      == StepResult(StepDone, None, [UpdateBucket(BENCHMARK_BUCKET_NAME, BENCHMARK_BUCKET_CFG_V1)])
  {
    assert FUNCS[1] == CreateBenchmarkBucket;
    assert FUNCS[2] == UpdateBenchmarkBucket;
  }

  /** When the store stores the sentinel cohort, addSentinelObjects makes its puts. */
  lemma AcceptedSentinelStep(replies: Replies)
    requires Populate(NB_OBJECTS_SENTINEL, replies.sentinelPuts).status == Completed
    ensures StepFor(replies)(FUNCS[3], None) == StepResult(StepDone, None,
      PopulationCalls(BENCHMARK_BUCKET_NAME, SentinelTemplate(), NB_OBJECTS_SENTINEL, replies.sentinelPuts))
  {
    assert FUNCS[3] == AddSentinelObjects;
  }

  /** When the store stores the non-sentinel cohort, addNonSentinelObjects makes its puts. */
  lemma AcceptedNonSentinelStep(replies: Replies)
    requires Populate(NB_OBJECTS_NON_SENTINEL, replies.nonSentinelPuts).status == Completed
    ensures StepFor(replies)(FUNCS[4], None) == StepResult(StepDone, None,
      PopulationCalls(BENCHMARK_BUCKET_NAME, NonSentinelTemplate(), NB_OBJECTS_NON_SENTINEL, replies.nonSentinelPuts))
  {
    assert FUNCS[4] == AddNonSentinelObjects;
  }

  /** When every scan ends, the three searches each issue one scan. */
  lemma AcceptedSearchSteps(replies: Replies, bucket: Option<Bucket>)
    requires Collect(replies.stringSearch).status == FindEnded
    requires Collect(replies.booleanSearch).status == FindEnded
    requires Collect(replies.numberSearch).status == FindEnded
    ensures StepFor(replies)(FUNCS[5], bucket) == StepResult(StepDone, bucket,
      SearchCalls(BENCHMARK_BUCKET_NAME, SearchFilter("not_yet_reindexed_string", "string"), FIND_OBJECTS_OPTIONS))
    ensures StepFor(replies)(FUNCS[6], bucket) == StepResult(StepDone, bucket,
      SearchCalls(BENCHMARK_BUCKET_NAME, SearchFilter("not_yet_reindexed_boolean", "boolean"), FIND_OBJECTS_OPTIONS))
    ensures StepFor(replies)(FUNCS[7], bucket) == StepResult(StepDone, bucket,
      SearchCalls(BENCHMARK_BUCKET_NAME, SearchFilter("not_yet_reindexed_number", "number"), FIND_OBJECTS_OPTIONS))
  {
    assert FUNCS[5] == SearchOnUnindexedString;
    assert FUNCS[6] == SearchOnUnindexedBoolean;
    assert FUNCS[7] == SearchOnUnindexedNumber;
  }

  /** Against an existing bucket the set-up functions make no call. */
  lemma SkippedSetupCalls(replies: Replies, bucket: Option<Bucket>, tail: seq<Call>)
    requires bucket.Some?
    ensures SucceedingCalls(FUNCS, StepFor(replies), 1, bucket) + tail
      == SucceedingCalls(FUNCS, StepFor(replies), 5, bucket) + tail
  {
    var f := StepFor(replies);
    SkippedSetupSteps(replies, bucket);
    SucceedingCallsCons(FUNCS, f, 1, bucket, tail);
    SucceedingCallsCons(FUNCS, f, 2, bucket, tail);
    SucceedingCallsCons(FUNCS, f, 3, bucket, tail);
    SucceedingCallsCons(FUNCS, f, 4, bucket, tail);
  }

  /** When the store creates and updates a missing bucket, the first two set-up functions make those calls. */
  lemma BucketCallOrder(replies: Replies, tail: seq<Call>)
    requires replies.createBucket.None? && replies.updateBucket.None?
    ensures SucceedingCalls(FUNCS, StepFor(replies), 1, None) + tail
      == [CreateBucket(BENCHMARK_BUCKET_NAME, BENCHMARK_BUCKET_CFG_V0)]
         + ([UpdateBucket(BENCHMARK_BUCKET_NAME, BENCHMARK_BUCKET_CFG_V1)]
         + (SucceedingCalls(FUNCS, StepFor(replies), 3, None) + tail))
  {
    var f := StepFor(replies);
    AcceptedBucketSteps(replies);
    SucceedingCallsCons(FUNCS, f, 1, None, tail);
    SucceedingCallsCons(FUNCS, f, 2, None, tail);
  }

  /** When the store stores both cohorts of a missing bucket, the additions make their puts in turn. */
  lemma AdditionCallOrder(replies: Replies, tail: seq<Call>)
    requires Populate(NB_OBJECTS_SENTINEL, replies.sentinelPuts).status == Completed
    requires Populate(NB_OBJECTS_NON_SENTINEL, replies.nonSentinelPuts).status == Completed
    ensures SucceedingCalls(FUNCS, StepFor(replies), 3, None) + tail
      == (PopulationCalls(BENCHMARK_BUCKET_NAME, SentinelTemplate(), NB_OBJECTS_SENTINEL, replies.sentinelPuts)
         + PopulationCalls(BENCHMARK_BUCKET_NAME, NonSentinelTemplate(), NB_OBJECTS_NON_SENTINEL, replies.nonSentinelPuts))
         + (SucceedingCalls(FUNCS, StepFor(replies), 5, None) + tail)
  {
    AcceptedSentinelStep(replies);
    AcceptedNonSentinelStep(replies);
    SucceedingCallsPair(FUNCS, StepFor(replies), 3, None, tail);
  }

  /** When every scan ends, the searches make the three scans. */
  lemma SearchCallOrder(replies: Replies, bucket: Option<Bucket>, tail: seq<Call>)
    requires Collect(replies.stringSearch).status == FindEnded
    requires Collect(replies.booleanSearch).status == FindEnded
    requires Collect(replies.numberSearch).status == FindEnded
    ensures SucceedingCalls(FUNCS, StepFor(replies), 5, bucket) + tail == SearchesCalls() + tail
  {
    AcceptedSearchSteps(replies, bucket);
    assert |FUNCS| == 8;
    var byString := SearchCalls(BENCHMARK_BUCKET_NAME, SearchFilter("not_yet_reindexed_string", "string"), FIND_OBJECTS_OPTIONS);
    var byBoolean := SearchCalls(BENCHMARK_BUCKET_NAME, SearchFilter("not_yet_reindexed_boolean", "boolean"), FIND_OBJECTS_OPTIONS);
    var byNumber := SearchCalls(BENCHMARK_BUCKET_NAME, SearchFilter("not_yet_reindexed_number", "number"), FIND_OBJECTS_OPTIONS);
    SucceedingCallsLastThree(FUNCS, StepFor(replies), 5, bucket, byString, byBoolean, byNumber, tail);
  }

  /** When the store accepts the set-up of a missing bucket, the set-up functions make the set-up calls. */
  lemma SetupCallOrder(replies: Replies, tail: seq<Call>)
    requires replies.createBucket.None? && replies.updateBucket.None?
    requires Populate(NB_OBJECTS_SENTINEL, replies.sentinelPuts).status == Completed
    requires Populate(NB_OBJECTS_NON_SENTINEL, replies.nonSentinelPuts).status == Completed
    ensures SucceedingCalls(FUNCS, StepFor(replies), 1, None) + tail
      == SetupCalls(replies) + (SucceedingCalls(FUNCS, StepFor(replies), 5, None) + tail)
  {
    BucketCallOrder(replies, tail);
    AdditionCallOrder(replies, tail);
    var create := [CreateBucket(BENCHMARK_BUCKET_NAME, BENCHMARK_BUCKET_CFG_V0)];
    var update := [UpdateBucket(BENCHMARK_BUCKET_NAME, BENCHMARK_BUCKET_CFG_V1)];
    var puts := PopulationCalls(BENCHMARK_BUCKET_NAME, SentinelTemplate(), NB_OBJECTS_SENTINEL, replies.sentinelPuts)
      + PopulationCalls(BENCHMARK_BUCKET_NAME, NonSentinelTemplate(), NB_OBJECTS_NON_SENTINEL, replies.nonSentinelPuts);
    var rest := SucceedingCalls(FUNCS, StepFor(replies), 5, None) + tail;
    AppendAssoc(update, puts, rest);
    AppendAssoc(create, update + puts, rest);
  }

  /** When the bucket exists and every scan ends, the run gets the bucket, scans three times and closes the client. */
  lemma FoundCallOrder(replies: Replies)
    requires replies.getBucket.Fetched?
    requires Collect(replies.stringSearch).status == FindEnded
    requires Collect(replies.booleanSearch).status == FindEnded
    requires Collect(replies.numberSearch).status == FindEnded
    ensures SucceedingCalls(FUNCS, StepFor(replies), 0, None) + [Close]
      == [GetBucket(BENCHMARK_BUCKET_NAME)] + (SearchesCalls() + [Close])
  {
    var bucket := FoundBucket(replies.getBucket);
    AcceptedGetStep(replies);
    SucceedingCallsCons(FUNCS, StepFor(replies), 0, None, [Close]);
    SkippedSetupCalls(replies, bucket, [Close]);
    SearchCallOrder(replies, bucket, [Close]);
  }

  /** When the bucket is missing and the store accepts every call, the run sets it up between the get and the scans. */
  lemma MissingCallOrder(replies: Replies)
    requires replies.getBucket.FetchFailed?
    requires StoreAccepts(replies)
    ensures SucceedingCalls(FUNCS, StepFor(replies), 0, None) + [Close]
      == [GetBucket(BENCHMARK_BUCKET_NAME)] + (SetupCalls(replies) + (SearchesCalls() + [Close]))
  {
    AcceptedGetStep(replies);
    assert FoundBucket(replies.getBucket) == None;
    SucceedingCallsCons(FUNCS, StepFor(replies), 0, None, [Close]);
    SetupCallOrder(replies, [Close]);
    SearchCallOrder(replies, None, [Close]);
  }

  /** When the store accepts every call, the pipeline's calls are those of AllDoneCalls. */
  lemma SucceedingCallOrder(replies: Replies)
    requires StoreAccepts(replies)
    ensures SucceedingCalls(FUNCS, StepFor(replies), 0, None) + [Close] == AllDoneCalls(replies)
  {
    if replies.getBucket.Fetched? {
      FoundCallOrder(replies);
      assert [] + (SearchesCalls() + [Close]) == SearchesCalls() + [Close];
    } else {
      MissingCallOrder(replies);
    }
  }


  /**
   * A run is all done exactly when the store accepts every call. The run
   * then gets the bucket; when it was missing, creates it at version 0,
   * updates it to version 1 and stores the sentinel cohort and then the
   * other one; runs the three searches; and closes the client.
   */
  lemma AllDoneIff(replies: Replies)
    ensures Finish(Executed(replies)).report == AllDone <==> StoreAccepts(replies)
    ensures StoreAccepts(replies) ==> Finish(Executed(replies)).calls == AllDoneCalls(replies)
  {
    PipelineAllDone(FUNCS, StepFor(replies));
    SucceedsIffAccepts(replies);
    if StoreAccepts(replies) {
      SucceedingCallOrder(replies);
    }
  }

  /**
   * Against an existing bucket a run writes nothing: when every scan ends it
   * gets the bucket, scans three times and closes the client.
   */
  lemma ExistingBucketOnlySearches(replies: Replies)
    requires replies.getBucket.Fetched?
    requires Collect(replies.stringSearch).status == FindEnded
    requires Collect(replies.booleanSearch).status == FindEnded
    requires Collect(replies.numberSearch).status == FindEnded
    ensures Finish(Executed(replies)).report == AllDone
    ensures Finish(Executed(replies)).calls ==
      [GetBucket(BENCHMARK_BUCKET_NAME),
       FindObjects(FindRequest(BENCHMARK_BUCKET_NAME, "(&(uuid=*)(not_yet_reindexed_string=sentinel))", Some(1), true)),
       FindObjects(FindRequest(BENCHMARK_BUCKET_NAME, "(&(uuid=*)(not_yet_reindexed_boolean=true))", Some(1), true)),
       FindObjects(FindRequest(BENCHMARK_BUCKET_NAME, "(&(uuid=*)(not_yet_reindexed_number=42))", Some(1), true)),
       Close]
  {
    assert StoreAccepts(replies);
    AllDoneIff(replies);
    FoundAllDoneCalls(replies);
    SearchesText();
  }

  /** Against an existing bucket the calls of a run that is all done skip the whole set-up. */
  lemma FoundAllDoneCalls(replies: Replies)
    requires replies.getBucket.Fetched?
    ensures AllDoneCalls(replies) == [GetBucket(BENCHMARK_BUCKET_NAME)] + SearchesCalls() + [Close]
  {
    var searches := SearchesCalls();
    assert [] + (searches + [Close]) == searches + [Close];
    AppendAssoc([GetBucket(BENCHMARK_BUCKET_NAME)], searches, [Close]);
  }

  /** A run that is all done against a missing bucket stored both cohorts in full. */
  lemma AllDoneStoresCohorts(replies: Replies)
    requires Finish(Executed(replies)).report == AllDone
    requires replies.getBucket.FetchFailed?
    ensures Populate(NB_OBJECTS_SENTINEL, replies.sentinelPuts).created == 5000
    ensures Populate(NB_OBJECTS_NON_SENTINEL, replies.nonSentinelPuts).created == 5000
  {
    AllDoneIff(replies);
    CompletedStoresAll(NB_OBJECTS_SENTINEL, replies.sentinelPuts);
    CompletedStoresAll(NB_OBJECTS_NON_SENTINEL, replies.nonSentinelPuts);
  }
}
