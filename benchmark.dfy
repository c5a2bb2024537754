/**
 * What the two benchmark programs share: the calls they make on the store
 * client, the context object their pipeline functions update, and how the
 * pipeline ends. Each benchmark runs its functions in order with one shared
 * context, stops at the first function that reports an error, then closes
 * the client and reports once.
 */
module Benchmark {
  import opened Wrappers
  import opened Store
  import opened Moray

  /** A call on the store client, in the order the program makes them. */
  datatype Call =
    | GetBucket(name: string)
    | DeleteBucket(name: string)
    | CreateBucket(name: string, config: Schema)
    | UpdateBucket(name: string, config: Schema)
    | Reindex(reindex: ReindexRequest)
    | PutObject(put: Put)
    | FindObjects(find: FindRequest)
    | Close

  /** The store's answer to getBucket: the bucket, or an error. */
  datatype FetchReply = Fetched(bucket: Bucket) | FetchFailed(error: Error)

  /**
   * How one pipeline function ends: it calls next() without or with an
   * error, it never calls next (it waits on answers that never come, or loops
   * forever), or an assertion in it throws.
   */
  datatype StepOutcome = StepDone | StepFailed(error: Error) | StepStalled | StepAssertionFailed(message: string)

  /** One pipeline function's effect: how it ended, the bucket left in the context, and its calls. */
  datatype StepResult = StepResult(outcome: StepOutcome, bucket: Option<Bucket>, calls: seq<Call>)

  /**
   * How a run ends: the final callback reports success or an error; the
   * pipeline never reaches it; or an assertion throws before it does.
   */
  datatype Report = AllDone | Failed(error: Error) | Stalled | Threw(message: string)

  /**
   * A whole run: how it ended and the calls it made on the client, in order.
   * A population whose answers ran out records no put of its last wave.
   */
  datatype Outcome = Outcome(report: Report, calls: seq<Call>)

  /** The object the pipeline functions share. */
  class Context {
    /** The benchmark bucket as last read from the store; None while it is known not to exist. */
    var bucket: Option<Bucket>

    constructor()
      ensures bucket == None
    {
      bucket := None;
    }
  }

  /** The value of a table lookup that cannot fail where the benchmarks use it; a placeholder otherwise. */
  function ValueOr(r: Result<Value>): Value
  {
    if r.Ok? then r.value else Num(0)
  }

  /** A cohort's template: each of its three fields set to the table's value for that field's type. */
  function CohortTemplate(stringField: string, numberField: string, booleanField: string,
                          valueFor: string -> Result<Value>): Object
  {
    map[stringField := ValueOr(valueFor("string")),
        numberField := ValueOr(valueFor("number")),
        booleanField := ValueOr(valueFor("boolean"))]
  }

  /** A search filter: any uuid, and the field equal to the value as it prints when concatenated. */
  function EqualityFilter(field: string, value: Value): string
  {
    "(&(uuid=*)(" + field + "=" + ValueText(value) + "))"
  }

  /** A store call whose callback is next itself: next(err). */
  function CallbackOutcome(err: Option<Error>): (o: StepOutcome)
    ensures o == StepDone <==> err.None?
    ensures o.StepFailed? <==> err.Some?
    ensures o.StepFailed? ==> o.error == err.value
  {
    match err
    case None => StepDone
    case Some(e) => StepFailed(e)
  }

  /** A population hands its error to next(), succeeds when completed, and otherwise never calls next. */
  function AddStepOutcome(run: AddRun): (o: StepOutcome)
    ensures o == StepDone <==> run.status == Completed
    ensures o.StepFailed? <==> run.status.Aborted?
    ensures o.StepFailed? ==> o.error == run.status.error
    ensures o == StepStalled <==> run.status == Spinning || run.status == Unfinished
  {
    match run.status
    case Completed => StepDone
    case Aborted(e) => StepFailed(e)
    case Spinning => StepStalled
    case Unfinished => StepStalled
  }

  /** Draining the reindex hands its error to next(), succeeds when drained, and otherwise waits. */
  function DrainStepOutcome(run: DrainRun): (o: StepOutcome)
    ensures o == StepDone <==> run.status == Drained
    ensures o.StepFailed? <==> run.status.DrainFailed?
    ensures o.StepFailed? ==> o.error == run.status.error
    ensures o == StepStalled <==> run.status == DrainUnfinished
  {
    match run.status
    case Drained => StepDone
    case DrainFailed(e) => StepFailed(e)
    case DrainUnfinished => StepStalled
  }

  /** A search hands the scan's error to next(), succeeds once the scan ended, and otherwise waits. */
  function FindStepOutcome(status: FindStatus): (o: StepOutcome)
    ensures o == StepDone <==> status == FindEnded
    ensures o.StepFailed? <==> status.FindErrored?
    ensures o.StepFailed? ==> o.error == status.error
    ensures o == StepStalled <==> status == FindPending
  {
    match status
    case FindEnded => StepDone
    case FindErrored(e) => StepFailed(e)
    case FindPending => StepStalled
  }

  /** The put calls of a population with the answers `env`: one per issued put, in order. */
  function PopulationCalls(bucketName: string, objectTemplate: Object, nbObjects: int, env: seq<Attempt>): seq<Call>
  {
    PopulateIssued(nbObjects, 0, env, 0);
    var n := Populate(nbObjects, env).issued;
    seq(n, j requires 0 <= j < n => PutObject(Put(bucketName, env[j].key, ObjectFor(objectTemplate, env[j].key))))
  }

  /**
   * A population puts one object per issued put, in the order of the
   * answers: the j-th put stores the template under the j-th key drawn.
   */
  lemma PopulationCallsSpec(bucketName: string, objectTemplate: Object, nbObjects: int, env: seq<Attempt>)
    ensures var calls := PopulationCalls(bucketName, objectTemplate, nbObjects, env);
      && |calls| == Populate(nbObjects, env).issued <= |env|
      && forall j :: 0 <= j < |calls| ==>
           calls[j] == PutObject(Put(bucketName, env[j].key, ObjectFor(objectTemplate, env[j].key)))
  {
    PopulateIssued(nbObjects, 0, env, 0);
  }

  /** A pipeline function that calls addObjects and hands its result to next(). */
  method AddObjectsStep(bucketName: string, objectTemplate: Object, nbObjects: int, env: seq<Attempt>)
    returns (outcome: StepOutcome, calls: seq<Call>)
    ensures outcome == AddStepOutcome(Populate(nbObjects, env))
    ensures calls == PopulationCalls(bucketName, objectTemplate, nbObjects, env)
  {
    var run, puts := AddObjects(bucketName, objectTemplate, nbObjects, env);
    PopulationCallsSpec(bucketName, objectTemplate, nbObjects, env);
    outcome := AddStepOutcome(run);
    calls := seq(|puts|, j requires 0 <= j < |puts| => PutObject(puts[j]));
  }

  /** The reindex calls of a drain of `n` calls. */
  function ReindexCalls(bucketName: string, reindexCount: int, n: nat): seq<Call>
  {
    seq(n, _ => Reindex(ReindexRequest(bucketName, reindexCount)))
  }

  /** A pipeline function that calls reindexObjects and hands its result to next(). */
  method ReindexStep(bucketName: string, reindexCount: int, replies: seq<ReindexReply>)
    returns (outcome: StepOutcome, calls: seq<Call>)
    ensures outcome == DrainStepOutcome(Drain(replies))
    ensures calls == ReindexCalls(bucketName, reindexCount, Drain(replies).calls)
  {
    var run, requests := ReindexObjects(bucketName, reindexCount, replies);
    outcome := DrainStepOutcome(run);
    calls := seq(|requests|, j requires 0 <= j < |requests| => Reindex(requests[j]));
  }

  /** The one call of a search: an unbounded scan with the given filter and options. */
  function SearchCalls(bucketName: string, filter: string, options: FindOptions): seq<Call>
  {
    [FindObjects(FindRequest(bucketName, filter, options.requiredBucketVersion, true))]
  }

  /** A pipeline function that calls searchForObjects and hands its result to next(). */
  method SearchStep(bucketName: string, filter: string, options: FindOptions,
                    expectedResults: ExpectedResults, events: seq<FindEvent>)
    returns (outcome: StepOutcome, calls: seq<Call>)
    ensures outcome == FindStepOutcome(Collect(events).status)
    ensures calls == SearchCalls(bucketName, filter, options)
  {
    var request, result := SearchForObjects(bucketName, filter, options, expectedResults, events);
    calls := [FindObjects(request)];
    match result
    case SearchSucceeded(_) =>
      outcome := StepDone;
    case SearchFailed(e) =>
      outcome := StepFailed(e);
    case SearchPending =>
      outcome := StepStalled;
  }

  /**
   * vasync.pipeline from its i-th function on, after the functions in `done`
   * ran: each function runs with the context the previous one left, and the
   * first one that does not succeed is the last one to run.
   */
  function PipelineFrom<S>(funcs: seq<S>, run: (S, Option<Bucket>) -> StepResult, i: nat,
                           bucket: Option<Bucket>, done: seq<StepResult>): seq<StepResult>
    requires i <= |funcs|
    decreases |funcs| - i
  {
    if i == |funcs| then done
    else
      var r := run(funcs[i], bucket);
      if r.outcome != StepDone then done + [r]
      else PipelineFrom(funcs, run, i + 1, r.bucket, done + [r])
  }

  /** One more function of the pipeline: it ends the run unless it continues. */
  lemma PipelineFromStep<S>(funcs: seq<S>, run: (S, Option<Bucket>) -> StepResult, i: nat,
                            bucket: Option<Bucket>, done: seq<StepResult>, r: StepResult)
    requires i < |funcs| && r == run(funcs[i], bucket)
    ensures PipelineFrom(funcs, run, i, bucket, done) ==
      if r.outcome != StepDone then done + [r] else PipelineFrom(funcs, run, i + 1, r.bucket, done + [r])
  {
  }

  /** vasync.pipeline over `funcs`, starting from an empty context. */
  function Pipeline<S>(funcs: seq<S>, run: (S, Option<Bucket>) -> StepResult): seq<StepResult>
  {
    PipelineFrom(funcs, run, 0, None, [])
  }

  /** The context each function of the pipeline starts from. */
  function BucketBefore(executed: seq<StepResult>, j: nat): Option<Bucket>
    requires j <= |executed|
  {
    if j == 0 then None else executed[j - 1].bucket
  }

  /** What ran of a pipeline: a prefix of its functions, each on the context the previous one left, all succeeding but the last. */
  predicate PipelineRan<S>(funcs: seq<S>, run: (S, Option<Bucket>) -> StepResult, executed: seq<StepResult>)
  {
    && |executed| <= |funcs|
    && (forall j {:trigger funcs[j]} :: 0 <= j < |executed| ==> executed[j] == run(funcs[j], BucketBefore(executed, j)))
    && (forall j :: 0 <= j < |executed| - 1 ==> executed[j].outcome == StepDone)
  }

  /** Running the next function of a pipeline whose functions so far all succeeded. */
  lemma PipelineRanAppend<S>(funcs: seq<S>, run: (S, Option<Bucket>) -> StepResult, done: seq<StepResult>, r: StepResult)
    requires |done| < |funcs| && PipelineRan(funcs, run, done)
    requires forall j :: 0 <= j < |done| ==> done[j].outcome == StepDone
    requires r == run(funcs[|done|], BucketBefore(done, |done|))
    ensures PipelineRan(funcs, run, done + [r])
  {
    var next := done + [r];
    forall j | 0 <= j < |next|
      ensures next[j] == run(funcs[j], BucketBefore(next, j))
    {
      if j < |done| {
        assert next[j] == done[j];
        assert BucketBefore(next, j) == BucketBefore(done, j);
      }
    }
  }

  lemma {:induction false} PipelineFromRan<S>(funcs: seq<S>, run: (S, Option<Bucket>) -> StepResult, i: nat,
                                              bucket: Option<Bucket>, done: seq<StepResult>)
    requires i <= |funcs| && |done| == i
    requires PipelineRan(funcs, run, done)
    requires forall j :: 0 <= j < i ==> done[j].outcome == StepDone
    requires bucket == BucketBefore(done, i)
    ensures var executed := PipelineFrom(funcs, run, i, bucket, done);
      && PipelineRan(funcs, run, executed)
      && (|funcs| > 0 ==> |executed| > 0)
      && (|executed| < |funcs| ==> executed[|executed| - 1].outcome != StepDone)
    decreases |funcs| - i
  {
    if i < |funcs| {
      var r := run(funcs[i], bucket);
      var next := done + [r];
      PipelineRanAppend(funcs, run, done, r);
      if r.outcome == StepDone {
        assert PipelineFrom(funcs, run, i, bucket, done) == PipelineFrom(funcs, run, i + 1, r.bucket, next);
        assert forall j :: 0 <= j < i + 1 ==> next[j].outcome == StepDone;
        PipelineFromRan(funcs, run, i + 1, r.bucket, next);
      } else {
        assert PipelineFrom(funcs, run, i, bucket, done) == next;
        assert next[|next| - 1] == r;
      }
    }
  }

  /**
   * vasync.pipeline runs a prefix of its functions in order, each on the
   * context the previous one left; all of them but the last succeed, and the
   * last one stops the pipeline unless it is the last function.
   */
  lemma PipelineShape<S>(funcs: seq<S>, run: (S, Option<Bucket>) -> StepResult)
    ensures var executed := Pipeline(funcs, run);
      && PipelineRan(funcs, run, executed)
      && (|funcs| > 0 ==> |executed| > 0)
      && (|executed| < |funcs| ==> executed[|executed| - 1].outcome != StepDone)
  {
    PipelineFromRan(funcs, run, 0, None, []);
  }

  /**
   * How the final callback reports a pipeline: all done exactly when every
   * function ran and succeeded; an error exactly when a function passed one
   * to next(), which is then the last function that ran.
   */
  lemma PipelineReport<S>(funcs: seq<S>, run: (S, Option<Bucket>) -> StepResult)
    requires |funcs| > 0
    ensures |Pipeline(funcs, run)| > 0
    ensures var executed := Pipeline(funcs, run);
      var report := Finish(executed).report;
      var last := executed[|executed| - 1].outcome;
      && (report == AllDone <==>
            |executed| == |funcs| && forall j :: 0 <= j < |executed| ==> executed[j].outcome == StepDone)
      && (report.Failed? <==> last.StepFailed?)
      && (report.Failed? ==> report.error == last.error)
      && (report == Stalled <==> last == StepStalled)
      && (report.Threw? <==> last.StepAssertionFailed?)
  {
    PipelineShape(funcs, run);
  }

  /** Every function of funcs[i..] succeeds, each on the bucket the previous one left. */
  predicate SucceedsFrom<S>(funcs: seq<S>, run: (S, Option<Bucket>) -> StepResult, i: nat, bucket: Option<Bucket>)
    requires i <= |funcs|
    decreases |funcs| - i
  {
    i == |funcs| ||
    (run(funcs[i], bucket).outcome == StepDone && SucceedsFrom(funcs, run, i + 1, run(funcs[i], bucket).bucket))
  }

  /** The calls of funcs[i..] when each runs on the bucket the previous one left. */
  function SucceedingCalls<S>(funcs: seq<S>, run: (S, Option<Bucket>) -> StepResult, i: nat, bucket: Option<Bucket>): seq<Call>
    requires i <= |funcs|
    decreases |funcs| - i
  {
    if i == |funcs| then []
    else run(funcs[i], bucket).calls + SucceedingCalls(funcs, run, i + 1, run(funcs[i], bucket).bucket)
  }

  /** Concatenating calls is associative. */
  lemma AppendAssoc(a: seq<Call>, b: seq<Call>, c: seq<Call>)
    ensures a + (b + c) == (a + b) + c
  {
  }

  /** Past the last function there are no calls. */
  lemma SucceedingCallsEnd<S>(funcs: seq<S>, run: (S, Option<Bucket>) -> StepResult, bucket: Option<Bucket>, tail: seq<Call>)
    ensures SucceedingCalls(funcs, run, |funcs|, bucket) + tail == tail
  {
    assert SucceedingCalls(funcs, run, |funcs|, bucket) == [];
  }

  /** The calls of funcs[i..], followed by tail, start with those of funcs[i]. */
  lemma SucceedingCallsCons<S>(funcs: seq<S>, run: (S, Option<Bucket>) -> StepResult, i: nat,
                               bucket: Option<Bucket>, tail: seq<Call>)
    requires i < |funcs|
    ensures SucceedingCalls(funcs, run, i, bucket) + tail
      == run(funcs[i], bucket).calls + (SucceedingCalls(funcs, run, i + 1, run(funcs[i], bucket).bucket) + tail)
  {
  }

  /** The calls of funcs[i..] start with those of funcs[i]. */
  lemma SucceedingCallsUnfold<S>(funcs: seq<S>, run: (S, Option<Bucket>) -> StepResult, i: nat, bucket: Option<Bucket>)
    requires i < |funcs|
    ensures SucceedingCalls(funcs, run, i, bucket)
      == run(funcs[i], bucket).calls + SucceedingCalls(funcs, run, i + 1, run(funcs[i], bucket).bucket)
  {
  }

  /** When the last three functions succeed without touching the bucket, their calls come in order. */
  lemma SucceedingCallsLastThree<S>(funcs: seq<S>, run: (S, Option<Bucket>) -> StepResult, i: nat, bucket: Option<Bucket>,
                                    first: seq<Call>, second: seq<Call>, third: seq<Call>, tail: seq<Call>)
    requires i + 3 == |funcs|
    requires run(funcs[i], bucket) == StepResult(StepDone, bucket, first)
    requires run(funcs[i + 1], bucket) == StepResult(StepDone, bucket, second)
    requires run(funcs[i + 2], bucket) == StepResult(StepDone, bucket, third)
    ensures SucceedingCalls(funcs, run, i, bucket) + tail == (first + (second + third)) + tail
  {
    SucceedingCallsUnfold(funcs, run, i, bucket);
    SucceedingCallsUnfold(funcs, run, i + 1, bucket);
    SucceedingCallsUnfold(funcs, run, i + 2, bucket);
    assert SucceedingCalls(funcs, run, i + 3, bucket) == [];
    assert third + [] == third;
  }

  /** The calls of funcs[i..], followed by tail, start with those of funcs[i] and funcs[i + 1] together. */
  lemma SucceedingCallsPair<S>(funcs: seq<S>, run: (S, Option<Bucket>) -> StepResult, i: nat,
                               bucket: Option<Bucket>, tail: seq<Call>)
    requires i + 1 < |funcs|
    ensures var first := run(funcs[i], bucket);
      var second := run(funcs[i + 1], first.bucket);
      SucceedingCalls(funcs, run, i, bucket) + tail
        == (first.calls + second.calls) + (SucceedingCalls(funcs, run, i + 2, second.bucket) + tail)
  {
    var first := run(funcs[i], bucket);
    var second := run(funcs[i + 1], first.bucket);
    var rest := SucceedingCalls(funcs, run, i + 2, second.bucket) + tail;
    SucceedingCallsCons(funcs, run, i, bucket, tail);
    SucceedingCallsCons(funcs, run, i + 1, first.bucket, tail);
    AppendAssoc(first.calls, second.calls, rest);
  }

  lemma {:induction false} PipelineFromSucceeds<S>(funcs: seq<S>, run: (S, Option<Bucket>) -> StepResult, i: nat,
                                                   bucket: Option<Bucket>, done: seq<StepResult>)
    requires i <= |funcs|
    requires forall j :: 0 <= j < |done| ==> done[j].outcome == StepDone
    ensures var executed := PipelineFrom(funcs, run, i, bucket, done);
      && (SucceedsFrom(funcs, run, i, bucket) ==>
            && (forall j :: 0 <= j < |executed| ==> executed[j].outcome == StepDone)
            && CallsOf(executed) == CallsOf(done) + SucceedingCalls(funcs, run, i, bucket))
      && (!SucceedsFrom(funcs, run, i, bucket) ==>
            |executed| > 0 && executed[|executed| - 1].outcome != StepDone)
    decreases |funcs| - i
  {
    if i == |funcs| {
      assert CallsOf(done) + [] == CallsOf(done);
    } else {
      var r := run(funcs[i], bucket);
      var next := done + [r];
      if r.outcome == StepDone {
        PipelineFromSucceeds(funcs, run, i + 1, r.bucket, next);
        CallsOfAppend(done, r);
        assert CallsOf(next) + SucceedingCalls(funcs, run, i + 1, r.bucket)
            == CallsOf(done) + (r.calls + SucceedingCalls(funcs, run, i + 1, r.bucket));
      } else {
        assert PipelineFrom(funcs, run, i, bucket, done) == next;
      }
    }
  }

  /**
   * A pipeline is all done exactly when each of its functions succeeds on
   * the context the previous one left; its calls are then theirs, in order,
   * followed by the close.
   */
  lemma PipelineAllDone<S>(funcs: seq<S>, run: (S, Option<Bucket>) -> StepResult)
    ensures Finish(Pipeline(funcs, run)).report == AllDone <==> SucceedsFrom(funcs, run, 0, None)
    ensures SucceedsFrom(funcs, run, 0, None) ==>
      Finish(Pipeline(funcs, run)).calls == SucceedingCalls(funcs, run, 0, None) + [Close]
  {
    PipelineFromSucceeds(funcs, run, 0, None, []);
    assert CallsOf([]) + SucceedingCalls(funcs, run, 0, None) == SucceedingCalls(funcs, run, 0, None);
  }

  /** Every call of the pipeline functions that ran, in order. */
  function CallsOf(executed: seq<StepResult>): seq<Call>
  {
    if executed == [] then [] else executed[0].calls + CallsOf(executed[1..])
  }

  lemma {:induction false} CallsOfAppend(executed: seq<StepResult>, r: StepResult)
    ensures CallsOf(executed + [r]) == CallsOf(executed) + r.calls
  {
    if executed == [] {
      assert executed + [r] == [r];
    } else {
      assert (executed + [r])[1..] == executed[1..] + [r];
      CallsOfAppend(executed[1..], r);
    }
  }

  /** The calls of the first j + 1 functions that ran are those of the first j, then those of function j. */
  lemma CallsOfPrefix(executed: seq<StepResult>, j: nat)
    requires j < |executed|
    ensures CallsOf(executed[..j + 1]) == CallsOf(executed[..j]) + executed[j].calls
  {
    assert executed[..j + 1] == executed[..j] + [executed[j]];
    CallsOfAppend(executed[..j], executed[j]);
  }

  /** A call sequence without a close. */
  predicate NoClose(calls: seq<Call>)
  {
    forall j :: 0 <= j < |calls| ==> calls[j] != Close
  }

  lemma {:induction false} CallsOfNoClose(executed: seq<StepResult>)
    requires forall k :: 0 <= k < |executed| ==> NoClose(executed[k].calls)
    ensures NoClose(CallsOf(executed))
  {
    if executed != [] {
      CallsOfNoClose(executed[1..]);
      assert forall k :: 0 <= k < |executed[1..]| ==> executed[1..][k] == executed[k + 1];
    }
  }

  /**
   * The final callback of the pipeline, given the pipeline functions that ran:
   * unless the last of them never called next or threw, the client is closed
   * and the last one's error, if any, is reported.
   */
  function Finish(executed: seq<StepResult>): Outcome
  {
    var calls := CallsOf(executed);
    var last := if executed == [] then StepDone else executed[|executed| - 1].outcome;
    match last
    case StepDone => Outcome(AllDone, calls + [Close])
    case StepFailed(e) => Outcome(Failed(e), calls + [Close])
    case StepStalled => Outcome(Stalled, calls)
    case StepAssertionFailed(m) => Outcome(Threw(m), calls)
  }

  /**
   * The client is closed exactly once, as the very last call, whenever the
   * final callback runs, and never otherwise; the report is AllDone exactly
   * when the last function that ran succeeded, and an error exactly when it
   * passed one to next().
   */
  lemma FinishClosesOnce(executed: seq<StepResult>)
    requires forall k :: 0 <= k < |executed| ==> NoClose(executed[k].calls)
    ensures var outcome := Finish(executed);
      && ((outcome.report.AllDone? || outcome.report.Failed?) <==>
            |outcome.calls| > 0 && outcome.calls[|outcome.calls| - 1] == Close)
      && NoClose(CallsOf(executed))
      && (outcome.report.AllDone? || outcome.report.Failed? ==> outcome.calls == CallsOf(executed) + [Close])
      && (!(outcome.report.AllDone? || outcome.report.Failed?) ==> outcome.calls == CallsOf(executed))
      && (outcome.report == AllDone <==> executed == [] || executed[|executed| - 1].outcome == StepDone)
      && (outcome.report.Failed? <==> executed != [] && executed[|executed| - 1].outcome.StepFailed?)
      && (outcome.report.Failed? ==> outcome.report.error == executed[|executed| - 1].outcome.error)
  {
    CallsOfNoClose(executed);
    var calls := CallsOf(executed);
    if |calls| > 0 {
      assert calls[|calls| - 1] != Close;
    }
  }
}
