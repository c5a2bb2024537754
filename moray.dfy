/**
 * lib/moray.js: the client-side logic around four store operations.
 *
 * - AddObjects stores `nbObjects` copies of a template in waves of at most
 *   ADD_CONCURRENCY puts, dropping slots whose put failed transiently and
 *   aborting on a fatal put error.
 * - ReindexObjects repeats the store's reindex call until nothing remains.
 * - FindObjectsWithFilter collects the records of an unbounded scan.
 * - SearchForObjects runs a scan and checks count and field values, only
 *   reporting what it finds.
 *
 * The store, key generation and the scan's event stream are inputs: sequences
 * of the answers they give, in the order the client sees them. When such a
 * sequence runs out before the operation finishes, the result says so
 * (Unfinished, Pending): the JavaScript code would still be waiting.
 */
module Moray {
  import opened Wrappers
  import opened Store

  // ---------------------------------------------------------------------------
  // addObjects
  // ---------------------------------------------------------------------------

  const ADD_CONCURRENCY: int := 100

  /** Put errors that abort the population; every other put error is transient. */
  const NON_TRANSIENT_ERROR_NAMES: seq<string> := ["InvalidIndexTypeError", "UniqueAttributeError"]

  /**
   * One put as the environment answers it: the key key generation produced
   * for the slot, and the store's reply (None: the object was stored).
   */
  datatype Attempt = Attempt(key: string, reply: Option<Error>)

  /** A put request sent to the store. */
  datatype Put = Put(bucket: string, key: string, value: Object)

  /** One wave: the counter when it started, how many puts it issued, how many of them stored. */
  datatype Wave = Wave(createdBefore: nat, size: nat, stored: nat)

  /**
   * How a population ends: the callback is called with no error, or with an
   * error; with a negative target every wave is empty and the code reschedules
   * itself forever; or the environment's answers ran out first.
   */
  datatype AddStatus = Completed | Aborted(error: Error) | Spinning | Unfinished

  /** A population: how it ended, the success counter, the number of puts issued, and its waves. */
  datatype AddRun = AddRun(status: AddStatus, created: nat, issued: nat, waves: seq<Wave>)

  predicate IsFatal(reply: Option<Error>)
  {
    reply.Some? && reply.value.name in NON_TRANSIENT_ERROR_NAMES
  }

  /** The number of the puts env[lo..hi] that stored without error. */
  function StoredIn(env: seq<Attempt>, lo: nat, hi: nat): (n: nat)
    requires lo <= hi <= |env|
    ensures n <= hi - lo
    decreases hi - lo
  {
    if lo == hi then 0
    else (if env[lo].reply.None? then 1 else 0) + StoredIn(env, lo + 1, hi)
  }

  /** The first fatal reply among env[lo..hi] in completion order, if any: the error the wave reports. */
  function FirstFatalIn(env: seq<Attempt>, lo: nat, hi: nat): Option<Error>
    requires lo <= hi <= |env|
    decreases hi - lo
  {
    if lo == hi then None
    else if IsFatal(env[lo].reply) then env[lo].reply
    else FirstFatalIn(env, lo + 1, hi)
  }

  lemma {:induction false} StoredInSplit(env: seq<Attempt>, a: nat, b: nat, c: nat)
    requires a <= b <= c <= |env|
    ensures StoredIn(env, a, c) == StoredIn(env, a, b) + StoredIn(env, b, c)
    decreases b - a
  {
    if a < b {
      StoredInSplit(env, a + 1, b, c);
    }
  }

  /** Every put of env[lo..hi] stored exactly when the count is their number. */
  lemma {:induction false} StoredInFull(env: seq<Attempt>, lo: nat, hi: nat)
    requires lo <= hi <= |env|
    ensures StoredIn(env, lo, hi) == hi - lo <==> forall j :: lo <= j < hi ==> env[j].reply.None?
    decreases hi - lo
  {
    if lo < hi {
      StoredInFull(env, lo + 1, hi);
    }
  }

  /** A wave reports an error exactly when one of its replies is fatal, and then it reports a fatal reply it got. */
  lemma {:induction false} FirstFatalInSpec(env: seq<Attempt>, lo: nat, hi: nat)
    requires lo <= hi <= |env|
    ensures FirstFatalIn(env, lo, hi).None? <==> forall j :: lo <= j < hi ==> !IsFatal(env[j].reply)
    ensures FirstFatalIn(env, lo, hi).Some? ==>
      IsFatal(FirstFatalIn(env, lo, hi)) &&
      exists j :: lo <= j < hi && env[j].reply == FirstFatalIn(env, lo, hi)
    decreases hi - lo
  {
    if lo < hi && !IsFatal(env[lo].reply) {
      FirstFatalInSpec(env, lo + 1, hi);
    }
  }

  /** Extending a wave by one completion keeps an error already found, or takes the new reply if it is fatal. */
  lemma {:induction false} FirstFatalInExtend(env: seq<Attempt>, lo: nat, hi: nat)
    requires lo <= hi < |env|
    ensures FirstFatalIn(env, lo, hi + 1) ==
      if FirstFatalIn(env, lo, hi).Some? then FirstFatalIn(env, lo, hi)
      else if IsFatal(env[hi].reply) then env[hi].reply
      else None
    decreases hi - lo
  {
    if lo < hi {
      FirstFatalInExtend(env, lo + 1, hi);
    }
  }

  /** The first fatal reply of a range is that of its first part, or else that of the rest. */
  lemma {:induction false} FirstFatalInSplit(env: seq<Attempt>, a: nat, b: nat, c: nat)
    requires a <= b <= c <= |env|
    ensures FirstFatalIn(env, a, c) ==
      (if FirstFatalIn(env, a, b).Some? then FirstFatalIn(env, a, b) else FirstFatalIn(env, b, c))
    decreases b - a
  {
    if a < b {
      FirstFatalInSplit(env, a + 1, b, c);
    }
  }

  /** A wave that reports an error stored fewer objects than it issued puts. */
  lemma FatalNotStored(env: seq<Attempt>, lo: nat, hi: nat)
    requires lo <= hi <= |env|
    requires FirstFatalIn(env, lo, hi).Some?
    ensures StoredIn(env, lo, hi) < hi - lo
  {
    FirstFatalInSpec(env, lo, hi);
    StoredInFull(env, lo, hi);
  }

  /** The object stored for a key: a copy of the template whose `uuid` is the key. */
  function ObjectFor(objectTemplate: Object, key: string): (o: Object)
    ensures "uuid" in o && o["uuid"] == Str(key)
    ensures o.Keys == objectTemplate.Keys + {"uuid"}
    ensures forall f :: f in objectTemplate && f != "uuid" ==> o[f] == objectTemplate[f]
  {
    objectTemplate["uuid" := Str(key)]
  }

  /** One put per attempt from env[from] on, in order, each storing the template under the attempt's key. */
  predicate PutsFor(bucketName: string, objectTemplate: Object, puts: seq<Put>, env: seq<Attempt>, from: nat)
  {
    from + |puts| <= |env| &&
    forall j :: 0 <= j < |puts| ==>
      puts[j] == Put(bucketName, env[from + j].key, ObjectFor(objectTemplate, env[from + j].key))
  }

  /** A run preceded by one more wave. */
  function AfterWave(w: Wave, run: AddRun): AddRun
  {
    run.(issued := w.size + run.issued, waves := [w] + run.waves)
  }

  /**
   * The population from the moment the counter is `created` and the first
   * `next` answers of `env` have been used: each wave issues
   * min(nbObjects - created, 100) puts and waits for all of them.
   */
  function PopulateFrom(nbObjects: int, created: nat, env: seq<Attempt>, next: nat): AddRun
    requires next <= |env|
    decreases |env| - next
  {
    var size := Min(nbObjects - created, ADD_CONCURRENCY);
    if size == 0 then AddRun(Completed, created, 0, [])
    else if size < 0 then AddRun(Spinning, created, 0, [])
    else if |env| - next < size then AddRun(Unfinished, created, 0, [])
    else
      var stored := StoredIn(env, next, next + size);
      var w := Wave(created, size, stored);
      match FirstFatalIn(env, next, next + size)
      case Some(e) => AddRun(Aborted(e), created + stored, size, [w])
      case None => AfterWave(w, PopulateFrom(nbObjects, created + stored, env, next + size))
  }

  /** The whole population of `nbObjects` objects with the answers `env`. */
  function Populate(nbObjects: int, env: seq<Attempt>): AddRun
  {
    PopulateFrom(nbObjects, 0, env, 0)
  }

  /**
   * One wave of `size` puts answered by env[next..next + size]: a fresh key
   * per slot, then one put per key; each completion counts a stored object,
   * keeps the first fatal error, and drops the slot on any other error.
   */
  method AddWave(bucketName: string, objectTemplate: Object, env: seq<Attempt>, next: nat, size: nat,
                 createdBefore: nat, sent: seq<Put>)
    returns (created: nat, waveError: Option<Error>, puts: seq<Put>)
    requires next + size <= |env|
    requires |sent| == next && PutsFor(bucketName, objectTemplate, sent, env, 0)
    ensures created == createdBefore + StoredIn(env, next, next + size)
    ensures waveError == FirstFatalIn(env, next, next + size)
    ensures |puts| == next + size && PutsFor(bucketName, objectTemplate, puts, env, 0)
  {
    var keys: seq<string> := [];
    for i := 0 to size
      invariant |keys| == i
      invariant forall k :: 0 <= k < i ==> keys[k] == env[next + k].key
    {
      keys := keys + [env[next + i].key];
    }

    created, waveError, puts := createdBefore, None, sent;
    for i := 0 to size
      invariant created == createdBefore + StoredIn(env, next, next + i)
      invariant waveError == FirstFatalIn(env, next, next + i)
      invariant |puts| == next + i && PutsFor(bucketName, objectTemplate, puts, env, 0)
    {
      var objectData := ObjectFor(objectTemplate, keys[i]);
      puts := puts + [Put(bucketName, keys[i], objectData)];
      var addErr := env[next + i].reply;
      StoredInSplit(env, next, next + i, next + i + 1);
      FirstFatalInExtend(env, next, next + i);
      if addErr.Some? && addErr.value.name in NON_TRANSIENT_ERROR_NAMES {
        if waveError.None? {
          waveError := addErr;
        }
      } else if addErr.None? {
        created := created + 1;
      }
    }
  }

  /** A run continued after `earlier` waves that issued `issued` puts. */
  function Resume(earlier: seq<Wave>, issued: nat, run: AddRun): AddRun
  {
    run.(issued := issued + run.issued, waves := earlier + run.waves)
  }

  /**
   * The population as the loop runs it: from a counter, a position in the
   * answers and the waves so far, to the end of the run.
   */
  function PopulateLoop(nbObjects: int, created: nat, env: seq<Attempt>, next: nat, waves: seq<Wave>): AddRun
    requires next <= |env|
    decreases |env| - next
  {
    var size := Min(nbObjects - created, ADD_CONCURRENCY);
    if size == 0 then AddRun(Completed, created, next, waves)
    else if size < 0 then AddRun(Spinning, created, next, waves)
    else if |env| - next < size then AddRun(Unfinished, created, next, waves)
    else
      var stored := StoredIn(env, next, next + size);
      var after := waves + [Wave(created, size, stored)];
      match FirstFatalIn(env, next, next + size)
      case Some(e) => AddRun(Aborted(e), created + stored, next + size, after)
      case None => PopulateLoop(nbObjects, created + stored, env, next + size, after)
  }

  /** The loop's population continues the waves so far with the population from where it stands. */
  lemma {:induction false} PopulateLoopResumes(nbObjects: int, created: nat, env: seq<Attempt>, next: nat, waves: seq<Wave>)
    requires next <= |env|
    ensures PopulateLoop(nbObjects, created, env, next, waves) == Resume(waves, next, PopulateFrom(nbObjects, created, env, next))
    decreases |env| - next
  {
    var size := Min(nbObjects - created, ADD_CONCURRENCY);
    if size == 0 || size < 0 || |env| - next < size {
      assert waves + [] == waves;
    } else {
      var stored := StoredIn(env, next, next + size);
      var w := Wave(created, size, stored);
      if FirstFatalIn(env, next, next + size).None? {
        PopulateLoopResumes(nbObjects, created + stored, env, next + size, waves + [w]);
        var rest := PopulateFrom(nbObjects, created + stored, env, next + size);
        assert waves + ([w] + rest.waves) == (waves + [w]) + rest.waves;
      }
    }
  }

  /**
   * addObjects: waves of puts until the counter reaches nbObjects. Each put
   * stores a copy of the template with `uuid` set to the put's key.
   */
  method AddObjects(bucketName: string, objectTemplate: Object, nbObjects: int, env: seq<Attempt>)
    returns (run: AddRun, puts: seq<Put>)
    ensures run == Populate(nbObjects, env)
    ensures run.issued <= |env|
    ensures |puts| == run.issued && PutsFor(bucketName, objectTemplate, puts, env, 0)
  {
    var totalNbObjectsCreated: nat := 0;
    var next: nat := 0;
    var waves: seq<Wave> := [];
    puts := [];
    ghost var target := PopulateLoop(nbObjects, 0, env, 0, []);
    while true
      invariant next <= |env|
      invariant |puts| == next && PutsFor(bucketName, objectTemplate, puts, env, 0)
      invariant PopulateLoop(nbObjects, totalNbObjectsCreated, env, next, waves) == target
      decreases |env| - next
    {
      var nbObjectsToCreate := Min(nbObjects - totalNbObjectsCreated, ADD_CONCURRENCY);
      if nbObjectsToCreate == 0 {
        run := AddRun(Completed, totalNbObjectsCreated, next, waves);
        break;
      } else if nbObjectsToCreate < 0 {
        run := AddRun(Spinning, totalNbObjectsCreated, next, waves);
        break;
      } else if |env| - next < nbObjectsToCreate {
        run := AddRun(Unfinished, totalNbObjectsCreated, next, waves);
        break;
      }
      var createdBefore := totalNbObjectsCreated;
      var waveError;
      totalNbObjectsCreated, waveError, puts :=
        AddWave(bucketName, objectTemplate, env, next, nbObjectsToCreate, createdBefore, puts);
      waves := waves + [Wave(createdBefore, nbObjectsToCreate, totalNbObjectsCreated - createdBefore)];
      next := next + nbObjectsToCreate;
      if waveError.Some? {
        run := AddRun(Aborted(waveError.value), totalNbObjectsCreated, next, waves);
        break;
      }
    }
    PopulateLoopResumes(nbObjects, 0, env, 0, []);
  }


  /**
   * The success counter only grows and never passes nbObjects; the run
   * completes exactly when it reaches nbObjects, and a target already reached
   * issues no put.
   */
  lemma {:induction false} PopulateCounter(nbObjects: int, created: nat, env: seq<Attempt>, next: nat)
    requires created <= nbObjects && next <= |env|
    ensures var run := PopulateFrom(nbObjects, created, env, next);
      && created <= run.created <= nbObjects
      && next + run.issued <= |env|
      && (run.status == Completed <==> run.created == nbObjects)
      && run.status != Spinning
      && (created == nbObjects ==> run.issued == 0 && run.waves == [])
    decreases |env| - next
  {
    var size := Min(nbObjects - created, ADD_CONCURRENCY);
    if size > 0 && |env| - next >= size {
      var stored := StoredIn(env, next, next + size);
      if FirstFatalIn(env, next, next + size).Some? {
        FatalNotStored(env, next, next + size);
      } else {
        PopulateCounter(nbObjects, created + stored, env, next + size);
      }
    }
  }

  /** A population that completes has stored exactly the objects it was asked for. */
  lemma CompletedStoresAll(nbObjects: nat, env: seq<Attempt>)
    requires Populate(nbObjects, env).status == Completed
    ensures Populate(nbObjects, env).created == nbObjects
  {
    PopulateCounter(nbObjects, 0, env, 0);
  }

  /** Whatever the target, a population never issues more puts than there are answers. */
  lemma {:induction false} PopulateIssued(nbObjects: int, created: nat, env: seq<Attempt>, next: nat)
    requires next <= |env|
    ensures next + PopulateFrom(nbObjects, created, env, next).issued <= |env|
    decreases |env| - next
  {
    var size := Min(nbObjects - created, ADD_CONCURRENCY);
    if size > 0 && |env| - next >= size && FirstFatalIn(env, next, next + size).None? {
      PopulateIssued(nbObjects, created + StoredIn(env, next, next + size), env, next + size);
    }
  }

  /** Counting the stored puts of a wave and of the puts after it counts those of both. */
  lemma CountsStoredStep(env: seq<Attempt>, next: nat, size: nat, created: nat, rest: AddRun)
    requires next + size + rest.issued <= |env|
    requires rest.created == created + StoredIn(env, next, next + size) + StoredIn(env, next + size, next + size + rest.issued)
    ensures rest.created == created + StoredIn(env, next, next + size + rest.issued)
  {
    StoredInSplit(env, next, next + size, next + size + rest.issued);
  }

  /** The counter grows by exactly the number of issued puts that stored. */
  lemma {:induction false} PopulateCountsStored(nbObjects: int, created: nat, env: seq<Attempt>, next: nat)
    requires next <= |env|
    ensures var run := PopulateFrom(nbObjects, created, env, next);
      && next + run.issued <= |env|
      && run.created == created + StoredIn(env, next, next + run.issued)
    decreases |env| - next
  {
    var size := Min(nbObjects - created, ADD_CONCURRENCY);
    if size > 0 && |env| - next >= size {
      var stored := StoredIn(env, next, next + size);
      if FirstFatalIn(env, next, next + size).None? {
        PopulateCountsStored(nbObjects, created + stored, env, next + size);
        CountsStoredStep(env, next, size, created, PopulateFrom(nbObjects, created + stored, env, next + size));
      }
    }
  }

  /** A wave of the population: min(nbObjects - createdBefore, 100) puts, at most that many stored. */
  predicate WaveFits(nbObjects: int, w: Wave)
  {
    && w.size == Min(nbObjects - w.createdBefore, ADD_CONCURRENCY)
    && 1 <= w.size <= ADD_CONCURRENCY
    && w.createdBefore + w.size <= nbObjects
    && w.stored <= w.size
  }

  /**
   * Every wave issues min(nbObjects - created, 100) puts, so between 1 and 100
   * and never more than the objects still missing, and stores at most as many
   * objects as it issued puts.
   */
  lemma {:induction false} PopulateWaveSizes(nbObjects: int, created: nat, env: seq<Attempt>, next: nat)
    requires next <= |env|
    ensures forall w :: w in PopulateFrom(nbObjects, created, env, next).waves ==> WaveFits(nbObjects, w)
    decreases |env| - next
  {
    var size := Min(nbObjects - created, ADD_CONCURRENCY);
    if size > 0 && |env| - next >= size {
      var stored := StoredIn(env, next, next + size);
      assert WaveFits(nbObjects, Wave(created, size, stored));
      if FirstFatalIn(env, next, next + size).None? {
        PopulateWaveSizes(nbObjects, created + stored, env, next + size);
      }
    }
  }

  /**
   * The waves in order, each starting from the counter the previous one left,
   * the first from `created`, and the last leaving `final`.
   */
  predicate Chained(waves: seq<Wave>, created: int, final: int)
  {
    if waves == [] then final == created
    else waves[0].createdBefore == created && Chained(waves[1..], created + waves[0].stored, final)
  }

  /**
   * Each wave starts from the counter the previous one left, so a slot dropped
   * by a transient error is asked for again in the next wave; the run ends
   * with the counter the last wave left.
   */
  lemma {:induction false} PopulateWaveChain(nbObjects: int, created: nat, env: seq<Attempt>, next: nat)
    requires next <= |env|
    ensures var run := PopulateFrom(nbObjects, created, env, next);
      Chained(run.waves, created, run.created)
    decreases |env| - next
  {
    var size := Min(nbObjects - created, ADD_CONCURRENCY);
    if size > 0 && |env| - next >= size {
      var stored := StoredIn(env, next, next + size);
      var w := Wave(created, size, stored);
      if FirstFatalIn(env, next, next + size).None? {
        var rest := PopulateFrom(nbObjects, created + stored, env, next + size);
        PopulateWaveChain(nbObjects, created + stored, env, next + size);
        assert ([w] + rest.waves)[1..] == rest.waves;
      } else {
        assert [w][1..] == [];
      }
    }
  }

  /**
   * What a run starting at env[next] reports about fatal replies: an aborted
   * run has a last wave, no fatal reply before it, and reports the first fatal
   * reply of that wave; any other run met no fatal reply.
   */
  predicate ErrorsReported(env: seq<Attempt>, next: nat, run: AddRun)
  {
    var end := next + run.issued;
    && end <= |env|
    && (run.status.Aborted? ==>
          && run.waves != []
          && next <= end - run.waves[|run.waves| - 1].size
          && FirstFatalIn(env, next, end - run.waves[|run.waves| - 1].size).None?
          && FirstFatalIn(env, end - run.waves[|run.waves| - 1].size, end) == Some(run.status.error))
    && (!run.status.Aborted? ==> FirstFatalIn(env, next, end).None?)
  }

  /** A wave without fatal replies in front of a run keeps what the run reports. */
  lemma ErrorsReportedStep(env: seq<Attempt>, next: nat, w: Wave, rest: AddRun)
    requires next + w.size <= |env|
    requires FirstFatalIn(env, next, next + w.size).None?
    requires ErrorsReported(env, next + w.size, rest)
    ensures ErrorsReported(env, next, AfterWave(w, rest))
  {
    var run := AfterWave(w, rest);
    var end := next + run.issued;
    if rest.status.Aborted? {
      var last := rest.waves[|rest.waves| - 1];
      FirstFatalInSplit(env, next, next + w.size, end - last.size);
      assert run.waves[|run.waves| - 1] == last;
    } else {
      FirstFatalInSplit(env, next, next + w.size, end);
    }
  }

  /**
   * A fatal put error aborts the run once its wave has settled, and no wave
   * follows; transient errors never end the run. The reported error is the
   * first fatal reply of the last wave, and no earlier wave had one.
   */
  lemma {:induction false} PopulateErrors(nbObjects: int, created: nat, env: seq<Attempt>, next: nat)
    requires next <= |env|
    ensures ErrorsReported(env, next, PopulateFrom(nbObjects, created, env, next))
    decreases |env| - next
  {
    var size := Min(nbObjects - created, ADD_CONCURRENCY);
    if size > 0 && |env| - next >= size {
      var stored := StoredIn(env, next, next + size);
      if FirstFatalIn(env, next, next + size).None? {
        PopulateErrors(nbObjects, created + stored, env, next + size);
        ErrorsReportedStep(env, next, Wave(created, size, stored), PopulateFrom(nbObjects, created + stored, env, next + size));
      }
    }
  }

  /**
   * A run of `nbObjects - created` stored objects in full waves of 100 and a
   * last wave with the remainder.
   */
  predicate AllStoredShape(nbObjects: int, created: int, run: AddRun)
  {
    && run.status == Completed
    && run.created == nbObjects
    && |run.waves| == (nbObjects - created + ADD_CONCURRENCY - 1) / ADD_CONCURRENCY
    && (forall i :: 0 <= i < |run.waves| - 1 ==> run.waves[i].size == ADD_CONCURRENCY)
    && (run.waves != [] ==> run.waves[|run.waves| - 1].size == (nbObjects - created - 1) % ADD_CONCURRENCY + 1)
  }

  /** A wave of min(nbObjects - created, 100) puts in front of the rest keeps the shape. */
  lemma AllStoredStep(nbObjects: int, created: int, w: Wave, rest: AddRun)
    requires w.size == Min(nbObjects - created, ADD_CONCURRENCY) > 0
    requires AllStoredShape(nbObjects, created + w.size, rest)
    ensures AllStoredShape(nbObjects, created, AfterWave(w, rest))
  {
    var run := AfterWave(w, rest);
    assert forall i :: 1 <= i < |run.waves| ==> run.waves[i] == rest.waves[i - 1];
    if w.size < ADD_CONCURRENCY {
      assert created + w.size == nbObjects;
    }
  }

  /**
   * When every put stores, the run completes in ceil((nbObjects - created) / 100)
   * waves, all of them full except perhaps the last.
   */
  lemma {:induction false} PopulateAllStored(nbObjects: int, created: nat, env: seq<Attempt>, next: nat)
    requires next <= |env|
    requires created <= nbObjects <= created + |env| - next
    requires forall j :: next <= j < |env| ==> env[j].reply.None?
    ensures AllStoredShape(nbObjects, created, PopulateFrom(nbObjects, created, env, next))
    decreases |env| - next
  {
    var size := Min(nbObjects - created, ADD_CONCURRENCY);
    if size > 0 {
      StoredInFull(env, next, next + size);
      FirstFatalInSpec(env, next, next + size);
      PopulateAllStored(nbObjects, created + size, env, next + size);
      AllStoredStep(nbObjects, created, Wave(created, size, size), PopulateFrom(nbObjects, created + size, env, next + size));
    }
  }

  /** 1000 objects with no failing put: exactly 10 waves of 100 puts, and all 1000 are created. */
  lemma PopulateThousand(env: seq<Attempt>)
    requires |env| == 1000
    requires forall j :: 0 <= j < |env| ==> env[j].reply.None?
    ensures var run := Populate(1000, env);
      && run.status == Completed && run.created == 1000 && |run.waves| == 10
      && forall i :: 0 <= i < 10 ==> run.waves[i].size == 100
  {
    PopulateAllStored(1000, 0, env, 0);
  }

  /**
   * Keys produced pairwise distinct give stored objects with pairwise distinct
   * keys, and every stored object is the template with its own key.
   */
  lemma DistinctKeysStored(bucketName: string, objectTemplate: Object, puts: seq<Put>, env: seq<Attempt>)
    requires PutsFor(bucketName, objectTemplate, puts, env, 0)
    requires forall i, j :: 0 <= i < j < |env| ==> env[i].key != env[j].key
    ensures forall i, j :: 0 <= i < j < |puts| ==> puts[i].key != puts[j].key && puts[i].value != puts[j].value
  {
    forall i, j | 0 <= i < j < |puts|
      ensures puts[i].key != puts[j].key && puts[i].value != puts[j].value
    {
      assert puts[i].value["uuid"] != puts[j].value["uuid"];
    }
  }

  // ---------------------------------------------------------------------------
  // reindexObjects
  // ---------------------------------------------------------------------------

  /**
   * The store's answer to one reindex call: how many objects remain, or an
   * error. The count is not assumed non-negative: only an exact 0 ends the loop.
   */
  datatype ReindexReply = Remaining(remaining: int) | ReindexFailed(error: Error)

  datatype ReindexRequest = ReindexRequest(bucket: string, reindexCount: int)

  datatype DrainStatus = Drained | DrainFailed(error: Error) | DrainUnfinished

  datatype DrainRun = DrainRun(status: DrainStatus, calls: nat)

  /** An answer that ends the loop: an error, or nothing remaining. */
  predicate IsTerminal(reply: ReindexReply)
  {
    reply.ReindexFailed? || reply.remaining == 0
  }

  /**
   * The drain loop over the store's answers, in the order it gets them. Every
   * call is sent before its answer arrives, so when the answers run out one
   * call is still outstanding and counts.
   */
  function Drain(replies: seq<ReindexReply>): DrainRun
  {
    if replies == [] then DrainRun(DrainUnfinished, 1)
    else match replies[0]
      case ReindexFailed(e) => DrainRun(DrainFailed(e), 1)
      case Remaining(n) =>
        if n == 0 then DrainRun(Drained, 1)
        else var rest := Drain(replies[1..]); rest.(calls := rest.calls + 1)
  }

  /**
   * reindexObjects: call the store with the same chunk size until it answers
   * with an error or with nothing remaining.
   */
  method ReindexObjects(bucketName: string, reindexCount: int, replies: seq<ReindexReply>)
    returns (run: DrainRun, requests: seq<ReindexRequest>)
    ensures run == Drain(replies)
    ensures |requests| == run.calls
    ensures forall j :: 0 <= j < |requests| ==> requests[j] == ReindexRequest(bucketName, reindexCount)
  {
    var calls := 0;
    requests := [];
    while true
      invariant 0 <= calls <= |replies|
      invariant |requests| == calls
      invariant forall j :: 0 <= j < calls ==> requests[j] == ReindexRequest(bucketName, reindexCount)
      invariant Drain(replies) == Drain(replies[calls..]).(calls := Drain(replies[calls..]).calls + calls)
      decreases |replies| - calls
    {
      requests := requests + [ReindexRequest(bucketName, reindexCount)];
      if calls == |replies| {
        run := DrainRun(DrainUnfinished, calls + 1);
        return;
      }
      var reply := replies[calls];
      assert replies[calls..][1..] == replies[calls + 1..];
      calls := calls + 1;
      match reply
      case ReindexFailed(e) =>
        run := DrainRun(DrainFailed(e), calls);
        return;
      case Remaining(remaining) =>
        if remaining == 0 {
          run := DrainRun(Drained, calls);
          return;
        }
    }
  }

  /**
   * The loop stops at the first answer that is an error or reports nothing
   * remaining; success means that answer was 0, failure means it was the error.
   * When no answer ends it, it has sent one call more than it got answers.
   */
  lemma {:induction false} DrainStopsAtFirstTerminal(replies: seq<ReindexReply>)
    ensures var run := Drain(replies);
      && 1 <= run.calls <= |replies| + 1
      && (forall j :: 0 <= j < run.calls - 1 ==> !IsTerminal(replies[j]))
      && (run.status == DrainUnfinished <==> forall j :: 0 <= j < |replies| ==> !IsTerminal(replies[j]))
      && (run.status == DrainUnfinished ==> run.calls == |replies| + 1)
      && (run.status == Drained ==> run.calls >= 1 && replies[run.calls - 1] == Remaining(0))
      && (run.status.DrainFailed? ==>
            run.calls >= 1 && replies[run.calls - 1] == ReindexFailed(run.status.error))
  {
    if replies != [] && !IsTerminal(replies[0]) {
      DrainStopsAtFirstTerminal(replies[1..]);
      assert forall j :: 1 <= j < |replies| ==> replies[j] == replies[1..][j - 1];
    }
  }

  /** Answers whose remaining counts strictly decrease. */
  predicate StrictlyDecreasing(replies: seq<ReindexReply>)
  {
    forall i :: 0 <= i < |replies| - 1 ==>
      replies[i].Remaining? && replies[i + 1].Remaining? ==>
        replies[i + 1].remaining < replies[i].remaining
  }

  /**
   * A store whose remaining count never goes below 0 and strictly decreases
   * ends the loop within (first remaining count + 1) calls.
   */
  lemma {:induction false} DrainTerminates(replies: seq<ReindexReply>)
    requires replies != []
    requires StrictlyDecreasing(replies)
    requires forall i :: 0 <= i < |replies| && replies[i].Remaining? ==> replies[i].remaining >= 0
    requires replies[0].Remaining? ==> replies[0].remaining < |replies|
    ensures Drain(replies).status != DrainUnfinished
    ensures Drain(replies).calls <= (if replies[0].Remaining? then replies[0].remaining else 0) + 1
  {
    if !IsTerminal(replies[0]) {
      DrainTerminates(replies[1..]);
    }
  }

  /**
   * A negative count is not 0, so the loop calls again: answers -1 then 0 take
   * two calls, and a lone -1 leaves a second call waiting.
   */
  lemma NegativeRemainingContinues()
    ensures Drain([Remaining(-1), Remaining(0)]) == DrainRun(Drained, 2)
    ensures Drain([Remaining(-1)]) == DrainRun(DrainUnfinished, 2)
  {
    assert [Remaining(-1), Remaining(0)][1..] == [Remaining(0)];
    assert [Remaining(-1)][1..] == [];
  }

  /** Answers 300, 200, 100, 0: the loop succeeds after exactly 4 calls. */
  lemma DrainFixture()
    ensures Drain([Remaining(300), Remaining(200), Remaining(100), Remaining(0)]) == DrainRun(Drained, 4)
  {
    var rs := [Remaining(300), Remaining(200), Remaining(100), Remaining(0)];
    assert rs[1..][1..][1..] == [Remaining(0)];
  }

  // ---------------------------------------------------------------------------
  // findObjectsWithFilter
  // ---------------------------------------------------------------------------

  /** What a scan emits: a record, its end, or an error. */
  datatype FindEvent = RecordEvent(record: Record) | EndEvent | ErrorEvent(error: Error)

  datatype FindOptions = FindOptions(requiredBucketVersion: Option<int>)

  /** The scan request sent to the store. */
  datatype FindRequest = FindRequest(bucket: string, filter: string, requiredBucketVersion: Option<int>, noLimit: bool)

  /** How the callback is called: with no error, with an error, or not yet. */
  datatype FindStatus = FindEnded | FindErrored(error: Error) | FindPending

  datatype FindResult = FindResult(status: FindStatus, objects: seq<Record>)

  /** The records of a scan up to its end or error. */
  function Collect(events: seq<FindEvent>): FindResult
  {
    if events == [] then FindResult(FindPending, [])
    else match events[0]
      case EndEvent => FindResult(FindEnded, [])
      case ErrorEvent(e) => FindResult(FindErrored(e), [])
      case RecordEvent(r) =>
        var rest := Collect(events[1..]);
        rest.(objects := [r] + rest.objects)
  }

  /**
   * The collected records are the records emitted before the first end or
   * error event, in arrival order; the callback reports that event, with the
   * records gathered so far when it is an error.
   */
  lemma {:induction false} CollectSpec(events: seq<FindEvent>)
    ensures var result := Collect(events);
      var k := |result.objects|;
      && k <= |events|
      && (forall j :: 0 <= j < k ==> events[j] == RecordEvent(result.objects[j]))
      && (result.status == FindPending <==> k == |events|)
      && (result.status == FindEnded ==> k < |events| && events[k] == EndEvent)
      && (result.status.FindErrored? ==> k < |events| && events[k] == ErrorEvent(result.status.error))
  {
    if events != [] && events[0].RecordEvent? {
      CollectSpec(events[1..]);
      var rest := Collect(events[1..]);
      assert forall j :: 1 <= j < |events| ==> events[j] == events[1..][j - 1];
      assert Collect(events).objects == [events[0].record] + rest.objects;
    }
  }

  /** findObjectsWithFilter: an unbounded scan whose records are appended as they arrive. */
  method FindObjectsWithFilter(bucketName: string, filter: string, options: FindOptions, events: seq<FindEvent>)
    returns (request: FindRequest, result: FindResult)
    ensures request == FindRequest(bucketName, filter, options.requiredBucketVersion, true)
    ensures result == Collect(events)
  {
    request := FindRequest(bucketName, filter, options.requiredBucketVersion, true);
    var objects: seq<Record> := [];
    var i := 0;
    while i < |events|
      invariant 0 <= i <= |events|
      invariant forall j :: 0 <= j < i ==> events[j].RecordEvent?
      invariant Collect(events) == Collect(events[i..]).(objects := objects + Collect(events[i..]).objects)
    {
      assert events[i..][1..] == events[i + 1..];
      match events[i]
      case ErrorEvent(err) =>
        result := FindResult(FindErrored(err), objects);
        return;
      case EndEvent =>
        result := FindResult(FindEnded, objects);
        return;
      case RecordEvent(obj) =>
        objects := objects + [obj];
      i := i + 1;
    }
    result := FindResult(FindPending, objects);
  }

  // ---------------------------------------------------------------------------
  // searchForObjects
  // ---------------------------------------------------------------------------

  datatype ExpectedProperty = ExpectedProperty(name: string, value: Value)

  datatype ExpectedResults = ExpectedResults(
    nbObjectsExpected: Option<int>,
    expectedProperties: Option<seq<ExpectedProperty>>)

  /** What a search reports: records found, records expected, and each property check. */
  datatype SearchLog = SearchLog(nbFound: nat, nbExpected: int, propertyChecks: seq<bool>)

  datatype SearchResult = SearchSucceeded(log: SearchLog) | SearchFailed(error: Error) | SearchPending

  predicate HasProperty(rec: Record, name: string, value: Value)
  {
    name in rec.value && rec.value[name] == value
  }

  /** Array.prototype.some over the records: does one of them carry the value? */
  function SomeHasProperty(objects: seq<Record>, name: string, value: Value): bool
  {
    if objects == [] then false
    else HasProperty(objects[0], name, value) || SomeHasProperty(objects[1..], name, value)
  }

  /** The property check is existential: one matching record suffices, whatever the others hold. */
  lemma {:induction false} SomeHasPropertyIsExistential(objects: seq<Record>, name: string, value: Value)
    ensures SomeHasProperty(objects, name, value) <==>
      exists i :: 0 <= i < |objects| && HasProperty(objects[i], name, value)
  {
    if objects != [] {
      SomeHasPropertyIsExistential(objects[1..], name, value);
      if exists i :: 0 <= i < |objects| && HasProperty(objects[i], name, value) {
        var i :| 0 <= i < |objects| && HasProperty(objects[i], name, value);
        if i > 0 { assert objects[1..][i - 1] == objects[i]; }
      }
    }
  }

  /** The expected count: nbObjectsExpected, 0 when absent. */
  function NbObjectsExpected(expectedResults: ExpectedResults): int
  {
    match expectedResults.nbObjectsExpected
    case Some(n) => n
    case None => 0
  }

  /**
   * searchForObjects: a scan error is passed on; otherwise the search succeeds
   * whatever the count and the property checks say, and only reports them.
   */
  method SearchForObjects(bucketName: string, filter: string, options: FindOptions,
                          expectedResults: ExpectedResults, events: seq<FindEvent>)
    returns (request: FindRequest, result: SearchResult)
    ensures request == FindRequest(bucketName, filter, options.requiredBucketVersion, true)
    ensures Collect(events).status == FindPending ==> result == SearchPending
    ensures Collect(events).status.FindErrored? ==> result == SearchFailed(Collect(events).status.error)
    ensures Collect(events).status == FindEnded ==>
      && result.SearchSucceeded?
      && result.log.nbFound == |Collect(events).objects|
      && result.log.nbExpected == NbObjectsExpected(expectedResults)
      && var properties := if expectedResults.expectedProperties.Some? then expectedResults.expectedProperties.value else [];
         && |result.log.propertyChecks| == |properties|
         && forall k :: 0 <= k < |properties| ==>
              (result.log.propertyChecks[k] <==>
                exists i :: 0 <= i < |Collect(events).objects| &&
                  HasProperty(Collect(events).objects[i], properties[k].name, properties[k].value))
  {
    var found;
    request, found := FindObjectsWithFilter(bucketName, filter, options, events);
    var nbObjectsExpected := NbObjectsExpected(expectedResults);
    match found.status
    case FindPending =>
      result := SearchPending;
    case FindErrored(err) =>
      result := SearchFailed(err);
    case FindEnded =>
      var objectsFound := found.objects;
      var checks: seq<bool> := [];
      if expectedResults.expectedProperties.Some? {
        var properties := expectedResults.expectedProperties.value;
        for k := 0 to |properties|
          invariant |checks| == k
          invariant forall m :: 0 <= m < k ==>
            (checks[m] <==>
               exists i :: 0 <= i < |objectsFound| && HasProperty(objectsFound[i], properties[m].name, properties[m].value))
        {
          var allValuesMatch := SomeHasProperty(objectsFound, properties[k].name, properties[k].value);
          SomeHasPropertyIsExistential(objectsFound, properties[k].name, properties[k].value);
          checks := checks + [allValuesMatch];
        }
      }
      result := SearchSucceeded(SearchLog(|objectsFound|, nbObjectsExpected, checks));
  }
}
