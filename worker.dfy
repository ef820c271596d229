/**
 * The background job of src/worker.py: `process_data_task` drives the job
 * record `job:{id}` (a Redis hash) through "processing" to "completed" or
 * "failed", and stores the result object `results/{id}.json` (an S3 object)
 * in between.
 *
 * The Redis key space and the bucket are two maps held by `Backends`; the
 * effect of one run is specified by the function `RunTask`, and the lemmas
 * below state what a run promises. Which step raises, if any, is the
 * explicit parameter `fault`.
 */
module Worker {
  import opened Wrappers

  /** One Redis hash: field name to value. */
  type Hash = map<string, string>

  /** The Redis key space as the worker sees it. */
  type HashStore = map<string, Hash>

  /** The result bucket: object key to body. */
  type ObjectStore = map<string, string>

  /**
   * A JSON value as Python holds it after parsing: integers and floats stay
   * apart, since `str` prints 1 and 1.0 differently, and an object keeps its
   * members in insertion order, since `json.dumps` and `str` print them in
   * that order.
   */
  datatype Json =
    | JNull
    | JBool(b: bool)
    | JInt(i: int)
    | JFloat(f: real)
    | JString(s: string)
    | JArray(items: seq<Json>)
    | JObject(members: seq<(string, Json)>)

  /** The payload of a job: a JSON object's members, in insertion order. */
  type Payload = seq<(string, Json)>

  /** The dictionary the task returns and stores. */
  datatype JobResult = JobResult(processed: bool, inputSize: nat, jobId: string)

  /**
   * Python's text forms, whose exact output is not modelled: `json.dumps`
   * of the payload, `str` of the payload, and `json.dumps` of the result.
   */
  datatype Renderer = Renderer(dumps: Payload -> string, text: Payload -> string, dumpsResult: JobResult -> string)

  /** The steps inside the task's `try` block. */
  datatype Step = MarkProcessing | BuildResult | StoreResult | MarkCompleted

  /**
   * Whether a step raises, with the exception's message, and whether the
   * handler's own "failed" write raises in turn (then that exception is the
   * one that propagates).
   */
  datatype Fault = NoFault | Raises(step: Step, message: string, handlerRaises: Option<string>)

  predicate FailsAt(fault: Fault, step: Step) {
    fault.Raises? && fault.step == step
  }

  datatype Stores = Stores(records: HashStore, objects: ObjectStore)

  /** What the task hands back to its caller: its result, or the exception it raises. */
  datatype Outcome = Returned(result: JobResult) | Raised(message: string)

  datatype Run = Run(stores: Stores, outcome: Outcome)

  // ---------------------------------------------------------------------
  // Keys and hash writes
  // ---------------------------------------------------------------------

  function JobKey(jobId: string): string {
    "job:" + jobId
  }

  function ResultKey(jobId: string): string {
    "results/" + jobId + ".json"
  }

  /** Distinct jobs have distinct record keys. */
  lemma JobKeyInjective(a: string, b: string)
    ensures JobKey(a) == JobKey(b) <==> a == b
  {
    if JobKey(a) == JobKey(b) {
      assert a == JobKey(a)[4..];
      assert b == JobKey(b)[4..];
    }
  }

  /** Distinct jobs have distinct result objects. */
  lemma ResultKeyInjective(a: string, b: string)
    ensures ResultKey(a) == ResultKey(b) <==> a == b
  {
    if ResultKey(a) == ResultKey(b) {
      assert |a| == |b|;
      assert a == ResultKey(a)[8..8 + |a|];
      assert b == ResultKey(b)[8..8 + |b|];
    }
  }

  function HashAt(db: HashStore, key: string): Hash {
    if key in db then db[key] else map[]
  }

  /** The value of field `f` in the hash at `key`, if there is one. */
  function Field(db: HashStore, key: string, f: string): Option<string> {
    if key in db && f in db[key] then Some(db[key][f]) else None
  }

  /**
   * Redis `HSET key mapping`: sets the listed fields, keeps every other
   * field of the hash, creates the hash if it is missing, and touches no
   * other key.
   */
  function HSet(db: HashStore, key: string, fields: Hash): (db': HashStore)
    ensures db'.Keys == db.Keys + {key}
    ensures db'[key].Keys == HashAt(db, key).Keys + fields.Keys
    ensures forall f :: f in fields ==> Field(db', key, f) == Some(fields[f])
    ensures forall f :: f !in fields ==> Field(db', key, f) == Field(db, key, f)
    ensures forall k :: k in db && k != key ==> db'[k] == db[k]
  {
    db[key := HashAt(db, key) + fields]
  }

  function ProcessingFields(startedAt: string): Hash {
    map["status" := "processing", "progress" := "0.0", "started_at" := startedAt]
  }

  function CompletedFields(jobId: string): Hash {
    map["status" := "completed", "progress" := "1.0", "result_path" := ResultKey(jobId)]
  }

  function FailedFields(message: string): Hash {
    map["status" := "failed", "error" := message]
  }

  /** The placeholder processing: the size of the payload's text form. */
  function ResultOf(jobId: string, data: Payload, r: Renderer): (res: JobResult)
    ensures res.processed && res.jobId == jobId && res.inputSize == |r.text(data)|
  {
    JobResult(true, |r.text(data)|, jobId)
  }

  // ---------------------------------------------------------------------
  // One run of the task, as a function of the stores before it
  // ---------------------------------------------------------------------

  /** The `except` branch: record the failure and re-raise, unless that write itself raises. */
  function Recover(st: Stores, jobId: string, fault: Fault): Run
    requires fault.Raises?
  {
    match fault.handlerRaises
    case None => Run(st.(records := HSet(st.records, JobKey(jobId), FailedFields(fault.message))), Raised(fault.message))
    case Some(m) => Run(st, Raised(m))
  }

  /** The stores after the "processing" write. */
  function Started(st: Stores, jobId: string, data: Payload, r: Renderer): Stores {
    st.(records := HSet(st.records, JobKey(jobId), ProcessingFields(r.dumps(data))))
  }

  /** The stores after the result object is written. */
  function Stored(st: Stores, jobId: string, data: Payload, r: Renderer): Stores {
    st.(objects := st.objects[ResultKey(jobId) := r.dumpsResult(ResultOf(jobId, data, r))])
  }

  /** The stores after the "completed" write. */
  function Completed(st: Stores, jobId: string): Stores {
    st.(records := HSet(st.records, JobKey(jobId), CompletedFields(jobId)))
  }

  /**
   * One run of `process_data_task`: it returns the result exactly when no
   * step raises; otherwise it raises the step's exception, or the handler's
   * own exception when recording the failure raises.
   */
  function RunTask(st: Stores, jobId: string, data: Payload, r: Renderer, fault: Fault): (run: Run)
    ensures run.outcome.Returned? <==> fault == NoFault
    ensures run.outcome.Returned? ==> run.outcome.result == ResultOf(jobId, data, r)
    ensures fault.Raises? ==> run.outcome == Raised(fault.handlerRaises.GetOr(fault.message))
  {
    if FailsAt(fault, MarkProcessing) then Recover(st, jobId, fault)
    else
      var st1 := Started(st, jobId, data, r);
      if FailsAt(fault, BuildResult) || FailsAt(fault, StoreResult) then Recover(st1, jobId, fault)
      else
        var st2 := Stored(st1, jobId, data, r);
        if FailsAt(fault, MarkCompleted) then Recover(st2, jobId, fault)
        else Run(Completed(st2, jobId), Returned(ResultOf(jobId, data, r)))
  }

  // ---------------------------------------------------------------------
  // What a run promises
  // ---------------------------------------------------------------------

  /**
   * A run without a fault leaves the record completed with progress 1.0 and
   * a result path naming the stored object, which holds the serialised
   * result; the result reports the job, the payload's size and success.
   */
  lemma CompletedRun(st: Stores, jobId: string, data: Payload, r: Renderer)
    ensures var run := RunTask(st, jobId, data, r, NoFault);
      var records := run.stores.records;
      && run.outcome == Returned(JobResult(true, |r.text(data)|, jobId))
      && Field(records, JobKey(jobId), "status") == Some("completed")
      && Field(records, JobKey(jobId), "progress") == Some("1.0")
      && Field(records, JobKey(jobId), "result_path") == Some(ResultKey(jobId))
      && Field(records, JobKey(jobId), "started_at") == Some(r.dumps(data))
      && ResultKey(jobId) in run.stores.objects
      && run.stores.objects[ResultKey(jobId)] == r.dumpsResult(run.outcome.result)
  {
    var st1 := Started(st, jobId, data, r);
    var st2 := Stored(st1, jobId, data, r);
    RunWithoutFault(st, jobId, data, r);
    StartedFields(st, jobId, data, r);
    StoredFields(st1, jobId, data, r);
    CompletedWrite(st2, jobId);
  }

  /** A run without a fault is the three writes in order. */
  lemma RunWithoutFault(st: Stores, jobId: string, data: Payload, r: Renderer)
    ensures RunTask(st, jobId, data, r, NoFault)
         == Run(Completed(Stored(Started(st, jobId, data, r), jobId, data, r), jobId), Returned(ResultOf(jobId, data, r)))
  {
  }

  /**
   * The completed write merges into the record: its fields are the old
   * ones plus status, progress, started_at and result_path, and every other
   * field keeps its old value.
   */
  lemma CompletedRunMerges(st: Stores, jobId: string, data: Payload, r: Renderer)
    ensures var records := RunTask(st, jobId, data, r, NoFault).stores.records;
      && JobKey(jobId) in records
      && records[JobKey(jobId)].Keys
         == HashAt(st.records, JobKey(jobId)).Keys + {"status", "progress", "started_at", "result_path"}
      && forall f :: f !in {"status", "progress", "started_at", "result_path"} ==>
           Field(records, JobKey(jobId), f) == Field(st.records, JobKey(jobId), f)
  {
    RunWithoutFault(st, jobId, data, r);
    var p := ProcessingFields(r.dumps(data));
    var c := CompletedFields(jobId);
    assert p.Keys + c.Keys == {"status", "progress", "started_at", "result_path"};
    HSetTwiceKeys(st.records, JobKey(jobId), p, c);
  }

  /** Two writes to one hash leave the fields of both, the later value winning. */
  lemma HSetTwice(db: HashStore, key: string, a: Hash, b: Hash)
    ensures var db' := HSet(HSet(db, key, a), key, b);
      && key in db'
      && db'[key].Keys == HashAt(db, key).Keys + (a.Keys + b.Keys)
      && (forall f :: f in b ==> Field(db', key, f) == Some(b[f]))
      && (forall f :: f in a && f !in b ==> Field(db', key, f) == Some(a[f]))
      && (forall f :: f !in a.Keys + b.Keys ==> Field(db', key, f) == Field(db, key, f))
  {
    HSetTwiceKeys(db, key, a, b);
  }

  /**
   * The part of `HSetTwice` about which fields exist. `CompletedRunMerges`
   * uses it alone: with the two clauses about values in its context, that
   * proof runs out of resource.
   */
  lemma HSetTwiceKeys(db: HashStore, key: string, a: Hash, b: Hash)
    ensures var db' := HSet(HSet(db, key, a), key, b);
      && key in db'
      && db'[key].Keys == HashAt(db, key).Keys + (a.Keys + b.Keys)
      && (forall f :: f !in a.Keys + b.Keys ==> Field(db', key, f) == Field(db, key, f))
  {
  }

  /**
   * When a step raises and the handler's write succeeds, the record is
   * "failed" with the exception's message as its error, and the same
   * exception reaches the caller.
   */
  lemma FailedRun(st: Stores, jobId: string, data: Payload, r: Renderer, step: Step, message: string)
    ensures var run := RunTask(st, jobId, data, r, Raises(step, message, None));
      && run.outcome == Raised(message)
      && Field(run.stores.records, JobKey(jobId), "status") == Some("failed")
      && Field(run.stores.records, JobKey(jobId), "error") == Some(message)
  {
    var fault := Raises(step, message, None);
    var st1 := Started(st, jobId, data, r);
    var st2 := Stored(st1, jobId, data, r);
    var stk := if step == MarkProcessing then st else if step == MarkCompleted then st2 else st1;
    assert RunTask(st, jobId, data, r, fault) == Recover(stk, jobId, fault);
    assert "status" in FailedFields(message) && "error" in FailedFields(message);
  }

  /**
   * "completed" is written only after the object was stored: when the
   * result cannot be built or stored, the bucket is untouched, progress is
   * still 0.0 and result_path is whatever it was before this run.
   */
  lemma FailureBeforeStoreLeavesNoResult(st: Stores, jobId: string, data: Payload, r: Renderer,
                                         step: Step, message: string, handler: Option<string>)
    requires step == BuildResult || step == StoreResult
    ensures var run := RunTask(st, jobId, data, r, Raises(step, message, handler));
      && run.stores.objects == st.objects
      && Field(run.stores.records, JobKey(jobId), "progress") == Some("0.0")
      && Field(run.stores.records, JobKey(jobId), "result_path") == Field(st.records, JobKey(jobId), "result_path")
      && Field(run.stores.records, JobKey(jobId), "status") != Some("completed")
  {
    var fault := Raises(step, message, handler);
    var st1 := Started(st, jobId, data, r);
    assert RunTask(st, jobId, data, r, fault) == Recover(st1, jobId, fault);
    StartedFields(st, jobId, data, r);
    RecoverFields(st1, jobId, fault);
  }

  /**
   * When the final write raises, the object is already stored, yet the
   * record says "failed" (or, if the handler's write raises as well,
   * "processing") and progress stays 0.0.
   */
  lemma FailureAtCompletedWrite(st: Stores, jobId: string, data: Payload, r: Renderer,
                                message: string, handler: Option<string>)
    ensures var run := RunTask(st, jobId, data, r, Raises(MarkCompleted, message, handler));
      && ResultKey(jobId) in run.stores.objects
      && Field(run.stores.records, JobKey(jobId), "progress") == Some("0.0")
      && Field(run.stores.records, JobKey(jobId), "status") == Some(if handler.None? then "failed" else "processing")
  {
    var fault := Raises(MarkCompleted, message, handler);
    var st1 := Started(st, jobId, data, r);
    var st2 := Stored(st1, jobId, data, r);
    assert RunTask(st, jobId, data, r, fault) == Recover(st2, jobId, fault);
    StartedFields(st, jobId, data, r);
    RecoverFields(st2, jobId, fault);
  }

  /** The processing write sets status and progress, keeps every other field, and leaves the bucket alone. */
  lemma StartedFields(st: Stores, jobId: string, data: Payload, r: Renderer)
    ensures var st1 := Started(st, jobId, data, r);
      && st1.objects == st.objects
      && Field(st1.records, JobKey(jobId), "status") == Some("processing")
      && Field(st1.records, JobKey(jobId), "progress") == Some("0.0")
      && Field(st1.records, JobKey(jobId), "result_path") == Field(st.records, JobKey(jobId), "result_path")
      && Field(st1.records, JobKey(jobId), "started_at") == Some(r.dumps(data))
  {
    assert "result_path" !in ProcessingFields(r.dumps(data));
  }

  /** The object write stores the serialised result under the job's result key and leaves the records alone. */
  lemma StoredFields(st: Stores, jobId: string, data: Payload, r: Renderer)
    ensures var st2 := Stored(st, jobId, data, r);
      && st2.records == st.records
      && ResultKey(jobId) in st2.objects
      && st2.objects[ResultKey(jobId)] == r.dumpsResult(ResultOf(jobId, data, r))
  {
  }

  /** The completed write sets status, progress and result_path, keeps started_at, and leaves the bucket alone. */
  lemma CompletedWrite(st: Stores, jobId: string)
    ensures var st3 := Completed(st, jobId);
      && st3.objects == st.objects
      && Field(st3.records, JobKey(jobId), "status") == Some("completed")
      && Field(st3.records, JobKey(jobId), "progress") == Some("1.0")
      && Field(st3.records, JobKey(jobId), "result_path") == Some(ResultKey(jobId))
      && Field(st3.records, JobKey(jobId), "started_at") == Field(st.records, JobKey(jobId), "started_at")
  {
    assert "started_at" !in CompletedFields(jobId);
  }

  /** The handler's write sets status and error only; if it raises, nothing changes. */
  lemma RecoverFields(st: Stores, jobId: string, fault: Fault)
    requires fault.Raises?
    ensures var st' := Recover(st, jobId, fault).stores;
      && st'.objects == st.objects
      && Field(st'.records, JobKey(jobId), "status")
         == (if fault.handlerRaises.None? then Some("failed") else Field(st.records, JobKey(jobId), "status"))
      && Field(st'.records, JobKey(jobId), "progress") == Field(st.records, JobKey(jobId), "progress")
      && Field(st'.records, JobKey(jobId), "result_path") == Field(st.records, JobKey(jobId), "result_path")
  {
    assert "progress" !in FailedFields(fault.message);
    assert "result_path" !in FailedFields(fault.message);
  }

  /**
   * The record never stays "processing" when the handler's write succeeds;
   * when it raises after the processing write, the record is left there.
   */
  lemma TerminalStatus(st: Stores, jobId: string, data: Payload, r: Renderer, fault: Fault)
    ensures var status := Field(RunTask(st, jobId, data, r, fault).stores.records, JobKey(jobId), "status");
      && (fault.Raises? && fault.handlerRaises.Some? && fault.step != MarkProcessing ==> status == Some("processing"))
      && (!(fault.Raises? && fault.handlerRaises.Some?) ==> status == Some("completed") || status == Some("failed"))
  {
    var st1 := Started(st, jobId, data, r);
    var st2 := Stored(st1, jobId, data, r);
    if fault == NoFault {
      CompletedRun(st, jobId, data, r);
    } else if fault.step == MarkProcessing {
      assert RunTask(st, jobId, data, r, fault) == Recover(st, jobId, fault);
      RecoverFields(st, jobId, fault);
    } else if fault.step == BuildResult || fault.step == StoreResult {
      assert RunTask(st, jobId, data, r, fault) == Recover(st1, jobId, fault);
      StartedFields(st, jobId, data, r);
      RecoverFields(st1, jobId, fault);
    } else {
      assert RunTask(st, jobId, data, r, fault) == Recover(st2, jobId, fault);
      StartedFields(st, jobId, data, r);
      StoredFields(st1, jobId, data, r);
      RecoverFields(st2, jobId, fault);
    }
  }

  /** A run changes only `job:{id}` and `results/{id}.json`, and deletes no key and no field. */
  lemma RunTouchesOnlyItsKeys(st: Stores, jobId: string, data: Payload, r: Renderer, fault: Fault)
    ensures Frame(st, RunTask(st, jobId, data, r, fault).stores, jobId)
  {
    var st1 := Started(st, jobId, data, r);
    var st2 := Stored(st1, jobId, data, r);
    var st' := RunTask(st, jobId, data, r, fault).stores;
    if FailsAt(fault, MarkProcessing) {
      assert st' == Recover(st, jobId, fault).stores;
      RecoverFrame(st, jobId, fault);
    } else {
      StartedFrame(st, jobId, data, r);
      if FailsAt(fault, BuildResult) || FailsAt(fault, StoreResult) {
        assert st' == Recover(st1, jobId, fault).stores;
        RecoverFrame(st1, jobId, fault);
        FramesCompose(st, st1, st', jobId);
      } else {
        StoredFrame(st1, jobId, data, r);
        FramesCompose(st, st1, st2, jobId);
        if FailsAt(fault, MarkCompleted) {
          assert st' == Recover(st2, jobId, fault).stores;
          RecoverFrame(st2, jobId, fault);
        } else {
          assert st' == Completed(st2, jobId);
          CompletedFrame(st2, jobId);
        }
        FramesCompose(st, st2, st', jobId);
      }
    }
  }

  /** `b` differs from `a` only at the job's two keys, and keeps every key and field of `a`. */
  ghost predicate Frame(a: Stores, b: Stores, jobId: string) {
    && a.records.Keys <= b.records.Keys
    && b.records.Keys <= a.records.Keys + {JobKey(jobId)}
    && (forall k :: k in a.records && k != JobKey(jobId) ==> b.records[k] == a.records[k])
    && (forall f :: f in HashAt(a.records, JobKey(jobId)) ==> f in HashAt(b.records, JobKey(jobId)))
    && a.objects.Keys <= b.objects.Keys
    && b.objects.Keys <= a.objects.Keys + {ResultKey(jobId)}
    && (forall k :: k in a.objects && k != ResultKey(jobId) ==> b.objects[k] == a.objects[k])
  }

  lemma FramesCompose(a: Stores, b: Stores, c: Stores, jobId: string)
    requires Frame(a, b, jobId) && Frame(b, c, jobId)
    ensures Frame(a, c, jobId)
  {
  }

  lemma StartedFrame(a: Stores, jobId: string, data: Payload, r: Renderer)
    ensures Frame(a, Started(a, jobId, data, r), jobId)
  {
  }

  lemma StoredFrame(a: Stores, jobId: string, data: Payload, r: Renderer)
    ensures Frame(a, Stored(a, jobId, data, r), jobId)
  {
  }

  lemma CompletedFrame(a: Stores, jobId: string)
    ensures Frame(a, Completed(a, jobId), jobId)
  {
  }

  lemma RecoverFrame(a: Stores, jobId: string, fault: Fault)
    requires fault.Raises?
    ensures Frame(a, Recover(a, jobId, fault).stores, jobId)
  {
  }

  // ---------------------------------------------------------------------
  // An invariant of the two stores across runs
  // ---------------------------------------------------------------------

  /** A completed record names its stored result; a failed one carries an error. */
  predicate RecordConsistent(jobId: string, h: Hash, objects: ObjectStore) {
    && ("status" in h && h["status"] == "completed" ==>
          "result_path" in h && h["result_path"] == ResultKey(jobId) && ResultKey(jobId) in objects)
    && ("status" in h && h["status"] == "failed" ==> "error" in h)
  }

  ghost predicate Consistent(st: Stores) {
    forall jobId :: JobKey(jobId) in st.records ==> RecordConsistent(jobId, st.records[JobKey(jobId)], st.objects)
  }

  /** Every run, whichever step raises, keeps the stores consistent. */
  lemma RunPreservesConsistency(st: Stores, jobId: string, data: Payload, r: Renderer, fault: Fault)
    requires Consistent(st)
    ensures Consistent(RunTask(st, jobId, data, r, fault).stores)
  {
    var st' := RunTask(st, jobId, data, r, fault).stores;
    RunTouchesOnlyItsKeys(st, jobId, data, r, fault);
    OwnRecordConsistent(st, jobId, data, r, fault);
    forall other | JobKey(other) in st'.records
      ensures RecordConsistent(other, st'.records[JobKey(other)], st'.objects)
    {
      JobKeyInjective(other, jobId);
      if other != jobId {
        assert st'.records[JobKey(other)] == st.records[JobKey(other)];
        assert RecordConsistent(other, st.records[JobKey(other)], st.objects);
      }
    }
  }

  /** A run that starts from consistent stores leaves its own record consistent. */
  lemma OwnRecordConsistent(st: Stores, jobId: string, data: Payload, r: Renderer, fault: Fault)
    requires Consistent(st)
    ensures var st' := RunTask(st, jobId, data, r, fault).stores;
      JobKey(jobId) in st'.records ==> RecordConsistent(jobId, st'.records[JobKey(jobId)], st'.objects)
  {
    var key := JobKey(jobId);
    var st' := RunTask(st, jobId, data, r, fault).stores;
    if fault == NoFault {
      CompletedRun(st, jobId, data, r);
    } else if fault.handlerRaises.None? {
      FailedRun(st, jobId, data, r, fault.step, fault.message);
    } else if fault.step == MarkProcessing {
      assert st' == st;
      if key in st.records {
        assert RecordConsistent(jobId, st.records[key], st.objects);
      }
    } else {
      TerminalStatus(st, jobId, data, r, fault);
      assert Field(st'.records, key, "status") == Some("processing");
    }
  }

  /**
   * Nothing removes an old error: a run that fails and a rerun that
   * succeeds leave a completed record that still carries the error.
   */
  lemma RerunKeepsStaleError(st: Stores, jobId: string, data: Payload, r: Renderer, message: string)
    ensures var failed := RunTask(st, jobId, data, r, Raises(BuildResult, message, None)).stores;
      var records := RunTask(failed, jobId, data, r, NoFault).stores.records;
      && Field(records, JobKey(jobId), "status") == Some("completed")
      && Field(records, JobKey(jobId), "error") == Some(message)
      && Field(records, JobKey(jobId), "result_path") == Some(ResultKey(jobId))
  {
    var failed := RunTask(st, jobId, data, r, Raises(BuildResult, message, None)).stores;
    FailedRun(st, jobId, data, r, BuildResult, message);
    CompletedRun(failed, jobId, data, r);
    CompletedRunMerges(failed, jobId, data, r);
  }

  // ---------------------------------------------------------------------
  // The task over the two stores
  // ---------------------------------------------------------------------

  /** The Redis and S3 clients the worker module shares between tasks. */
  class Backends {
    var records: HashStore
    var objects: ObjectStore

    constructor (records: HashStore, objects: ObjectStore)
      ensures this.records == records && this.objects == objects
    {
      this.records := records;
      this.objects := objects;
    }

    function State(): Stores
      reads this
    {
      Stores(records, objects)
    }

    /** `redis_client.hset(key, mapping=fields)` */
    method WriteHash(key: string, fields: Hash)
      modifies this
      ensures records == HSet(old(records), key, fields) && objects == old(objects)
    {
      records := records[key := HashAt(records, key) + fields];
    }

    /** `s3_client.put_object(Key=key, Body=body)` */
    method PutObject(key: string, body: string)
      modifies this
      ensures objects == old(objects)[key := body] && records == old(records)
    {
      objects := objects[key := body];
    }

    /** `process_data_task(job_id, data, priority)`; the priority is only logged. */
    method ProcessDataTask(jobId: string, data: Payload, priority: Option<string>, r: Renderer, fault: Fault)
      returns (outcome: Outcome)
      modifies this
      ensures Run(State(), outcome) == RunTask(old(State()), jobId, data, r, fault)
      ensures Consistent(old(State())) ==> Consistent(State())
    {
      ghost var before := State();
      var raised: string;
      if FailsAt(fault, MarkProcessing) {
        raised := fault.message;
      } else {
        WriteHash(JobKey(jobId), ProcessingFields(r.dumps(data)));
        if FailsAt(fault, BuildResult) {
          raised := fault.message;
        } else {
          var result := JobResult(true, |r.text(data)|, jobId);
          if FailsAt(fault, StoreResult) {
            raised := fault.message;
          } else {
            PutObject(ResultKey(jobId), r.dumpsResult(result));
            if FailsAt(fault, MarkCompleted) {
              raised := fault.message;
            } else {
              WriteHash(JobKey(jobId), CompletedFields(jobId));
              outcome := Returned(result);
              if Consistent(before) { RunPreservesConsistency(before, jobId, data, r, fault); }
              return;
            }
          }
        }
      }
      // except Exception as e: record the failure, then re-raise
      if fault.handlerRaises.Some? {
        outcome := Raised(fault.handlerRaises.value);
      } else {
        WriteHash(JobKey(jobId), FailedFields(raised));
        outcome := Raised(raised);
      }
      if Consistent(before) { RunPreservesConsistency(before, jobId, data, r, fault); }
    }

    /** The Celery task `process_data`: hands its arguments to `process_data_task` and returns what it returns. */
    method ProcessDataCelery(jobId: string, data: Payload, priority: Option<string>, r: Renderer, fault: Fault)
      returns (outcome: Outcome)
      modifies this
      ensures Run(State(), outcome) == RunTask(old(State()), jobId, data, r, fault)
    {
      outcome := ProcessDataTask(jobId, data, priority, r, fault);
    }
  }
}
