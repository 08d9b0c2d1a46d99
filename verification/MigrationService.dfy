/**
 The phases as the service runs them: a worker that updates storage, records and the task document
 in place.  Every atomic update appends its label to `log`, and `Valid` says that the log is a run
 of the protocol's step function from the state the worker started in; so what is proved of every
 protocol run holds at every point at which this code can die.
 */
module MigrationService {
  import opened Wrappers
  import opened MigrationModel
  import opened MigrationSafety

  /** The records after phase 2, for whichever record stands at the source. */
  function RepointedRecords(w: World, spec: Spec): map<Path, Record> {
    if spec.source in w.records
    then Remove(w.records, spec.source)[spec.target := Record(w.records[spec.source].id, spec.targetCategory)]
    else w.records
  }

  /** Phase 2 run twice is phase 2 run once. */
  lemma DbUpdateIsIdempotent(w: World, spec: Spec)
    requires spec.source != spec.target
    ensures var once := RepointedRecords(w, spec);
      RepointedRecords(w.(records := once), spec) == once
  {
    if spec.source in w.records {
      assert spec.source !in RepointedRecords(w, spec);
    }
  }

  /** The save of COMPLETED has failed: all is done, and the failure is about to be blamed on the copy, or has been. */
  predicate Misblamed(w: World, t: Task) {
    && t.spec.source != t.spec.target && Arrived(w, t.spec)
    && (t.stage == Running(Failing(Completed)) || t.stage.Idle?)
    && (t.status == DeletingSource || (t.status == Failed && t.stage.Idle? && t.failedStep == Some(Processing)))
  }

  /** The task's promise holds, or only its last save has failed. */
  predicate Sane(w: World, t: Task) {
    TaskOk(w, t) || Misblamed(w, t)
  }

  lemma SaneIsSafe(w: World, t: Task)
    requires Sane(w, t)
    ensures DataSafe(w, t.spec) && t.spec.source != t.spec.target
  {
  }

  /** What a worker's run may log: everything but a retry and a restart, which begin another run. */
  predicate InOneRun(e: TaskEvent) {
    !e.Retry? && !e.RetryBreaks? && !e.Compensate?
  }

  lemma StepKeepsSane(w: World, t: Task, e: TaskEvent)
    requires Sane(w, t) && TaskStep(w, t, e).Some? && InOneRun(e)
    ensures Sane(TaskStep(w, t, e).value.0, TaskStep(w, t, e).value.1)
  {
    if TaskOk(w, t) && !SaveOfCompletedFails(t, e) {
      StepKeepsOk(w, t, e);
    } else {
      hide CopyStep, MoveRecord, CompensateWorld;
    }
  }

  /** It holds now and after every one of the steps. */
  predicate OkThroughout(w: World, t: Task, es: seq<TaskEvent>)
    decreases |es|
  {
    && Sane(w, t)
    && (es != [] ==> TaskStep(w, t, es[0]).Some?
                     && OkThroughout(TaskStep(w, t, es[0]).value.0, TaskStep(w, t, es[0]).value.1, es[1..]))
  }

  lemma {:induction false} LogAppend(w: World, t: Task, es: seq<TaskEvent>, e: TaskEvent, m: (World, Task))
    requires OkThroughout(w, t, es) && TaskRun(w, t, es) == Some(m)
    requires TaskStep(m.0, m.1, e).Some? && Sane(TaskStep(m.0, m.1, e).value.0, TaskStep(m.0, m.1, e).value.1)
    ensures OkThroughout(w, t, es + [e]) && TaskRun(w, t, es + [e]) == TaskStep(m.0, m.1, e)
    decreases |es|
  {
    if es == [] {
      assert [e][1..] == [] && [] + [e] == [e];
      var n := TaskStep(w, t, e).value;
      assert TaskRun(n.0, n.1, []) == Some(n);
    } else {
      assert (es + [e])[1..] == es[1..] + [e];
      var n := TaskStep(w, t, es[0]).value;
      LogAppend(n.0, n.1, es[1..], e, m);
    }
  }

  /** Cut the log anywhere: at that point the bytes are complete at the source or at the target. */
  lemma {:induction false} EveryCutIsSafe(w: World, t: Task, es: seq<TaskEvent>, k: nat)
    requires OkThroughout(w, t, es) && k <= |es|
    ensures TaskRun(w, t, es[..k]).Some?
    ensures DataSafe(TaskRun(w, t, es[..k]).value.0, t.spec)
    decreases k
  {
    hide TaskStep, Sane, DataSafe;
    if k == 0 {
      SaneIsSafe(w, t);
    } else {
      var n := TaskStep(w, t, es[0]).value;
      StepKeepsSpec(w, t, es[0]);
      assert es[..k][1..] == es[1..][..k - 1];
      EveryCutIsSafe(n.0, n.1, es[1..], k - 1);
    }
  }

  /** What a turn of the copy loop may do. */
  lemma CopySteps(w: World, t: Task, k: nat, n: nat)
    requires t.stage == Running(Copying(k)) && SourceFull(w, t.spec) && 0 < n && k + n <= |t.spec.original|
    requires !t.spec.staged ==> t.spec.target in w.files
    ensures TaskStep(w, t, CopyBreaks) == Some((w, Go(t, Discarding(Failed))))
    ensures t.cancel ==> TaskStep(w, t, NoticeCancel) == Some((w, Go(t, Discarding(Cancelled))))
    ensures !t.cancel ==> TaskStep(w, t, Chunk(n)) == Some((
      if t.spec.staged then w
      else w.(files := w.files[t.spec.target := w.files[t.spec.target] + t.spec.original[k..k + n]]),
      Go(t, Copying(k + n))))
  {
    hide CompensateWorld, RetryStart, ResumePoint, FirstPc, MoveRecord, AfterSave;
  }

  /** How a phase ends: it ran, it saw the cancel flag, or it raised. */
  datatype Outcome = Done | Stopped | Raised

  /** Phase 2 can go through: the record it finds may take the target's place, or has taken it already. */
  predicate Repointable(w: World, spec: Spec) {
    if spec.source in w.records then spec.overwrite || TargetFreeFor(w, spec, w.records[spec.source].id)
    else spec.target in w.records
  }

  class Worker {
    const spec: Spec
    /** In this run no operation fails of itself, and nobody asks for the task to stop. */
    const calm: bool

    // storage and catalogue
    var files: map<Path, Bytes>
    var records: map<Path, Record>

    // the persisted document
    var status: Status
    var failedStep: Option<Status>

    // memory of the running process
    var statusInMemory: Status
    var cancelRequested: bool

    ghost var stage: Stage
    ghost var begun: (World, Task)
    ghost var log: seq<TaskEvent>

    ghost function World(): World
      reads this
    {
      MigrationModel.World(files, records)
    }

    ghost function Task(): Task
      reads this
    {
      MigrationModel.Task(spec, status, failedStep, stage, cancelRequested)
    }

    /** The status the error handler would blame is the one the protocol records. */
    ghost predicate MemoryAgrees()
      reads this
    {
      stage.Running? ==> match stage.pc
        case Opening => statusInMemory == Processing
        case Copying(_) => statusInMemory == Processing
        case Discarding(_) => statusInMemory == Processing
        case Finding => statusInMemory == UpdatingDb
        case Displacing(_) => statusInMemory == UpdatingDb
        case Moving(_) => statusInMemory == UpdatingDb
        case Failing(at) => statusInMemory == at
        case _ => true
    }

    /** The log explains how the present state came about, and the promise held all along it. */
    ghost predicate Valid()
      reads this
    {
      && TaskRun(begun.0, begun.1, log) == Some((World(), Task()))
      && OkThroughout(begun.0, begun.1, log) && Sane(World(), Task())
      && begun.1.spec == spec && MemoryAgrees()
    }

    /** A worker about to run task `t` in world `w`, at the phase its ticket names. */
    constructor (w: World, t: Task, calm: bool)
      requires TaskOk(w, t) && t.stage.Running? && t.stage.pc.Save?
      ensures Valid() && log == [] && begun == (w, t) && World() == w && Task() == t && fresh(this)
      ensures this.calm == calm
    {
      spec, this.calm := t.spec, calm;
      files, records := w.files, w.records;
      status, failedStep, statusInMemory := t.status, t.failedStep, t.status;
      cancelRequested := t.cancel;
      stage, begun, log := t.stage, (w, t), [];
    }

    /** Whether an operation fails, which the code does not decide. */
    method Fails() returns (b: bool)
      ensures calm ==> !b
    {
      b := *;
      b := b && !calm;
    }

    /** What a method of this class may have done to the log: only appended to it. */
    twostate predicate Continues()
      reads this
    {
      begun == old(begun) && old(log) <= log
    }

    /** Book-keeping: the update just made is the protocol step `e`, taken in world `w` by task `t`. */
    ghost method Log(e: TaskEvent, w: World, t: Task)
      requires TaskRun(begun.0, begun.1, log) == Some((w, t)) && OkThroughout(begun.0, begun.1, log) && Sane(w, t)
      requires TaskStep(w, t, e).Some? && InOneRun(e)
      requires var n := TaskStep(w, t, e).value;
        World() == n.0 && n.1.spec == spec && n.1.status == status && n.1.failedStep == failedStep
        && n.1.cancel == cancelRequested
      modifies this`log, this`stage
      ensures log == old(log) + [e] && Task() == TaskStep(w, t, e).value.1
      ensures begun.1.spec == spec && MemoryAgrees() ==> Valid()
    {
      StepKeepsSane(w, t, e);
      LogAppend(begun.0, begun.1, log, e, (w, t));
      stage := TaskStep(w, t, e).value.1.stage;
      log := log + [e];
    }

    /** While the task reads PROCESSING its source is whole, and its copy is a prefix of it. */
    lemma SourceStillFull()
      requires Valid() && status == Processing
      ensures SourceFull(World(), spec) && spec.source != spec.target
      ensures stage.Running? && stage.pc.Copying? && !spec.staged ==>
        stage.pc.copied <= |spec.original| && spec.target in files &&
            files[spec.target] == spec.original[..stage.pc.copied]
    {
    }

    lemma PathsDiffer()
      requires Valid()
      ensures spec.source != spec.target
    {
    }

    /** `_update_task_status`; a save may fail. */
    method UpdateTaskStatus(next: Status) returns (saved: bool)
      requires Valid() && stage == Running(Save(next)) && next !in {Pending, Failed}
      modifies this
      ensures Valid() && Continues() && World() == old(World())
      ensures statusInMemory == next
      ensures saved ==> Task() == AfterSave(old(Task()).(status := next), next)
      ensures !saved ==> Task() == old(Task()).(stage := Running(Failing(next)))
      ensures calm ==> saved
    {
      hide OkThroughout, TaskRun, Sane, CompensateWorld, RetryStart, ResumePoint, FirstPc, CopyStep, MoveRecord;
      ghost var w, t := World(), Task();
      statusInMemory := next;
      var broken := Fails();
      if broken {
        Log(PersistFails, w, t);
        saved := false;
      } else {
        status := next;
        if next in {Completed, Cancelled} {
          cancelRequested := false;
        }
        Log(Persist, w, t);
        saved := true;
      }
    }

    /** Someone may ask for the task to stop while it is PROCESSING. */
    method MaybeCancelled()
      requires Valid() && status == Processing && stage.Running?
      modifies this
      ensures Valid() && Continues() && World() == old(World())
      ensures Task() == old(Task()).(cancel := cancelRequested)
      ensures if calm then cancelRequested == old(cancelRequested) else old(cancelRequested) ==> cancelRequested
    {
      var asked := Fails();
      if asked {
        ghost var w, t := World(), Task();
        cancelRequested := true;
        Log(Cancel, w, t);
      }
    }

    /** Best-effort removal of the target. */
    method CleanupTarget(ghost next: Status)
      requires Valid() && stage == Running(Discarding(next))
      modifies this
      ensures Valid() && Continues() && records == old(records)
      ensures files == old(files) || files == Remove(old(files), spec.target)
      ensures calm ==> spec.target !in files
      ensures Task() == Go(old(Task()), if next == Cancelled then Save(Cancelled) else Failing(Processing))
    {
      hide OkThroughout, TaskRun, Sane, CompensateWorld, RetryStart, ResumePoint, FirstPc;
      ghost var w, t := World(), Task();
      var broken := Fails();
      if !broken {
        files := Remove(files, spec.target);
        Log(Discard(true), w, t);
      } else {
        Log(Discard(false), w, t);
      }
    }

    /** Nothing but the target file differs from `was`. */
    ghost predicate OnlyTargetTouched(was: map<Path, Bytes>)
      reads this
    {
      forall p :: p != spec.target ==> (p in files <==> p in was) && (p in files ==> files[p] == was[p])
    }

    /** The copy broke or was cancelled: tidy up, and in the latter case settle the task. */
    method Abandon(ghost next: Status, cancelled: bool) returns (end: Outcome)
      requires Valid() && stage == Running(Discarding(next)) && (cancelled <==> next == Cancelled)
      modifies this
      ensures Valid() && Continues() && records == old(records) && failedStep == old(failedStep)
      ensures OnlyTargetTouched(old(files))
      ensures (end.Raised? && stage.Running? && stage.pc.Failing?) || (end.Stopped? && stage.Idle? &&
          status == Cancelled)
      ensures calm ==> spec.target !in files && (end.Stopped? <==> cancelled)
    {
      hide OkThroughout, TaskRun, Sane, TaskStep;
      CleanupTarget(next);
      end := Raised;
      if cancelled {
        var saved := UpdateTaskStatus(Cancelled);
        end := if saved then Stopped else Raised;
      }
    }

    /** One turn of the copy loop: it breaks, sees the flag, or moves a chunk of `n` bytes. */
    method CopyChunk(k: nat, n: nat) returns (end: Outcome)
      requires Valid() && stage == Running(Copying(k)) && 0 < n && k + n <= |spec.original|
      requires status == Processing
      modifies this
      ensures Valid() && Continues() && records == old(records) && failedStep == old(failedStep)
      ensures OnlyTargetTouched(old(files))
      ensures end.Done? ==> stage == Running(Copying(k + n)) && status == Processing
      ensures old(cancelRequested) ==> !end.Done?
      ensures calm ==> cancelRequested == old(cancelRequested)
      ensures calm ==> end == if cancelRequested then Stopped else Done
      ensures end.Raised? ==> stage == Running(Discarding(Failed))
      ensures end.Stopped? ==> stage == Running(Discarding(Cancelled))
    {
      hide OkThroughout, TaskRun, Sane, TaskStep;
      MaybeCancelled();
      SourceStillFull();
      ghost var w, t := World(), Task();
      CopySteps(w, t, k, n);
      var broken := Fails();
      if broken {
        Log(CopyBreaks, w, t);
        return Raised;
      }
      if cancelRequested {
        Log(NoticeCancel, w, t);
        return Stopped;
      }
      if !spec.staged {
        files := files[spec.target := files[spec.target] + files[spec.source][k..k + n]];
      }
      Log(Chunk(n), w, t);
      return Done;
    }

    /** The bytes have run out: an object store shows the new object. */
    method CompleteTarget()
      requires Valid() && stage == Running(Copying(|spec.original|)) && status == Processing
      modifies this
      ensures Valid() && Continues() && records == old(records) && failedStep == old(failedStep)
      ensures stage == Running(Save(ProcessDone)) && cancelRequested == old(cancelRequested)
      ensures spec.target in files && files[spec.target] == spec.original && OnlyTargetTouched(old(files))
    {
      hide OkThroughout, TaskRun, Sane, CompensateWorld, RetryStart, ResumePoint, FirstPc, MoveRecord, AfterSave;
      SourceStillFull();
      assert spec.original[..|spec.original|] == spec.original;
      ghost var w, t := World(), Task();
      if spec.staged {
        files := files[spec.target := files[spec.source]];
      }
      Log(Finish, w, t);
    }

    /** The copy loop and, once the bytes have run out, the completed target. */
    method CopyAll() returns (end: Outcome)
      requires Valid() && stage == Running(Copying(0)) && status == Processing
      modifies this
      ensures Valid() && Continues() && records == old(records) && failedStep == old(failedStep)
      ensures end.Done? ==> stage == Running(Save(ProcessDone)) && files == old(files)[spec.target := spec.original]
      ensures OnlyTargetTouched(old(files))
      ensures calm ==> end == if old(cancelRequested) && spec.original != [] then Stopped else Done
      ensures end.Raised? ==> stage == Running(Discarding(Failed))
      ensures end.Stopped? ==> stage == Running(Discarding(Cancelled))
    {
      hide OkThroughout, TaskRun, Sane, TaskStep;
      var bytesCopied := 0;
      SourceStillFull();
      var size := |files[spec.source]|;
      while bytesCopied < size
        invariant Valid() && Continues() && records == old(records) && failedStep == old(failedStep)
        invariant stage == Running(Copying(bytesCopied)) && status == Processing
        invariant size == |spec.original| && bytesCopied <= size
        invariant OnlyTargetTouched(old(files))
        invariant calm ==> cancelRequested == old(cancelRequested) && (bytesCopied > 0 ==> !cancelRequested)
      {
        var n :| 0 < n <= size - bytesCopied;
        end := CopyChunk(bytesCopied, n);
        if !end.Done? { return; }
        bytesCopied := bytesCopied + n;
      }
      CompleteTarget();
      end := Done;
      assert files == old(files)[spec.target := spec.original];
    }

    /** Opening the target truncates a local file; it may fail. */
    method OpenTarget() returns (ok: bool)
      requires Valid() && stage == Running(Opening)
      modifies this
      ensures Valid() && Continues() && records == old(records) && failedStep == old(failedStep)
      ensures OnlyTargetTouched(old(files)) && status == old(status)
      ensures stage == Running(if ok then Copying(0) else Discarding(Failed))
      ensures calm ==> ok && cancelRequested == old(cancelRequested)
    {
      hide OkThroughout, TaskRun, Sane, CompensateWorld, RetryStart, ResumePoint, FirstPc, CopyStep, AfterSave,
           MoveRecord;
      ghost var w, t := World(), Task();
      var broken := Fails();
      if broken {
        Log(CopyBreaks, w, t);
        ok := false;
      } else {
        if !spec.staged {
          files := files[spec.target := []];
        }
        Log(Open, w, t);
        ok := true;
      }
    }

    /**
     Phase 1.  The copy opens the target, moves chunks of any size, looks at the cancel flag before
     each, and may break at any point; the target is removed unless the copy is whole.
     */
    method ExecuteProcessing() returns (end: Outcome)
      requires Valid() && stage == Running(Save(Processing))
      modifies this
      ensures Valid() && Continues() && records == old(records) && failedStep == old(failedStep)
      ensures OnlyTargetTouched(old(files))
      ensures end.Done? ==> files == old(files)[spec.target := spec.original] && stage == Running(Save(UpdatingDb))
      ensures end.Raised? ==> stage.Running? && stage.pc.Failing?
      ensures end.Stopped? ==> stage.Idle? && status == Cancelled
      ensures calm ==> end == if old(cancelRequested) && spec.original != [] then Stopped else Done
    {
      hide OkThroughout, TaskRun, Sane, TaskStep;
      var saved := UpdateTaskStatus(Processing);
      if !saved { return Raised; }
      var isOpen := OpenTarget();
      end := Raised;
      if isOpen {
        end := CopyAll();
      }
      if end.Done? {
        saved := UpdateTaskStatus(ProcessDone);
        end := if saved then Done else Raised;
        assert files == old(files)[spec.target := spec.original];
      } else {
        end := Abandon(if end.Raised? then Failed else Cancelled, end.Stopped?);
      }
    }

    /** Overwriting: drop a record at the target, unless it is the very record being moved. */
    method DropConflicting(id: VideoId)
      requires Valid() && stage == Running(Displacing(id))
      modifies this
      ensures Valid() && Continues() && files == old(files) && failedStep == old(failedStep)
      ensures stage == Running(Moving(id))
      ensures records ==
        if TargetFreeFor(old(World()), spec, id) then old(records) else Remove(old(records), spec.target)
    {
      hide OkThroughout, TaskRun, Sane, CompensateWorld, RetryStart, ResumePoint, FirstPc, CopyStep, MoveRecord;
      ghost var w, t := World(), Task();
      if spec.target in records && records[spec.target].id != id {
        records := Remove(records, spec.target);
      }
      Log(Displace, w, t);
    }

    /** The record is written back under its new path, which the unique index may refuse. */
    method SaveUnderNewPath(id: VideoId) returns (ok: bool)
      requires Valid() && stage == Running(Moving(id))
      requires spec.source in records && records[spec.source].id == id
      modifies this
      ensures Valid() && Continues() && files == old(files) && failedStep == old(failedStep)
      ensures ok ==> TargetFreeFor(old(World()), spec, id) && stage == Running(Save(DbUpdated))
      ensures ok ==> records == RepointedRecords(old(World()), spec)
      ensures !ok ==> stage.Running? && stage.pc.Failing? && records == old(records)
      ensures calm ==> (ok <==> TargetFreeFor(old(World()), spec, id))
    {
      hide OkThroughout, TaskRun, Sane, CompensateWorld, RetryStart, ResumePoint, FirstPc, CopyStep, AfterSave;
      ghost var w, t := World(), Task();
      var broken := Fails();
      if (spec.target in records && records[spec.target].id != id) || broken {
        Log(MoveBreaks, w, t);
        ok := false;
      } else {
        records := Remove(records, spec.source)[spec.target := Record(id, spec.targetCategory)];
        Log(Move, w, t);
        ok := true;
      }
    }

    /** Phase 2, once the record is found at the source. */
    method Repoint(id: VideoId) returns (ok: bool)
      requires Valid() && stage == Running(if spec.overwrite then Displacing(id) else Moving(id))
      requires spec.source in records && records[spec.source].id == id && spec.source != spec.target
      modifies this
      ensures Valid() && Continues() && files == old(files) && failedStep == old(failedStep)
      ensures ok ==> stage == Running(Save(DbUpdated)) && records == RepointedRecords(old(World()), spec)
      ensures !ok ==> stage.Running? && stage.pc.Failing?
      ensures calm ==> (ok <==> spec.overwrite || TargetFreeFor(old(World()), spec, id))
    {
      hide OkThroughout, TaskRun, Sane, TaskStep;
      if spec.overwrite {
        DropConflicting(id);
      }
      ok := SaveUnderNewPath(id);
      assert ok ==> records == RepointedRecords(old(World()), spec);
    }

    /** Phase 2. */
    method ExecuteDbUpdate() returns (ok: bool)
      requires Valid() && stage == Running(Save(UpdatingDb))
      modifies this
      ensures Valid() && Continues() && files == old(files) && failedStep == old(failedStep)
      ensures ok ==> stage == Running(Save(DeletingSource)) && records == RepointedRecords(old(World()), spec)
      ensures !ok ==> stage.Running? && stage.pc.Failing?
      ensures calm ==> (ok <==> Repointable(old(World()), spec))
    {
      hide OkThroughout, TaskRun, Sane, CompensateWorld, RetryStart, ResumePoint, FirstPc, CopyStep, MoveRecord;
      ok := UpdateTaskStatus(UpdatingDb);
      if !ok { return; }
      ghost var w, t := World(), Task();
      if spec.source !in records {
        Log(FindNothing, w, t);
        ok := spec.target in records;
      } else {
        var id := records[spec.source].id;
        Log(Find, w, t);
        PathsDiffer();
        ok := Repoint(id);
      }
      if ok {
        ok := UpdateTaskStatus(DbUpdated);
      }
    }

    /** Best-effort deletion of the source. */
    method DeleteSourceFile() returns (warned: bool)
      requires Valid() && stage == Running(Deleting)
      modifies this
      ensures Valid() && Continues() && records == old(records) && failedStep == old(failedStep)
      ensures stage == Running(Save(Completed)) && status == old(status)
      ensures files == if warned then old(files) else Remove(old(files), spec.source)
      ensures calm ==> (warned <==> spec.source !in old(files))
    {
      hide OkThroughout, TaskRun, Sane, CompensateWorld, RetryStart, ResumePoint, FirstPc, CopyStep, AfterSave,
           MoveRecord;
      ghost var w, t := World(), Task();
      warned := Fails();
      if spec.source !in files {
        warned := true;
      }
      if !warned {
        files := Remove(files, spec.source);
      }
      Log(DeleteSource(!warned), w, t);
    }

    /**
     Phase 3, best effort: the task ends COMPLETED even when the source cannot be deleted.  It is `done` once the
     deletion has been tried; when the save of COMPLETED fails after that, the failure is not its own.
     */
    method ExecuteFsCleanup() returns (ok: bool, done: bool, warned: bool)
      requires Valid() && stage == Running(Save(DeletingSource))
      modifies this
      ensures Valid() && Continues() && records == old(records) && failedStep == old(failedStep)
      ensures ok ==> done && stage.Idle? && status == Completed
      ensures done ==> files == if warned then old(files) else Remove(old(files), spec.source)
      ensures !ok ==> stage == Running(Failing(if done then Completed else DeletingSource))
      ensures done && !ok ==> status == DeletingSource
      ensures !done ==> files == old(files)
      ensures calm ==> ok && (warned <==> spec.source !in old(files))
    {
      hide OkThroughout, TaskRun, Sane, TaskStep;
      warned, done := false, false;
      ok := UpdateTaskStatus(DeletingSource);
      if ok {
        warned := DeleteSourceFile();
        done := true;
        ok := UpdateTaskStatus(Completed);
      }
    }

    /** The error handler: blame the status the task was in, and save FAILED; that save may fail too. */
    method RecordError() returns (recorded: bool)
      requires Valid() && stage.Running? && stage.pc.Failing?
      modifies this
      ensures Valid() && Continues() && World() == old(World()) && stage.Idle?
      ensures recorded ==> (status, failedStep) == (Failed, Some(BlamedStep(old(statusInMemory))))
      ensures !recorded ==> (status, failedStep) == (old(status), old(failedStep))
      ensures !recorded ==> log[|log| - 1] == RecordFailureFails
      ensures calm ==> recorded
    {
      hide OkThroughout, TaskRun, Sane, CompensateWorld, RetryStart, ResumePoint, FirstPc, CopyStep,
           MoveRecord, AfterSave;
      ghost var w, t := World(), Task();
      var blamed := if Terminal(statusInMemory) then Processing else statusInMemory;
      statusInMemory := Failed;
      cancelRequested := false;
      var broken := Fails();
      recorded := !broken;
      if recorded {
        status, failedStep := Failed, Some(blamed);
        Log(RecordFailure, w, t);
      } else {
        Log(RecordFailureFails, w, t);
      }
    }

    /** The first two phases, as far as the ticket asks for them. */
    method RunFirstPhases(startFrom: Status) returns (end: Outcome)
      requires Valid() && stage == Running(FirstPc(startFrom))
      requires startFrom in {Processing, UpdatingDb, DeletingSource}
      modifies this
      ensures Valid() && Continues()
      ensures end.Done? ==>
        && stage == Running(Save(DeletingSource))
        && files == (if startFrom == Processing then old(files)[spec.target := spec.original] else old(files))
        && records == (if startFrom == DeletingSource then old(records) else RepointedRecords(old(World()), spec))
      ensures end.Raised? ==> stage.Running? && stage.pc.Failing?
      ensures end.Stopped? ==> stage.Idle? && status == Cancelled
      ensures !end.Done? ==> OnlyTargetTouched(old(files))
      ensures calm && (startFrom == Processing && spec.original != [] ==> !old(cancelRequested)) ==>
        (end.Done? <==> startFrom == DeletingSource || Repointable(old(World()), spec))
    {
      hide OkThroughout, TaskRun, Sane, TaskStep;
      end := Done;
      if ShouldRunPhase(startFrom, Processing) {
        end := ExecuteProcessing();
      }
      if end.Done? && ShouldRunPhase(startFrom, UpdatingDb) {
        var ok := ExecuteDbUpdate();
        end := if ok then Done else Raised;
      }
    }

    /**
     The whole of a worker's run over the task, from the phase its ticket names.  It ends with the task released;
     completed means the file and the record are at the target, and nothing but the two paths has changed.  All of
     that is `done` too when only the save of COMPLETED failed, which the record blames on the copy.  Where nothing
     fails of itself it does complete, as long as the record can be moved.
     */
    method RunStateMachine(startFrom: Status) returns (completed: bool, done: bool, warned: bool)
      requires Valid() && stage == Running(FirstPc(startFrom))
      requires startFrom in {Processing, UpdatingDb, DeletingSource}
      modifies this
      ensures Valid() && Continues() && stage.Idle?
      ensures completed ==> done && status == Completed
      ensures done ==>
        records == if startFrom == DeletingSource then old(records) else RepointedRecords(old(World()), spec)
      ensures done ==>
        var copied := if startFrom == Processing then old(files)[spec.target := spec.original] else old(files);
        files == if warned then copied else Remove(copied, spec.source)
      ensures !completed ==> status in {Failed, Cancelled} || log[|log| - 1] == RecordFailureFails
      ensures done && !completed && status == Failed ==> failedStep == Some(Processing)
      ensures !done ==> OnlyTargetTouched(old(files))
      ensures calm && done ==> (warned <==> spec.source !in old(files))
      ensures calm && (startFrom == Processing && spec.original != [] ==> !old(cancelRequested)) ==>
        (completed <==> startFrom == DeletingSource || Repointable(old(World()), spec))
    {
      hide OkThroughout, TaskRun, Sane, TaskStep, RepointedRecords, Repointable, FirstPc;
      PathsDiffer();
      completed, done, warned := false, false, false;
      var end := RunFirstPhases(startFrom);
      if end.Done? {
        completed, done, warned := ExecuteFsCleanup();
      }
      if !completed && !end.Stopped? {
        var recorded := RecordError();
      }
    }
  }
}
