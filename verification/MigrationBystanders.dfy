/**
 What the steps of a migration do to bytes that are not its own: those of another migration whose paths it uses,
 where A2 does not hold, and those of a file that belongs to no migration.
 */
module MigrationBystanders {
  import opened Wrappers
  import opened MigrationModel
  import opened MigrationSafety
  import opened MigrationProtocol
  import opened MigrationLimits
  import opened MigrationConvergence

  // ---------------------------------------------------------------- one migration's own steps

  /** Steps of one migration and nothing else, within A4. */
  predicate OwnRun(w: World, t: Task, es: seq<TaskEvent>)
    decreases |es|
  {
    es != [] ==>
      && !StartupEvent(es[0]) && !SaveOfCompletedFails(t, es[0]) && TaskStep(w, t, es[0]).Some?
      && OwnRun(TaskStep(w, t, es[0]).value.0, TaskStep(w, t, es[0]).value.1, es[1..])
  }

  predicate NoRetry(es: seq<TaskEvent>) {
    forall i :: 0 <= i < |es| ==> !es[i].Retry? && !es[i].RetryBreaks?
  }

  function OwnEnd(w: World, t: Task, es: seq<TaskEvent>): (World, Task)
    requires OwnRun(w, t, es)
    decreases |es|
  {
    if es == [] then (w, t)
    else
      var n := TaskStep(w, t, es[0]).value;
      OwnEnd(n.0, n.1, es[1..])
  }

  lemma OwnBefore(w: World, t: Task, e: TaskEvent, rest: seq<TaskEvent>) returns (es: seq<TaskEvent>)
    requires !StartupEvent(e) && !SaveOfCompletedFails(t, e) && TaskStep(w, t, e).Some?
    requires OwnRun(TaskStep(w, t, e).value.0, TaskStep(w, t, e).value.1, rest)
    ensures OwnRun(w, t, es) && es == [e] + rest
    ensures OwnEnd(w, t, es) == OwnEnd(TaskStep(w, t, e).value.0, TaskStep(w, t, e).value.1, rest)
  {
    hide TaskStep;
    es := [e] + rest;
    assert es[1..] == rest;
  }

  lemma OwnNothing(w: World, t: Task) returns (es: seq<TaskEvent>)
    ensures OwnRun(w, t, es) && OwnEnd(w, t, es) == (w, t)
  {
    es := [];
  }

  /** The last step of a run. */
  lemma OwnLast(w: World, t: Task, e: TaskEvent) returns (es: seq<TaskEvent>)
    requires !StartupEvent(e) && !SaveOfCompletedFails(t, e) && TaskStep(w, t, e).Some?
    ensures es == [e]
    ensures OwnRun(w, t, es) && OwnEnd(w, t, es) == TaskStep(w, t, e).value
  {
    hide TaskStep;
    var n := TaskStep(w, t, e).value;
    assert OwnRun(n.0, n.1, []);
    es := OwnBefore(w, t, e, []);
  }

  /** A whole copy of the migration's bytes stands at a path of its own other than `p`. */
  predicate SafeElsewhere(w: World, spec: Spec, p: Path) {
    (spec.source != p && SourceFull(w, spec)) || (spec.target != p && TargetFull(w, spec))
  }

  predicate SameFileAt(w: World, w': World, p: Path) {
    (p in w.files <==> p in w'.files) && (p in w.files ==> w.files[p] == w'.files[p])
  }

  // ---------------------------------------------------------------- a start endangers what is at its target

  /** Just created, or failed where a retry goes back to the copy, or so retried; not yet in a worker. */
  predicate AboutToCopy(t: Task) {
    && t.spec.source != t.spec.target && !t.cancel
    && ((t.status == Pending && t.stage in {Planned(Processing), Queued(Processing)})
        || (t.status == Failed && t.stage.Idle? && RetryStart(t.failedStep) == Processing))
  }

  lemma {:induction false} OwnRunIsLocal(w: World, t: Task, es: seq<TaskEvent>, p: Path)
    requires OwnRun(w, t, es) && !Touches(t.spec, p)
    ensures AgreeAt(w, OwnEnd(w, t, es).0, p)
    decreases |es|
  {
    hide TaskStep;
    if es != [] {
      var n := TaskStep(w, t, es[0]).value;
      StepIsLocal(w, t, es[0], p);
      OwnRunIsLocal(n.0, n.1, es[1..], p);
    }
  }

  lemma {:induction false} OwnRunKeepsOk(w: World, t: Task, es: seq<TaskEvent>)
    requires OwnRun(w, t, es) && TaskOk(w, t)
    ensures TaskOk(OwnEnd(w, t, es).0, OwnEnd(w, t, es).1) && OwnEnd(w, t, es).1.spec == t.spec
    decreases |es|
  {
    hide TaskStep, TaskOk;
    if es != [] {
      var n := TaskStep(w, t, es[0]).value;
      StepKeepsOk(w, t, es[0]);
      StepKeepsSpec(w, t, es[0]);
      OwnRunKeepsOk(n.0, n.1, es[1..]);
    }
  }

  /** The same task, had its source held `o` when it was created. */
  function WithOriginal(t: Task, o: Bytes): Task {
    t.(spec := t.spec.(original := o))
  }

  /** No step looks at what the source held at creation. */
  lemma OriginalIsNotRead(w: World, t: Task, e: TaskEvent, o: Bytes)
    requires TaskStep(w, t, e).Some?
    ensures var n := TaskStep(w, t, e).value; TaskStep(w, WithOriginal(t, o), e) == Some((n.0, WithOriginal(n.1, o)))
  {
    if t.stage.Running? && WorkerStep(w, t, t.stage.pc, e).Some? {
      WorkerDoesNotReadOriginal(w, t, e, o);
    }
    hide WorkerStep, ResumePoint, RetryStart, FirstPc;
  }

  lemma WorkerDoesNotReadOriginal(w: World, t: Task, e: TaskEvent, o: Bytes)
    requires t.stage.Running? && WorkerStep(w, t, t.stage.pc, e).Some?
    ensures var n := WorkerStep(w, t, t.stage.pc, e).value;
      WorkerStep(w, WithOriginal(t, o), t.stage.pc, e) == Some((n.0, WithOriginal(n.1, o)))
  {
    hide CopyStep, MoveRecord, DeleteFile, Remove, TargetFreeFor;
    if t.stage.pc.Copying? {
      CopyDoesNotReadOriginal(w, t, t.stage.pc.copied, e, o);
    } else if t.stage.pc.Finding? || t.stage.pc.Displacing? || t.stage.pc.Moving? {
      RepointDoesNotReadOriginal(w, t, e, o);
    }
  }

  lemma RepointDoesNotReadOriginal(w: World, t: Task, e: TaskEvent, o: Bytes)
    requires t.stage.Running? && (t.stage.pc.Finding? || t.stage.pc.Displacing? || t.stage.pc.Moving?)
    requires WorkerStep(w, t, t.stage.pc, e).Some?
    ensures var n := WorkerStep(w, t, t.stage.pc, e).value;
      WorkerStep(w, WithOriginal(t, o), t.stage.pc, e) == Some((n.0, WithOriginal(n.1, o)))
  {
    hide CopyStep, AfterSave;
  }

  lemma CopyDoesNotReadOriginal(w: World, t: Task, k: nat, e: TaskEvent, o: Bytes)
    requires CopyStep(w, t, k, e).Some?
    ensures var n := CopyStep(w, t, k, e).value;
      CopyStep(w, WithOriginal(t, o), k, e) == Some((n.0, WithOriginal(n.1, o)))
  {
  }

  lemma {:induction false} OwnRunWithOriginal(w: World, t: Task, es: seq<TaskEvent>, o: Bytes)
    requires OwnRun(w, t, es)
    ensures OwnRun(w, WithOriginal(t, o), es)
    ensures OwnEnd(w, WithOriginal(t, o), es).0 == OwnEnd(w, t, es).0
    decreases |es|
  {
    hide TaskStep;
    if es != [] {
      var n := TaskStep(w, t, es[0]).value;
      OriginalIsNotRead(w, t, es[0], o);
      OwnRunWithOriginal(n.0, n.1, es[1..], o);
    }
  }

  /** A copy at the start's source is moved on to its target; one at any other path is left alone. */
  lemma StartKeepsTheOtherCopy(w: World, t: Task, spec: Spec, es: seq<TaskEvent>)
    requires AboutToCopy(t) && Touches(spec, t.spec.target) && SafeElsewhere(w, spec, t.spec.target)
    requires OwnRun(w, t, es)
    ensures DataSafe(OwnEnd(w, t, es).0, spec)
  {
    var q := if spec.source != t.spec.target && SourceFull(w, spec) then spec.source else spec.target;
    if q == t.spec.source {
      var t' := WithOriginal(t, spec.original);
      OwnRunWithOriginal(w, t, es, spec.original);
      OwnRunKeepsOk(w, t', es);
      OkIsSafe(OwnEnd(w, t', es).0, OwnEnd(w, t', es).1);
    } else {
      OwnRunIsLocal(w, t, es, q);
    }
  }

  /** The copy breaks before its first byte and is tidied up. */
  lemma BrokenCopyDeletesItsTarget(w: World, t: Task) returns (es: seq<TaskEvent>)
    requires t.stage == Running(Opening)
    ensures NoRetry(es)
    ensures OwnRun(w, t, es) && OwnEnd(w, t, es).0 == DeleteFile(w, t.spec.target)
  {
    hide OwnRun, OwnEnd, CompensateWorld;
    es := OwnLast(w, Go(t, Discarding(Failed)), Discard(true));
    es := OwnBefore(w, t, CopyBreaks, es);
  }

  /** Either that, or the retry itself tidies up. */
  lemma StartMayDeleteItsTarget(w: World, t: Task) returns (es: seq<TaskEvent>)
    requires AboutToCopy(t)
    ensures t.status != Failed ==> NoRetry(es)
    ensures OwnRun(w, t, es) && OwnEnd(w, t, es).0 == DeleteFile(w, t.spec.target)
  {
    hide OwnRun, OwnEnd, CopyStep, MoveRecord;
    if t.status == Failed {
      es := OwnLast(w, t, Retry(true));
    } else {
      var t1 := t.(stage := Queued(Processing));
      es := BrokenCopyDeletesItsTarget(w, Go(t1.(status := Processing), Opening));
      es := OwnBefore(w, Go(t1, Save(Processing)), Persist, es);
      es := OwnBefore(w, t1, Dispatch, es);
      if t.stage.Planned? {
        es := OwnBefore(w, t, Submit, es);
      }
    }
  }

  /**
   Where the target of a start is a path of another migration, the start's own steps keep the other's bytes in
   every run if and only if a whole copy of them stands at the other's other path.
   */
  lemma StartKeepsBytesIff(w: World, t: Task, spec: Spec)
    requires AboutToCopy(t) && Touches(spec, t.spec.target)
    ensures (forall es :: OwnRun(w, t, es) ==> DataSafe(OwnEnd(w, t, es).0, spec))
            <==> SafeElsewhere(w, spec, t.spec.target)
  {
    if SafeElsewhere(w, spec, t.spec.target) {
      forall es | OwnRun(w, t, es) ensures DataSafe(OwnEnd(w, t, es).0, spec) {
        StartKeepsTheOtherCopy(w, t, spec, es);
      }
    } else {
      var es := StartMayDeleteItsTarget(w, t);
    }
  }

  // ---------------------------------------------------------------- a finish endangers what is at its source

  /** The copy is behind it, by its position, or where its ticket or a retry resumes. */
  predicate AboutToFinish(t: Task) {
    || (t.status == Pending && !t.cancel && FinishingTicket(t.stage))
    || (t.status == Failed && t.stage.Idle? && !t.cancel && RetryStart(t.failedStep) in {UpdatingDb, DeletingSource})
    || (t.status != Failed && t.stage.Running? && FinishingPc(t.stage.pc))
  }

  predicate FinishingTicket(stage: Stage) {
    stage in {Planned(UpdatingDb), Planned(DeletingSource), Queued(UpdatingDb), Queued(DeletingSource)}
  }

  predicate FinishingPc(pc: Pc) {
    pc in {Save(ProcessDone), Save(UpdatingDb), Finding, Save(DbUpdated), Save(DeletingSource), Deleting}
  }

  /** It has yet to move its record. */
  predicate BeforeMove(t: Task) {
    match t.stage
    case Planned(start) => start == UpdatingDb
    case Queued(start) => start == UpdatingDb
    case Running(pc) => pc in {Save(ProcessDone), Save(UpdatingDb), Finding}
    case _ => RetryStart(t.failedStep) == UpdatingDb
  }

  /** Whichever record stands at the source can be moved, or has been. */
  predicate CanMove(w: World, spec: Spec) {
    if spec.source in w.records then spec.overwrite || TargetFreeFor(w, spec, w.records[spec.source].id)
    else spec.target in w.records
  }

  predicate CanFinish(w: World, t: Task) {
    BeforeMove(t) ==> CanMove(w, t.spec)
  }

  /** What such a migration can become by its own steps. */
  predicate Finishing(t: Task) {
    match t.stage
    case Idle => t.status == Failed ==> RetryStart(t.failedStep) in {UpdatingDb, DeletingSource}
    case Compensated(_) => false
    case Planned(start) => start in {UpdatingDb, DeletingSource} && t.status != Failed
    case Queued(start) => start in {UpdatingDb, DeletingSource} && t.status != Failed
    case Running(pc) =>
      && t.status != Failed
      && (FinishingPc(pc) || pc.Displacing? || pc.Moving? || pc in {Save(Completed), SaveQueuedCancel}
          || (pc.Failing? && pc.at in {ProcessDone, UpdatingDb, DbUpdated, DeletingSource}))
  }

  lemma FinishingStep(w: World, t: Task, e: TaskEvent, p: Path)
    requires Finishing(t) && TaskStep(w, t, e).Some? && !StartupEvent(e) && !SaveOfCompletedFails(t, e)
    requires p != t.spec.source
    ensures var n := TaskStep(w, t, e).value; Finishing(n.1) && n.1.spec == t.spec && SameFileAt(w, n.0, p)
  {
    hide WorkerStep;
    if WorkerEvent(e) {
      FinishingWork(w, t, e, p);
    }
  }

  lemma FinishingWork(w: World, t: Task, e: TaskEvent, p: Path)
    requires Finishing(t) && t.stage.Running? && WorkerStep(w, t, t.stage.pc, e).Some? && !SaveOfCompletedFails(t, e)
    requires p != t.spec.source
    ensures var n := WorkerStep(w, t, t.stage.pc, e).value;
      Finishing(n.1) && n.1.spec == t.spec && SameFileAt(w, n.0, p)
  {
    hide CopyStep;
  }

  lemma {:induction false} FinishTouchesOnlyItsSource(w: World, t: Task, es: seq<TaskEvent>, p: Path)
    requires Finishing(t) && OwnRun(w, t, es) && p != t.spec.source
    ensures SameFileAt(w, OwnEnd(w, t, es).0, p)
    decreases |es|
  {
    hide TaskStep, Finishing;
    if es != [] {
      var n := TaskStep(w, t, es[0]).value;
      FinishingStep(w, t, es[0], p);
      FinishTouchesOnlyItsSource(n.0, n.1, es[1..], p);
    }
  }

  /** What it can become where the record cannot be moved. */
  predicate Stuck(w: World, t: Task) {
    !CanMove(w, t.spec) && match t.stage
      case Idle => t.status == Failed ==> RetryStart(t.failedStep) == UpdatingDb
      case Compensated(_) => false
      case Planned(start) => start == UpdatingDb && t.status != Failed
      case Queued(start) => start == UpdatingDb && t.status != Failed
      case Running(Moving(id)) => t.status != Failed && t.spec.source in w.records && w.records[t.spec.source].id == id
      case Running(Failing(at)) => t.status != Failed && at in {ProcessDone, UpdatingDb}
      case Running(pc) => t.status != Failed && pc in {Save(ProcessDone), Save(UpdatingDb), Finding, SaveQueuedCancel}
  }

  lemma StuckStep(w: World, t: Task, e: TaskEvent)
    requires Stuck(w, t) && TaskStep(w, t, e).Some? && !StartupEvent(e)
    ensures var n := TaskStep(w, t, e).value; n.0 == w && Stuck(w, n.1)
  {
    hide WorkerStep;
    if WorkerEvent(e) {
      StuckWork(w, t, e);
    }
  }

  lemma StuckWork(w: World, t: Task, e: TaskEvent)
    requires Stuck(w, t) && t.stage.Running? && WorkerStep(w, t, t.stage.pc, e).Some?
    ensures var n := WorkerStep(w, t, t.stage.pc, e).value; n.0 == w && Stuck(w, n.1)
  {
    hide CopyStep;
  }

  lemma {:induction false} StuckStays(w: World, t: Task, es: seq<TaskEvent>)
    requires Stuck(w, t) && OwnRun(w, t, es)
    ensures OwnEnd(w, t, es).0 == w
    decreases |es|
  {
    hide TaskStep, Stuck;
    if es != [] {
      StuckStep(w, t, es[0]);
      StuckStays(w, TaskStep(w, t, es[0]).value.1, es[1..]);
    }
  }

  /** The steps from a worker's position to the deletion, once the record has moved. */
  lemma WorkerDeletesItsSource(w: World, t: Task) returns (es: seq<TaskEvent>)
    requires t.stage in {Running(Save(DbUpdated)), Running(Save(DeletingSource)), Running(Deleting)}
    ensures NoRetry(es)
    ensures OwnRun(w, t, es) && OwnEnd(w, t, es).0 == DeleteFile(w, t.spec.source)
  {
    hide OwnRun, OwnEnd, CopyStep, MoveRecord, CompensateWorld;
    var t1 := Go(t.(status := DbUpdated), Save(DeletingSource));
    var t2 := if t.stage.pc == Save(DbUpdated) then t1 else t;
    var t3 := if t.stage.pc == Deleting then t else Go(t2.(status := DeletingSource), Deleting);
    es := OwnLast(w, t3, DeleteSource(true));
    if t.stage.pc != Deleting {
      es := OwnBefore(w, t2, Persist, es);
    }
    if t.stage.pc == Save(DbUpdated) {
      es := OwnBefore(w, t, Persist, es);
    }
  }

  /** The record is moved first. */
  lemma MoverDeletesItsSource(w: World, t: Task, id: VideoId) returns (es: seq<TaskEvent>)
    requires t.stage == Running(Moving(id)) && TargetFreeFor(w, t.spec, id)
    ensures NoRetry(es)
    ensures OwnRun(w, t, es) && OwnEnd(w, t, es).0.files == Remove(w.files, t.spec.source)
  {
    hide OwnRun, OwnEnd, CopyStep, CompensateWorld;
    var w' := MoveRecord(w, t.spec, id);
    assert w'.files == w.files;
    hide MoveRecord, Remove;
    es := WorkerDeletesItsSource(w', Go(t, Save(DbUpdated)));
    es := OwnBefore(w, t, Move, es);
  }

  /** And looked up before that. */
  lemma FinderDeletesItsSource(w: World, t: Task) returns (es: seq<TaskEvent>)
    requires t.stage == Running(Finding) && CanMove(w, t.spec)
    ensures NoRetry(es)
    ensures OwnRun(w, t, es) && OwnEnd(w, t, es).0.files == Remove(w.files, t.spec.source)
  {
    hide OwnRun, OwnEnd, CopyStep, CompensateWorld, MoveRecord;
    if t.spec.source in w.records {
      var id := w.records[t.spec.source].id;
      var w' := if TargetFreeFor(w, t.spec, id) then w else w.(records := Remove(w.records, t.spec.target));
      es := MoverDeletesItsSource(w', Go(t, Moving(id)), id);
      if t.spec.overwrite {
        es := OwnBefore(w, Go(t, Displacing(id)), Displace, es);
      }
      es := OwnBefore(w, t, Find, es);
    } else {
      es := WorkerDeletesItsSource(w, Go(t, Save(DbUpdated)));
      es := OwnBefore(w, t, FindNothing, es);
    }
  }

  /** The worker's way to the deletion, from wherever it is. */
  lemma RunningDeletesItsSource(w: World, t: Task) returns (es: seq<TaskEvent>)
    requires t.stage.Running? && FinishingPc(t.stage.pc) && CanFinish(w, t)
    ensures NoRetry(es)
    ensures OwnRun(w, t, es) && OwnEnd(w, t, es).0.files == Remove(w.files, t.spec.source)
  {
    hide OwnRun, OwnEnd, CopyStep, CompensateWorld, MoveRecord, CanMove, Remove;
    if t.stage.pc in {Save(DbUpdated), Save(DeletingSource), Deleting} {
      es := WorkerDeletesItsSource(w, t);
    } else {
      var t1 := if t.stage.pc == Save(ProcessDone) then Go(t.(status := ProcessDone), Save(UpdatingDb)) else t;
      var t2 := if t.stage.pc == Finding then t else Go(t1.(status := UpdatingDb), Finding);
      es := FinderDeletesItsSource(w, t2);
      if t.stage.pc != Finding {
        es := OwnBefore(w, t1, Persist, es);
      }
      if t.stage.pc == Save(ProcessDone) {
        es := OwnBefore(w, t, Persist, es);
      }
    }
  }

  /** And from its ticket. */
  lemma TicketDeletesItsSource(w: World, t: Task) returns (es: seq<TaskEvent>)
    requires t.status == Pending && !t.cancel && FinishingTicket(t.stage)
    requires CanFinish(w, t)
    ensures NoRetry(es)
    ensures OwnRun(w, t, es) && OwnEnd(w, t, es).0.files == Remove(w.files, t.spec.source)
  {
    hide OwnRun, OwnEnd, CanMove, Remove, WorkerStep;
    var t1 := t.(stage := Queued(t.stage.start));
    es := RunningDeletesItsSource(w, Go(t1, Save(t.stage.start)));
    es := OwnBefore(w, t1, Dispatch, es);
    if t.stage.Planned? {
      es := OwnBefore(w, t, Submit, es);
    }
  }

  lemma FinishMayDeleteItsSource(w: World, t: Task) returns (es: seq<TaskEvent>)
    requires AboutToFinish(t) && CanFinish(w, t)
    ensures t.status != Failed ==> NoRetry(es)
    ensures OwnRun(w, t, es) && OwnEnd(w, t, es).0.files == Remove(w.files, t.spec.source)
  {
    hide OwnRun, OwnEnd, CanMove, Remove, WorkerStep;
    if t.stage.Running? {
      es := RunningDeletesItsSource(w, t);
    } else if t.status == Failed {
      var start := RetryStart(t.failedStep);
      es := TicketDeletesItsSource(w, t.(status := Pending, failedStep := None, stage := Planned(start)));
      es := OwnBefore(w, t, Retry(true), es);
    } else {
      es := TicketDeletesItsSource(w, t);
    }
  }

  /**
   Where the source of a migration that has its copy behind it is a path of another migration, its own steps keep
   the other's bytes in every run if and only if a whole copy of them stands at the other's other path, or it
   cannot move the record it finds and so never comes to delete.
   */
  lemma FinishKeepsBytesIff(w: World, t: Task, spec: Spec)
    requires AboutToFinish(t) && Touches(spec, t.spec.source)
    ensures (forall es :: OwnRun(w, t, es) ==> DataSafe(OwnEnd(w, t, es).0, spec))
            <==> SafeElsewhere(w, spec, t.spec.source) || (DataSafe(w, spec) && !CanFinish(w, t))
  {
    if SafeElsewhere(w, spec, t.spec.source) {
      var q := if spec.source != t.spec.source && SourceFull(w, spec) then spec.source else spec.target;
      forall es | OwnRun(w, t, es) ensures DataSafe(OwnEnd(w, t, es).0, spec) {
        FinishTouchesOnlyItsSource(w, t, es, q);
      }
    } else if CanFinish(w, t) {
      var es := FinishMayDeleteItsSource(w, t);
    } else {
      var none := OwnNothing(w, t);
      if DataSafe(w, spec) {
        forall es | OwnRun(w, t, es) ensures DataSafe(OwnEnd(w, t, es).0, spec) {
          StuckStays(w, t, es);
        }
      }
    }
  }

  // ---------------------------------------------------------------- the same in the protocol

  function Acts(id: TaskId, es: seq<TaskEvent>): seq<Event> {
    seq(|es|, i requires 0 <= i < |es| => Act(id, es[i]))
  }

  /** The state after one migration's own steps. */
  function OwnState(s: State, id: TaskId, es: seq<TaskEvent>): State
    requires id in s.tasks && OwnRun(s.world, s.tasks[id], es)
  {
    var n := OwnEnd(s.world, s.tasks[id], es);
    s.(world := n.0, tasks := s.tasks[id := n.1])
  }

  lemma {:induction false} OwnRunHappens(s: State, id: TaskId, es: seq<TaskEvent>)
    requires !s.recovering && id in s.tasks && OwnRun(s.world, s.tasks[id], es)
    requires NoRetry(es) || IndexReadmits(s, id)
    ensures Run(s, Acts(id, es)) == Some(OwnState(s, id, es)) && GoodRunButA2(s, Acts(id, es))
    ensures NoRetry(es) ==> GoodRun(s, Acts(id, es))
    decreases |es|
  {
    hide TaskStep, SaveOfCompletedFails;
    if es != [] {
      assert es[0].Retry? ==> IndexReadmits(s, id);
      StepKeepsSpec(s.world, s.tasks[id], es[0]);
      var s1 := Step(s, Act(id, es[0])).value;
      assert Acts(id, es)[1..] == Acts(id, es[1..]);
      OwnRunHappens(s1, id, es[1..]);
      assert OwnState(s1, id, es[1..]).tasks == OwnState(s, id, es).tasks;
    } else {
      assert s.tasks[id := s.tasks[id]] == s.tasks;
    }
  }

  /**
   A2 for creating: of all that the indexes admit, a new migration over the source of an unsettled one.  Its own
   steps keep the other's bytes in every run if and only if the other's copy is already whole.
   */
  lemma CreateOverSourceKeepsBytesIff(s: State, id: TaskId, spec: Spec, u: TaskId)
    requires !s.recovering && Creatable(s, id, spec) && spec.source != spec.target
    requires u in s.tasks && TaskOk(s.world, s.tasks[u]) && s.tasks[u].spec.source == spec.target
    ensures var s1 := Step(s, Create(id, spec)).value;
      (forall es :: OwnRun(s1.world, s1.tasks[id], es) ==>
          Run(s1, Acts(id, es)).Some? && DataSafe(Run(s1, Acts(id, es)).value.world, s.tasks[u].spec))
      <==> TargetFull(s.world, s.tasks[u].spec)
  {
    hide TaskStep, OwnRun, OwnEnd, Run, Acts, TaskOk;
    assert s.tasks[u].spec.source != s.tasks[u].spec.target by { PathsOfOkDiffer(s.world, s.tasks[u]); }
    var s1 := Step(s, Create(id, spec)).value;
    assert IndexReadmits(s1, id);
    forall es | OwnRun(s1.world, s1.tasks[id], es)
      ensures Run(s1, Acts(id, es)) == Some(OwnState(s1, id, es))
    {
      OwnRunHappens(s1, id, es);
    }
    StartKeepsBytesIff(s1.world, s1.tasks[id], s.tasks[u].spec);
  }

  lemma PathsOfOkDiffer(w: World, t: Task)
    requires TaskOk(w, t)
    ensures t.spec.source != t.spec.target
  {
  }

  // ---------------------------------------------------------------- a creation over another's source

  lemma {:induction false} CalmIsOwn(w: World, t: Task, ms: seq<Moment>) returns (es: seq<TaskEvent>)
    requires Calm(ms) && Life(w, t, ms).Some?
    ensures OwnRun(w, t, es) && Life(w, t, ms) == Some(OwnEnd(w, t, es)) && NoRetry(es)
    decreases |ms|
  {
    hide TaskStep;
    es := [];
    if ms != [] {
      var n := Live(w, t, ms[0]).value;
      es := CalmIsOwn(n.0, n.1, ms[1..]);
      es := OwnBefore(w, t, ms[0].e, es);
    }
  }

  /** A new migration of a catalogued file that nobody disturbs can complete. */
  lemma CanComplete(w: World, spec: Spec, v: VideoId) returns (es: seq<TaskEvent>)
    requires Fresh(w, spec, v) && (spec.overwrite || spec.target !in w.records)
    ensures OwnRun(w, NewTask(spec), es) && NoRetry(es)
    ensures var n := OwnEnd(w, NewTask(spec), es);
      n.1.status == Completed && n.1.spec == spec && n.0 == Destination(w, spec, v)
  {
    var t := NewTask(spec);
    assert Underway(w, t, v) && Unobstructed(w, t, v);
    hide TaskStep, Underway, Unobstructed, Life, OwnRun, OwnEnd, Destination;
    var ms, n := Redispatch(w, t, v);
    var rest := FinishRunning(n.0, n.1, v);
    LifeAppend(w, t, ms, rest);
    LifeKeepsUnderway(w, t, ms + rest, v);
    CompletedMeansArrived(Life(w, t, ms + rest).value, v);
    es := CalmIsOwn(w, t, ms + rest);
  }

  lemma {:induction false} RunConcat(s: State, es: seq<Event>, fs: seq<Event>)
    requires Run(s, es).Some?
    ensures Run(s, es + fs) == Run(Run(s, es).value, fs)
    ensures GoodRunButA2(s, es) && GoodRunButA2(Run(s, es).value, fs) ==> GoodRunButA2(s, es + fs)
    ensures GoodRun(s, es) && GoodRun(Run(s, es).value, fs) ==> GoodRun(s, es + fs)
    decreases |es|
  {
    hide Step, Assumed, AssumedButA2;
    if es == [] {
      assert es + fs == fs;
    } else {
      assert (es + fs)[1..] == es[1..] + fs;
      RunConcat(Step(s, es[0]).value, es[1..], fs);
    }
  }

  lemma JustCreated(s: State, id: TaskId, spec: Spec) returns (s': State)
    requires !s.recovering && Creatable(s, id, spec) && spec.source != spec.target
    ensures Run(s, [Create(id, spec)]) == Some(s') && GoodRunButA2(s, [Create(id, spec)])
    ensures s'.world == s.world && s'.tasks == s.tasks[id := NewTask(spec)] && !s'.recovering
  {
    s' := Step(s, Create(id, spec)).value;
    assert [Create(id, spec)][1..] == [];
    hide Creatable;
    assert Run(s', []) == Some(s') && GoodRunButA2(s', []);
  }

  lemma OwnContinues(s: State, es: seq<Event>, m: State, id: TaskId, own: seq<TaskEvent>)
      returns (es': seq<Event>, s': State)
    requires Run(s, es) == Some(m) && GoodRunButA2(s, es)
    requires !m.recovering && id in m.tasks && OwnRun(m.world, m.tasks[id], own)
    requires NoRetry(own) || IndexReadmits(m, id)
    ensures es <= es' && Run(s, es') == Some(s') && GoodRunButA2(s, es')
    ensures GoodRun(s, es) && NoRetry(own) ==> GoodRun(s, es')
    ensures s' == OwnState(m, id, own)
  {
    hide *;
    OwnRunHappens(m, id, own);
    RunConcat(s, es, Acts(id, own));
    es', s' := es + Acts(id, own), OwnState(m, id, own);
  }

  lemma OverUnfinishedCopy(s: State, id: TaskId, spec: Spec, other: Spec) returns (es: seq<Event>, s': State)
    requires !s.recovering && Creatable(s, id, spec) && spec.source != spec.target
    requires other.source == spec.target && !TargetFull(s.world, other)
    ensures [Create(id, spec)] <= es && Run(s, es) == Some(s') && GoodRunButA2(s, es) && !DataSafe(s'.world, other)
  {
    var s1 := JustCreated(s, id, spec);
    hide TaskStep, OwnRun, OwnEnd, Run, GoodRunButA2, Creatable;
    var own := StartMayDeleteItsTarget(s1.world, s1.tasks[id]);
    es, s' := OwnContinues(s, [Create(id, spec)], s1, id, own);
  }

  /** Once the newcomer has completed, the other migration finds its record, and can move it. */
  lemma MovesTheNewcomersRecord(w: World, spec: Spec, v: VideoId, t: Task)
    requires t.spec.source == spec.target && spec.source != spec.target
    requires t.spec.overwrite || t.spec.target !in w.records || t.spec.target == spec.source
    ensures CanFinish(Destination(w, spec, v), t)
  {
  }

  lemma OverFinishedCopy(s: State, id: TaskId, spec: Spec, u: TaskId, v: VideoId) returns (es: seq<Event>, s': State)
    requires !s.recovering && Creatable(s, id, spec) && spec.source != spec.target
    requires u in s.tasks && s.tasks[u].spec.source == spec.target && AboutToFinish(s.tasks[u])
    requires s.tasks[u].status != Failed
    requires var other := s.tasks[u].spec;
      other.overwrite || other.target !in s.world.records || other.target == spec.source
    requires RecordWaiting(s.world, spec, v) && (spec.overwrite || spec.target !in s.world.records)
    ensures [Create(id, spec)] <= es && Run(s, es) == Some(s') && GoodRunButA2(s, es) && !DataSafe(s'.world, spec)
  {
    var s1 := JustCreated(s, id, spec);
    assert u != id && SourceFull(s.world, spec);
    MovesTheNewcomersRecord(s.world, spec, v, s.tasks[u]);
    hide TaskStep, OwnRun, OwnEnd, Run, GoodRunButA2, Creatable, AboutToFinish, CanFinish;
    var own := CanComplete(s.world, spec, v);
    var es1, s2 := OwnContinues(s, [Create(id, spec)], s1, id, own);
    var last := FinishMayDeleteItsSource(s2.world, s2.tasks[u]);
    es, s' := OwnContinues(s, es1, s2, u, last);
  }

  /**
   Somebody's bytes: a new migration over the source of an unsettled one has a continuation within A1, A3 and A4 that
   loses the other's, as long as the other's copy is not whole, and one that loses its own, once the other has its
   copy behind it.
   */
  lemma CreateOverSourceLosesBytes(s: State, id: TaskId, spec: Spec, u: TaskId, v: VideoId)
      returns (es: seq<Event>, s': State)
    requires !s.recovering && Creatable(s, id, spec) && spec.source != spec.target
    requires u in s.tasks && s.tasks[u].spec.source == spec.target
    requires TargetFull(s.world, s.tasks[u].spec) ==>
      && s.tasks[u].status != Failed && AboutToFinish(s.tasks[u]) && RecordWaiting(s.world, spec, v)
      && (spec.overwrite || spec.target !in s.world.records)
      && var other := s.tasks[u].spec;
         other.overwrite || other.target !in s.world.records || other.target == spec.source
    ensures [Create(id, spec)] <= es && Run(s, es) == Some(s') && GoodRunButA2(s, es)
    ensures !DataSafe(s'.world, if TargetFull(s.world, s.tasks[u].spec) then spec else s.tasks[u].spec)
  {
    hide Run, GoodRunButA2, Creatable, AboutToFinish, DataSafe;
    if TargetFull(s.world, s.tasks[u].spec) {
      es, s' := OverFinishedCopy(s, id, spec, u, v);
    } else {
      es, s' := OverUnfinishedCopy(s, id, spec, s.tasks[u].spec);
    }
  }

  // ---------------------------------------------------------------- a retry over another's target

  lemma {:induction false} GoodWithoutA2(s: State, es: seq<Event>)
    requires GoodRun(s, es)
    ensures GoodRunButA2(s, es)
    decreases |es|
  {
    hide Step;
    if es != [] {
      GoodWithoutA2(Step(s, es[0]).value, es[1..]);
    }
  }

  /** The copy of `a` to `c` cannot be opened. */
  lemma NotOpened(x: Setting) returns (es: seq<Event>, s: State)
    requires x.Valid()
    ensures Happens(x, es, s) && GoodRun(x.Start(), es)
    ensures s == x.Start().(tasks := map[0 := Task(x.Mover(x.a, x.c), Processing, None, Running(Discarding(Failed)),
                                                   false)])
  {
    hide GoodRun, GoodRunButA2, Run, Happens, Step, Assumed;
    es, s := Opened(x, x.Mover(x.a, x.c));
    es, s := Do(x, es, s, 0, CopyBreaks);
  }

  lemma LeftUntidied(x: Setting) returns (es: seq<Event>, s: State)
    requires x.Valid()
    ensures Happens(x, es, s) && GoodRun(x.Start(), es)
    ensures s == x.Start().(tasks := map[0 := Task(x.Mover(x.a, x.c), Processing, None, Running(Failing(Processing)),
                                                   false)])
  {
    hide GoodRun, GoodRunButA2, Run, Happens, Step, Assumed;
    es, s := NotOpened(x);
    es, s := Do(x, es, s, 0, Discard(false));
  }

  /** Task 0 has failed to copy `a` to `c`; nothing but its own document has changed. */
  lemma CopyFailed(x: Setting) returns (es: seq<Event>, s: State)
    requires x.Valid()
    ensures Happens(x, es, s) && GoodRun(x.Start(), es)
    ensures s == x.Start().(tasks := map[0 := Task(x.Mover(x.a, x.c), Failed, Some(Processing), Idle, false)])
  {
    hide GoodRun, GoodRunButA2, Run, Happens, Step, Assumed;
    es, s := LeftUntidied(x);
    es, s := Do(x, es, s, 0, RecordFailure);
  }

  /** Instead of retrying it, the user has had task 1 move `a` to `c`; the index admits that. */
  lemma MovedByAnother(x: Setting) returns (es: seq<Event>, s: State)
    requires x.Valid()
    ensures Happens(x, es, s) && GoodRun(x.Start(), es) && !s.recovering && 1 !in s.released
    ensures s.tasks.Keys == {0, 1} && s.tasks[0] == Task(x.Mover(x.a, x.c), Failed, Some(Processing), Idle, false)
    ensures s.tasks[1].spec == x.Mover(x.a, x.c) && s.tasks[1].status == Completed && x.a !in s.world.files
  {
    var es0, s0 := CopyFailed(x);
    var es1, s1 := Next(x, es0, s0, Create(1, x.Mover(x.a, x.c)));
    hide TaskStep, OwnRun, OwnEnd, Run, GoodRun, GoodRunButA2, Step, Assumed, AssumedButA2;
    var own := CanComplete(s1.world, x.Mover(x.a, x.c), 1);
    GoodWithoutA2(x.Start(), es1);
    es, s := OwnContinues(x.Start(), es1, s1, 1, own);
  }

  /** Without A2: the retry of a failed migration tidies up the target that another has meanwhile completed at. */
  lemma WitnessRetryTakesTheTarget(x: Setting) returns (es: seq<Event>, s: State)
    requires x.Valid()
    ensures es != [] && GoodRun(x.Start(), es[..|es| - 1]) && es[|es| - 1] == Act(0, Retry(true))
    ensures Happens(x, es, s) && GoodRunButA2(x.Start(), es)
    ensures 1 in s.tasks && 1 !in s.released && s.tasks[1].status == Completed
    ensures !DataSafe(s.world, s.tasks[1].spec)
  {
    hide GoodRun, GoodRunButA2, Run, Step, Assumed, AssumedButA2;
    var es0, s0 := MovedByAnother(x);
    GoodWithoutA2(x.Start(), es0);
    es, s := Do(x, es0, s0, 0, Retry(true));
    assert es[..|es| - 1] == es0;
  }

  // ---------------------------------------------------------------- files that belong to no migration

  /** Neither does somebody delete the video at `p`, nor start a migration from or over it. */
  predicate Spares(e: Event, p: Path) {
    match e
    case DeleteVideo(path) => path != p
    case Create(_, spec) => spec.source != p && (spec.target == p ==> !spec.overwrite)
    case _ => true
  }

  predicate AllSpare(es: seq<Event>, p: Path) {
    forall i :: 0 <= i < |es| ==> Spares(es[i], p)
  }

  /** A file at `p` that no migration is using: none is unsettled or held in memory there, none failed to move it. */
  predicate Bystander(s: State, p: Path) {
    && p in s.world.files
    && forall id :: id in s.tasks && Touches(s.tasks[id].spec, p) ==>
         !Engaged(s.tasks[id]) && (s.tasks[id].status == Failed ==> s.tasks[id].spec.source != p)
  }

  /** The file at `p` survives whatever happens, as long as nobody asks for it. */
  ghost predicate Survives(s: State, p: Path) {
    forall es :: Run(s, es).Some? && AllSpare(es, p) ==> SameFileAt(s.world, Run(s, es).value.world, p)
  }

  /** No failed migration has its target there. */
  predicate NoFailedTarget(s: State, p: Path) {
    forall id :: id in s.tasks && s.tasks[id].spec.target == p ==> s.tasks[id].status != Failed
  }

  lemma SettledForGood(w: World, t: Task, e: TaskEvent)
    requires !Engaged(t) && t.status != Failed
    ensures TaskStep(w, t, e).None?
  {
  }

  lemma StepSpares(s: State, e: Event, p: Path)
    requires Bystander(s, p) && NoFailedTarget(s, p) && Step(s, e).Some? && Spares(e, p)
    ensures var s' := Step(s, e).value; Bystander(s', p) && NoFailedTarget(s', p) && SameFileAt(s.world, s'.world, p)
  {
    hide TaskStep;
    if e.Act? {
      if Touches(s.tasks[e.id].spec, p) {
        SettledForGood(s.world, s.tasks[e.id], e.e);
      }
      StepIsLocal(s.world, s.tasks[e.id], e.e, p);
    }
  }

  lemma {:induction false} RunSpares(s: State, es: seq<Event>, p: Path)
    requires Bystander(s, p) && NoFailedTarget(s, p) && Run(s, es).Some? && AllSpare(es, p)
    ensures SameFileAt(s.world, Run(s, es).value.world, p)
    decreases |es|
  {
    hide Step, Bystander, NoFailedTarget;
    if es != [] {
      assert Spares(es[0], p);
      StepSpares(s, es[0], p);
      RunSpares(Step(s, es[0]).value, es[1..], p);
    }
  }

  lemma OneMoreEvent(s: State, p: Path, es: seq<Event>, m: State, e: Event) returns (es': seq<Event>, n: State)
    requires Run(s, es) == Some(m) && AllSpare(es, p) && Step(m, e).Some? && Spares(e, p)
    ensures Run(s, es') == Some(n) && AllSpare(es', p) && Some(n) == Step(m, e)
  {
    hide Step, Spares;
    RunAppend(s, es, e);
    es', n := es + [e], Step(m, e).value;
  }

  /** The steps that put a failed migration back to PENDING, and tidy up where the process died on a pending one. */
  lemma RetryResets(s: State, id: TaskId)
    requires !s.recovering && id in s.tasks && s.tasks[id].status == Failed && s.tasks[id].stage.Idle?
    requires IndexReadmits(s, id)
    ensures var n := Step(s, Act(id, Retry(true)));
      && n.Some? && id in n.value.tasks
      && n.value.tasks[id].spec == s.tasks[id].spec && n.value.tasks[id].status == Pending
  {
    hide WorkerStep, CompensateWorld;
  }

  lemma RestartTidiesUp(s: State, id: TaskId)
    requires s.recovering && id in s.tasks && s.tasks[id].status == Pending && s.tasks[id].stage.Idle?
    ensures var n := Step(s, Act(id, Compensate(true)));
      n.Some? && s.tasks[id].spec.target !in n.value.world.files
  {
    hide WorkerStep;
  }

  /** The others that may be in its way: after a crash they can all be reset and cancelled. */
  function OthersAt(s: State, id: TaskId): set<TaskId> {
    set u | u in s.tasks && u != id && !Terminal(s.tasks[u].status)
  }

  function NotReset(s: State, id: TaskId): set<TaskId> {
    set u | u in OthersAt(s, id) && s.tasks[u].status != Pending
  }

  /** What all these runs leave alone. */
  predicate SameTask(s: State, n: State, id: TaskId) {
    id in s.tasks && id in n.tasks && n.tasks[id] == s.tasks[id]
  }

  /** Recovery tidies nothing up and resets one of them. */
  lemma ResetOne(s: State, p: Path, es: seq<Event>, m: State, id: TaskId, u: TaskId)
      returns (es': seq<Event>, n: State)
    requires Run(s, es) == Some(m) && AllSpare(es, p) && m.recovering && id in m.tasks && u in NotReset(m, id)
    requires forall x :: x in OthersAt(m, id) && m.tasks[x].status != Pending ==> m.tasks[x].stage.Idle?
    ensures Run(s, es') == Some(n) && AllSpare(es', p) && n.recovering && SameTask(m, n, id)
    ensures NotReset(n, id) == NotReset(m, id) - {u}
    ensures forall x :: x in OthersAt(n, id) && n.tasks[x].status != Pending ==> n.tasks[x].stage.Idle?
  {
    hide Run, AllSpare, WorkerStep;
    assert TaskStep(m.world, m.tasks[u], Compensate(false)).Some?;
    es', n := OneMoreEvent(s, p, es, m, Act(u, Compensate(false)));
    es', n := OneMoreEvent(s, p, es', n, Act(u, Plan));
    assert n.tasks == m.tasks[u := n.tasks[u]] && n.tasks[u].status == Pending;
  }

  lemma {:induction false} ResetAll(s: State, p: Path, es: seq<Event>, m: State, id: TaskId)
      returns (es': seq<Event>, n: State)
    requires Run(s, es) == Some(m) && AllSpare(es, p) && m.recovering && id in m.tasks
    requires forall x :: x in OthersAt(m, id) && m.tasks[x].status != Pending ==> m.tasks[x].stage.Idle?
    ensures Run(s, es') == Some(n) && AllSpare(es', p) && n.recovering && SameTask(m, n, id)
    ensures forall x :: x in OthersAt(n, id) ==> n.tasks[x].status == Pending
    decreases NotReset(m, id)
  {
    if u :| u in NotReset(m, id) {
      hide Run, AllSpare;
      es', n := ResetOne(s, p, es, m, id, u);
      es', n := ResetAll(s, p, es', n, id);
    } else {
      es', n := es, m;
      assert forall x :: x in OthersAt(n, id) && n.tasks[x].status != Pending ==> x in NotReset(n, id);
    }
  }

  lemma {:induction false} CancelAll(s: State, p: Path, es: seq<Event>, m: State, id: TaskId)
      returns (es': seq<Event>, n: State)
    requires Run(s, es) == Some(m) && AllSpare(es, p) && !m.recovering && id in m.tasks
    requires forall x :: x in OthersAt(m, id) ==> m.tasks[x].status == Pending && m.tasks[x].stage.Idle?
    ensures Run(s, es') == Some(n) && AllSpare(es', p) && !n.recovering && SameTask(m, n, id)
    ensures IndexReadmits(n, id)
    decreases OthersAt(m, id)
  {
    if u :| u in OthersAt(m, id) {
      hide Run, AllSpare, WorkerStep, IndexReadmits;
      es', n := OneMoreEvent(s, p, es, m, Act(u, Cancel));
      assert n.tasks == m.tasks[u := n.tasks[u]] && OthersAt(n, id) == OthersAt(m, id) - {u};
      es', n := CancelAll(s, p, es', n, id);
    } else {
      es', n := es, m;
      assert forall x :: x in n.tasks && x != id && !Terminal(n.tasks[x].status) ==> x in OthersAt(n, id);
    }
  }

  /** The way is clear for a retry of the failed one. */
  lemma ClearedForRetry(s: State, p: Path, id: TaskId) returns (es: seq<Event>, n: State)
    requires id in s.tasks && s.tasks[id].status == Failed && s.tasks[id].stage.Idle?
    ensures Run(s, es) == Some(n) && AllSpare(es, p) && !n.recovering
    ensures id in n.tasks && IndexReadmits(n, id) && n.tasks[id].spec == s.tasks[id].spec
    ensures n.tasks[id].status == Failed && n.tasks[id].stage.Idle?
  {
    assert Run(s, []) == Some(s) && AllSpare([], p);
    hide Run, AllSpare, TaskStep, IndexReadmits;
    es, n := OneMoreEvent(s, p, [], s, Crash);
    es, n := ResetAll(s, p, es, n, id);
    es, n := OneMoreEvent(s, p, es, n, RecoveryFails);
    es, n := CancelAll(s, p, es, n, id);
  }

  /** A retry, a crash and the restart: the second tidying up starts from PENDING, wherever the task had failed. */
  lemma FailedComesBack(s: State, id: TaskId) returns (es: seq<Event>, s': State)
    requires id in s.tasks && s.tasks[id].status == Failed && s.tasks[id].stage.Idle?
    ensures Run(s, es) == Some(s') && s.tasks[id].spec.target !in s'.world.files
    ensures AllSpare(es, s.tasks[id].spec.target)
  {
    var p := s.tasks[id].spec.target;
    hide Run, AllSpare, TaskStep;
    es, s' := ClearedForRetry(s, p, id);
    RetryResets(s', id);
    es, s' := OneMoreEvent(s, p, es, s', Act(id, Retry(true)));
    es, s' := OneMoreEvent(s, p, es, s', Crash);
    RestartTidiesUp(s', id);
    es, s' := OneMoreEvent(s, p, es, s', Act(id, Compensate(true)));
  }

  /**
   A file that belongs to no migration survives everything that happens without anybody asking for it, whatever
   crashes and overlaps there are, if and only if no failed migration has its target there.
   */
  lemma BystanderSurvivesIff(s: State, p: Path)
    requires Bystander(s, p)
    ensures Survives(s, p) <==> NoFailedTarget(s, p)
  {
    if NoFailedTarget(s, p) {
      forall es | Run(s, es).Some? && AllSpare(es, p) ensures SameFileAt(s.world, Run(s, es).value.world, p) {
        RunSpares(s, es, p);
      }
    } else {
      var id :| id in s.tasks && s.tasks[id].spec.target == p && s.tasks[id].status == Failed;
      assert Touches(s.tasks[id].spec, p);
      var es, s' := FailedComesBack(s, id);
    }
  }
}
