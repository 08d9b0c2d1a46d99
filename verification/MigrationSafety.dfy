/**
 One task: what its persisted status and its worker's position say about the world, and that
 every step it takes keeps that true.
 */
module MigrationSafety {
  import opened Wrappers
  import opened MigrationModel

  predicate SourceFull(w: World, spec: Spec) {
    spec.source in w.files && w.files[spec.source] == spec.original
  }

  predicate TargetFull(w: World, spec: Spec) {
    spec.target in w.files && w.files[spec.target] == spec.original
  }

  /** The bytes the task was created to move are complete somewhere. */
  predicate DataSafe(w: World, spec: Spec) {
    SourceFull(w, spec) || TargetFull(w, spec)
  }

  /** The catalogue lists a video at the target and its file is there. */
  predicate Arrived(w: World, spec: Spec) {
    TargetFull(w, spec) && spec.target in w.records
  }

  /** What a phase needs before it may start. */
  predicate Ready(w: World, spec: Spec, start: Status) {
    match start
    case UpdatingDb => SourceFull(w, spec) && TargetFull(w, spec)
    case DeletingSource => Arrived(w, spec)
    case _ => SourceFull(w, spec)
  }

  predicate StatusTruth(w: World, t: Task) {
    match t.status
    case Pending | Cancelled => SourceFull(w, t.spec) || Arrived(w, t.spec)
    case Processing => SourceFull(w, t.spec)
    case ProcessDone | UpdatingDb => SourceFull(w, t.spec) && TargetFull(w, t.spec)
    case DbUpdated => SourceFull(w, t.spec) && Arrived(w, t.spec)
    case DeletingSource | Completed => Arrived(w, t.spec)
    case Failed => Ready(w, t.spec, RetryStart(t.failedStep))
  }

  predicate PcTruth(w: World, t: Task, pc: Pc) {
    var spec := t.spec;
    match pc
    case Save(Processing) => SourceFull(w, spec) && t.status in {Pending, Cancelled}
    case Save(ProcessDone) => SourceFull(w, spec) && TargetFull(w, spec) && t.status == Processing
    case Save(UpdatingDb) => SourceFull(w, spec) && TargetFull(w, spec) && t.status in {ProcessDone, Pending, Cancelled}
    case Save(DbUpdated) => SourceFull(w, spec) && Arrived(w, spec) && t.status == UpdatingDb
    case Save(DeletingSource) => Arrived(w, spec) && t.status in {DbUpdated, Pending, Cancelled}
    case Save(Completed) => Arrived(w, spec) && t.status == DeletingSource
    case Save(Cancelled) => SourceFull(w, spec) && t.status == Processing
    case Save(_) => false
    case SaveQueuedCancel => t.status in {Pending, Cancelled}
    case Opening => t.status == Processing
    case Copying(k) =>
      t.status == Processing && k <= |spec.original|
      && (!spec.staged ==> spec.target in w.files && w.files[spec.target] == spec.original[..k])
    case Discarding(next) => t.status == Processing && next in {Failed, Cancelled}
    case Finding => t.status == UpdatingDb
    case Displacing(_) => t.status == UpdatingDb
    case Moving(_) => t.status == UpdatingDb
    case Deleting => t.status == DeletingSource
    case Failing(at) => at != Completed && Ready(w, spec, RetryStart(Some(BlamedStep(at))))
  }

  predicate StageTruth(w: World, t: Task) {
    match t.stage
    case Idle => true
    case Compensated(start) => ResumePoint(t.status) == Some(start) && Ready(w, t.spec, start)
    case Planned(start) => t.status in {Pending, Cancelled} && Ready(w, t.spec, start)
    case Queued(start) => t.status in {Pending, Cancelled} && Ready(w, t.spec, start)
    case Running(pc) => PcTruth(w, t, pc)
  }

  /** The task's promise. */
  predicate TaskOk(w: World, t: Task) {
    t.spec.source != t.spec.target && StatusTruth(w, t) && StageTruth(w, t)
  }

  /** In every status the bytes are complete at the source or at the target. */
  lemma OkIsSafe(w: World, t: Task)
    requires TaskOk(w, t)
    ensures DataSafe(w, t.spec)
  {
  }

  /** The one save whose failure the code mishandles: COMPLETED. */
  predicate SaveOfCompletedFails(t: Task, e: TaskEvent) {
    e.PersistFails? && t.stage == Running(Save(Completed))
  }

  /** A second crash after recovery reset the status, with the source already deleted. */
  predicate CrashForgivable(w: World, t: Task) {
    t.status == Pending ==> SourceFull(w, t.spec)
  }

  /** Recovery starts from the persisted status, so a restart may only find a forgivable one. */
  predicate Compensable(w: World, t: Task, e: TaskEvent) {
    e.Compensate? ==> CrashForgivable(w, t)
  }

  predicate WorkerEvent(e: TaskEvent) {
    e.Persist? || e.PersistFails? || e.Open? || e.Chunk? || e.Finish? || e.NoticeCancel? || e.CopyBreaks?
    || e.Discard? || e.Find? || e.FindNothing? || e.Displace? || e.Move? || e.MoveBreaks?
    || e.DeleteSource? || e.RecordFailure? || e.RecordFailureFails?
  }

  /** Every step of the task keeps its promise, whatever the step's outcome. */
  lemma StepKeepsOk(w: World, t: Task, e: TaskEvent)
    requires TaskOk(w, t) && TaskStep(w, t, e).Some?
    requires !SaveOfCompletedFails(t, e) && Compensable(w, t, e)
    ensures TaskOk(TaskStep(w, t, e).value.0, TaskStep(w, t, e).value.1)
  {
    if WorkerEvent(e) {
      match t.stage.pc
      case Save(_) => SaveKeepsOk(w, t, e);
      case SaveQueuedCancel => SaveKeepsOk(w, t, e);
      case Copying(k) => CopyKeepsOk(w, t, k, e);
      case Finding => RepointKeepsOk(w, t, e);
      case Displacing(_) => RepointKeepsOk(w, t, e);
      case Moving(_) => RepointKeepsOk(w, t, e);
      case _ => PhaseKeepsOk(w, t, e);
    } else if e.Submit? || e.Dispatch? || e.Cancel? {
      ScheduleKeepsOk(w, t, e);
    } else {
      RewindKeepsOk(w, t, e);
    }
  }

  lemma ScheduleKeepsOk(w: World, t: Task, e: TaskEvent)
    requires TaskOk(w, t) && TaskStep(w, t, e).Some? && (e.Submit? || e.Dispatch? || e.Cancel?)
    ensures TaskOk(TaskStep(w, t, e).value.0, TaskStep(w, t, e).value.1)
  {
  }

  lemma RewindKeepsOk(w: World, t: Task, e: TaskEvent)
    requires TaskOk(w, t) && TaskStep(w, t, e).Some? && Compensable(w, t, e)
    requires e.Retry? || e.RetryBreaks? || e.Compensate? || e.Plan?
    ensures TaskOk(TaskStep(w, t, e).value.0, TaskStep(w, t, e).value.1)
  {
  }

  lemma SaveKeepsOk(w: World, t: Task, e: TaskEvent)
    requires TaskOk(w, t) && t.stage.Running? && (t.stage.pc.Save? || t.stage.pc.SaveQueuedCancel?)
    requires WorkerStep(w, t, t.stage.pc, e).Some? && !SaveOfCompletedFails(t, e)
    ensures TaskOk(WorkerStep(w, t, t.stage.pc, e).value.0, WorkerStep(w, t, t.stage.pc, e).value.1)
  {
    hide CopyStep, MoveRecord, CompensateWorld;
  }

  lemma PhaseKeepsOk(w: World, t: Task, e: TaskEvent)
    requires TaskOk(w, t) && t.stage.Running?
    requires t.stage.pc.Opening? || t.stage.pc.Discarding? || t.stage.pc.Deleting? || t.stage.pc.Failing?
    requires WorkerStep(w, t, t.stage.pc, e).Some?
    ensures TaskOk(WorkerStep(w, t, t.stage.pc, e).value.0, WorkerStep(w, t, t.stage.pc, e).value.1)
  {
    hide CopyStep, MoveRecord, AfterSave, CompensateWorld;
  }

  lemma RepointKeepsOk(w: World, t: Task, e: TaskEvent)
    requires TaskOk(w, t) && t.stage.Running? && (t.stage.pc.Finding? || t.stage.pc.Displacing? || t.stage.pc.Moving?)
    requires WorkerStep(w, t, t.stage.pc, e).Some?
    ensures TaskOk(WorkerStep(w, t, t.stage.pc, e).value.0, WorkerStep(w, t, t.stage.pc, e).value.1)
  {
    hide CopyStep, AfterSave, CompensateWorld;
  }

  lemma CopyKeepsOk(w: World, t: Task, k: nat, e: TaskEvent)
    requires TaskOk(w, t) && t.stage == Running(Copying(k)) && CopyStep(w, t, k, e).Some?
    ensures TaskOk(CopyStep(w, t, k, e).value.0, CopyStep(w, t, k, e).value.1)
  {
    var o := t.spec.original;
    if e.Chunk? {
      assert o[..k] + o[k..k + e.size] == o[..k + e.size];
    } else if e.Finish? {
      assert o[..k] == o;
    }
  }

  // ---------------------------------------------------------------- what a step may touch

  /** Two worlds agree at a path: same file, same record. */
  predicate AgreeAt(w: World, w': World, p: Path) {
    && (p in w.files <==> p in w'.files)
    && (p in w.files ==> w.files[p] == w'.files[p])
    && (p in w.records <==> p in w'.records)
    && (p in w.records ==> w.records[p] == w'.records[p])
  }

  lemma StepKeepsSpec(w: World, t: Task, e: TaskEvent)
    requires TaskStep(w, t, e).Some?
    ensures TaskStep(w, t, e).value.1.spec == t.spec
  {
  }

  /** A step touches only the task's own two paths. */
  lemma StepIsLocal(w: World, t: Task, e: TaskEvent, p: Path)
    requires TaskStep(w, t, e).Some? && !Touches(t.spec, p)
    ensures AgreeAt(w, TaskStep(w, t, e).value.0, p)
    ensures TaskStep(w, t, e).value.1.spec == t.spec
  {
    hide FirstPc, RetryStart, ResumePoint, BlamedStep, WorkerStep, Touches;
    if t.stage.Running? && WorkerStep(w, t, t.stage.pc, e).Some? {
      WorkerStepIsLocal(w, t, e, p);
    }
    CompensationIsLocal(w, t, e, p);
    hide CompensateWorld, AgreeAt;
  }

  lemma CompensationIsLocal(w: World, t: Task, e: TaskEvent, p: Path)
    requires !Touches(t.spec, p)
    ensures AgreeAt(w, w, p) && forall start, cleaned :: AgreeAt(w, CompensateWorld(w, t.spec, start, cleaned), p)
  {
  }

  lemma WorkerStepIsLocal(w: World, t: Task, e: TaskEvent, p: Path)
    requires t.stage.Running? && WorkerStep(w, t, t.stage.pc, e).Some? && !Touches(t.spec, p)
    ensures AgreeAt(w, WorkerStep(w, t, t.stage.pc, e).value.0, p)
    ensures WorkerStep(w, t, t.stage.pc, e).value.1.spec == t.spec
  {
    hide BlamedStep;
  }

  /** A promise looks only at the task's own two paths. */
  lemma OkIsLocal(w: World, w': World, t: Task)
    requires TaskOk(w, t)
    requires AgreeAt(w, w', t.spec.source) && AgreeAt(w, w', t.spec.target)
    ensures TaskOk(w', t)
  {
  }

  /** A crash forgets the stage and the flag; what is persisted stays true. */
  lemma CrashKeepsOk(w: World, t: Task)
    requires TaskOk(w, t)
    ensures TaskOk(w, Release(t))
  {
  }

  // ---------------------------------------------------------------- progress

  /** An upper bound on the worker steps left: phases to go, then bytes to go. */
  function StepsLeft(t: Task): nat {
    if t.stage.Running? then StepsLeftAt(t.stage.pc, |t.spec.original|) else 0
  }

  function StepsLeftAt(pc: Pc, size: nat): nat {
    match pc
    case Save(Processing) => size + 15
    case Opening => size + 14
    case Copying(k) => 13 + (if k < size then size - k else 0)
    case Discarding(_) => 11
    case Save(ProcessDone) => 10
    case Save(UpdatingDb) => 9
    case Finding => 8
    case Displacing(_) => 7
    case Moving(_) => 6
    case Save(DbUpdated) => 5
    case Save(DeletingSource) => 4
    case Deleting => 3
    case Save(_) => 2
    case SaveQueuedCancel => 2
    case Failing(_) => 1
  }

  /** Every worker step brings the task closer to its release. */
  lemma WorkerStepsRunOut(w: World, t: Task, e: TaskEvent)
    requires TaskOk(w, t) && WorkerEvent(e) && TaskStep(w, t, e).Some?
    ensures StepsLeft(TaskStep(w, t, e).value.1) < StepsLeft(t)
  {
    if t.stage.pc.Copying? {
      assert SourceFull(w, t.spec);
    } else {
      PhaseStepsRunOut(w, t, e);
    }
  }

  lemma PhaseStepsRunOut(w: World, t: Task, e: TaskEvent)
    requires t.stage.Running? && !t.stage.pc.Copying? && WorkerStep(w, t, t.stage.pc, e).Some?
    requires t.stage.pc.Save? ==> t.stage.pc.next !in {Pending, Failed}
    ensures StepsLeft(WorkerStep(w, t, t.stage.pc, e).value.1) < StepsLeft(t)
  {
  }

  /** A running task is never stuck: some step that is not a failed save is open to its worker. */
  lemma WorkerNeverStuck(w: World, t: Task) returns (e: TaskEvent)
    requires TaskOk(w, t) && t.stage.Running?
    ensures WorkerEvent(e) && !e.PersistFails? && !e.RecordFailureFails?
    ensures TaskStep(w, t, e).Some?
  {
    match t.stage.pc
    case Save(_) => e := Persist;
    case SaveQueuedCancel => e := Persist;
    case Opening => e := Open;
    case Copying(k) =>
      assert SourceFull(w, t.spec);
      e := if k == |t.spec.original| then Finish else if t.cancel then NoticeCancel else Chunk(1);
    case Discarding(_) => e := Discard(true);
    case Finding => e := if t.spec.source in w.records then Find else FindNothing;
    case Displacing(_) => e := Displace;
    case Moving(_) => e := MoveBreaks;
    case Deleting => e := DeleteSource(true);
    case Failing(_) => e := RecordFailure;
  }
}
