/**
 The vocabulary of a migration: what is stored, what is recorded about a task, and the single
 atomic steps its worker, its clients and a restart can take.

 An atomic step is the code between two points at which the process can die or give way: one
 persisted status write, one storage write, one record write.  `TaskStep` is a function of the
 step's label; everything the code does not decide (how many bytes a read returns, whether a
 write fails) is in the label.
 */
module MigrationModel {
  import opened Wrappers

  type Byte = b: int | 0 <= b < 256
  type Bytes = seq<Byte>
  type Path = string
  type Category = string
  type VideoId = nat

  datatype Status =
    | Pending | Processing | ProcessDone | UpdatingDb | DbUpdated | DeletingSource
    | Completed | Failed | Cancelled

  predicate Terminal(s: Status) {
    s in {Completed, Failed, Cancelled}
  }

  /** Where a task interrupted in a given status restarts. */
  function ResumePoint(s: Status): Option<Status> {
    match s
    case Pending | Processing => Some(Processing)
    case ProcessDone | UpdatingDb => Some(UpdatingDb)
    case DbUpdated | DeletingSource => Some(DeletingSource)
    case _ => None
  }

  function PhaseOrder(s: Status): nat {
    match s
    case UpdatingDb => 1
    case DeletingSource => 2
    case _ => 0
  }

  predicate ShouldRunPhase(startFrom: Status, phase: Status) {
    PhaseOrder(phase) >= PhaseOrder(startFrom)
  }

  // ---------------------------------------------------------------- storage and records

  datatype Record = Record(id: VideoId, category: Category)

  /** `records` is keyed by path: that is the unique index on a video's path. */
  datatype World = World(files: map<Path, Bytes>, records: map<Path, Record>)

  function Remove<V>(m: map<Path, V>, p: Path): map<Path, V> {
    map q | q in m && q != p :: m[q]
  }

  function DeleteFile(w: World, p: Path): World {
    w.(files := Remove(w.files, p))
  }

  // ---------------------------------------------------------------- tasks

  /**
   The immutable part of a task.  `target` is the effective target, after any rename.
   `original` is the content of the source when the task was created; the code stores only its
   size, and the model uses it to say what must not be lost.  `staged` tells an object store,
   which shows the new object only once the upload completes, from a local disk, which shows
   every byte written so far.
   */
  datatype Spec = Spec(
    source: Path, target: Path, targetCategory: Category,
    overwrite: bool, staged: bool, original: Bytes)

  /** Where a worker is: what it is about to do next. */
  datatype Pc =
    | Save(next: Status)               // persist the status already set in memory
    | SaveQueuedCancel                 // persist CANCELLED for a task cancelled in the queue
    | Opening                          // open the target for writing
    | Copying(copied: nat)
    | Discarding(next: Status)         // remove the target, then record Failed or Cancelled
    | Finding                          // look the record up at the source
    | Displacing(video: VideoId)       // overwrite: drop the record at the target
    | Moving(video: VideoId)           // write the record back under its new path
    | Deleting                         // delete the source file
    | Failing(at: Status)              // persist Failed for an error raised in status `at`

  /** What the running process holds for a task; lost in a crash. */
  datatype Stage =
    | Idle
    | Compensated(start: Status)       // recovery has tidied up, status not yet reset
    | Planned(start: Status)           // reset or inserted, not yet submitted
    | Queued(start: Status)
    | Running(pc: Pc)

  /** `status` and `failedStep` are persisted; `stage` and `cancel` live in memory. */
  datatype Task = Task(spec: Spec, status: Status, failedStep: Option<Status>, stage: Stage, cancel: bool)

  function NewTask(spec: Spec): Task {
    Task(spec, Pending, None, Planned(Processing), false)
  }

  predicate Touches(spec: Spec, p: Path) {
    p == spec.source || p == spec.target
  }

  /** The task still has work or a ticket: it is unsettled, or something in memory will act on it. */
  predicate Engaged(t: Task) {
    !Terminal(t.status) || !t.stage.Idle?
  }

  // ---------------------------------------------------------------- steps

  datatype TaskEvent =
    | Submit | Dispatch | Cancel
    | Persist | PersistFails
    | Open | Chunk(size: nat) | Finish | NoticeCancel | CopyBreaks | Discard(done: bool)
    | Find | FindNothing | Displace | Move | MoveBreaks
    | DeleteSource(done: bool)
    | RecordFailure | RecordFailureFails
    | Retry(cleaned: bool) | RetryBreaks(cleaned: bool)
    | Compensate(cleaned: bool) | Plan

  function Go(t: Task, pc: Pc): Task {
    t.(stage := Running(pc))
  }

  /** The worker is done with the task; its cancel flag goes with it. */
  function Release(t: Task): Task {
    t.(stage := Idle, cancel := false)
  }

  function FirstPc(start: Status): Pc {
    if ShouldRunPhase(start, Processing) then Save(Processing)
    else if ShouldRunPhase(start, UpdatingDb) then Save(UpdatingDb)
    else Save(DeletingSource)
  }

  /** After a status write succeeded. */
  function AfterSave(t: Task, s: Status): Task {
    match s
    case Processing => Go(t, Opening)
    case ProcessDone => Go(t, Save(UpdatingDb))
    case UpdatingDb => Go(t, Finding)
    case DbUpdated => Go(t, Save(DeletingSource))
    case DeletingSource => Go(t, Deleting)
    case _ => Release(t)
  }

  /** The step an error raised in status `at` is blamed on. */
  function BlamedStep(at: Status): Status {
    if Terminal(at) then Processing else at
  }

  function RetryStart(failedStep: Option<Status>): Status {
    match failedStep
    case None => Processing
    case Some(s) => ResumePoint(s).GetOr(Processing)
  }

  /** `_compensate_before_resume`: only a copy leaves anything behind. */
  function CompensateWorld(w: World, spec: Spec, start: Status, cleaned: bool): World {
    if start == Processing && cleaned then DeleteFile(w, spec.target) else w
  }

  function MoveRecord(w: World, spec: Spec, id: VideoId): World {
    var rest := if spec.source in w.records && w.records[spec.source].id == id
                then Remove(w.records, spec.source) else w.records;
    w.(records := rest[spec.target := Record(id, spec.targetCategory)])
  }

  predicate TargetFreeFor(w: World, spec: Spec, id: VideoId) {
    spec.target in w.records ==> w.records[spec.target].id == id
  }

  function TaskStep(w: World, t: Task, e: TaskEvent): Option<(World, Task)> {
    match e
    case Submit =>
      if t.stage.Planned? then Some((w, t.(stage := Queued(t.stage.start)))) else None
    case Dispatch =>
      if !t.stage.Queued? then None
      else if Terminal(t.status) then Some((w, Release(t)))
      else if t.cancel then Some((w, Go(t.(cancel := false), SaveQueuedCancel)))
      else Some((w, Go(t, FirstPc(t.stage.start))))
    case Cancel =>
      if t.stage.Compensated? then None   // startup: no client is served yet
      else if t.status == Pending then Some((w, t.(status := Cancelled, cancel := true)))
      else if t.status == Processing then Some((w, t.(cancel := true)))
      else None
    case Retry(cleaned) =>
      if t.status == Failed && t.stage.Idle? then
        var start := RetryStart(t.failedStep);
        Some((CompensateWorld(w, t.spec, start, cleaned),
              t.(status := Pending, failedStep := None, stage := Planned(start))))
      else None
    case RetryBreaks(cleaned) =>
      if t.status == Failed && t.stage.Idle? then
        Some((CompensateWorld(w, t.spec, RetryStart(t.failedStep), cleaned), t))
      else None
    case Compensate(cleaned) =>
      if t.stage.Idle? && ResumePoint(t.status).Some? then
        var start := ResumePoint(t.status).value;
        Some((CompensateWorld(w, t.spec, start, cleaned), t.(stage := Compensated(start))))
      else None
    case Plan =>
      if t.stage.Compensated? then Some((w, t.(status := Pending, stage := Planned(t.stage.start))))
      else None
    case _ =>
      if t.stage.Running? then WorkerStep(w, t, t.stage.pc, e) else None
  }

  function WorkerStep(w: World, t: Task, pc: Pc, e: TaskEvent): Option<(World, Task)> {
    match pc
    case Save(next) =>
      if e.Persist? then Some((w, AfterSave(t.(status := next), next)))
      else if e.PersistFails? then Some((w, Go(t, Failing(next))))
      else None
    case SaveQueuedCancel =>
      if e.Persist? then Some((w, Release(t.(status := Cancelled))))
      else if e.PersistFails? then Some((w, Release(t)))
      else None
    case Opening =>
      if e.Open? then
        Some((if t.spec.staged then w else w.(files := w.files[t.spec.target := []]), Go(t, Copying(0))))
      else if e.CopyBreaks? then Some((w, Go(t, Discarding(Failed))))
      else None
    case Copying(k) => CopyStep(w, t, k, e)
    case Discarding(next) =>
      if e.Discard? then
        Some((if e.done then DeleteFile(w, t.spec.target) else w,
              Go(t, if next == Cancelled then Save(Cancelled) else Failing(Processing))))
      else None
    case Finding =>
      if t.spec.source in w.records then
        if e.Find? then
          var id := w.records[t.spec.source].id;
          Some((w, Go(t, if t.spec.overwrite then Displacing(id) else Moving(id))))
        else None
      else if e.FindNothing? then
        Some((w, Go(t, if t.spec.target in w.records then Save(DbUpdated) else Failing(UpdatingDb))))
      else None
    case Displacing(id) =>
      if e.Displace? then
        Some((if TargetFreeFor(w, t.spec, id) then w else w.(records := Remove(w.records, t.spec.target)),
              Go(t, Moving(id))))
      else None
    case Moving(id) =>
      if e.Move? && TargetFreeFor(w, t.spec, id) then Some((MoveRecord(w, t.spec, id), Go(t, Save(DbUpdated))))
      else if e.MoveBreaks? then Some((w, Go(t, Failing(UpdatingDb))))
      else None
    case Deleting =>
      if e.DeleteSource? then
        Some((if e.done then DeleteFile(w, t.spec.source) else w, Go(t, Save(Completed))))
      else None
    case Failing(at) =>
      if e.RecordFailure? then
        Some((w, Release(t.(status := Failed, failedStep := Some(BlamedStep(at))))))
      else if e.RecordFailureFails? then Some((w, Release(t)))
      else None
  }

  /** The copy loop: a chunk is read and written, or the flag is seen, or the data has run out. */
  function CopyStep(w: World, t: Task, k: nat, e: TaskEvent): Option<(World, Task)> {
    var spec := t.spec;
    if e.CopyBreaks? then Some((w, Go(t, Discarding(Failed))))
    else if spec.source !in w.files then None
    else
      var content := w.files[spec.source];
      match e
      case Chunk(n) =>
        if t.cancel || n == 0 || k + n > |content| then None
        else
          var w' := if spec.staged || spec.target !in w.files then w
                    else w.(files := w.files[spec.target := w.files[spec.target] + content[k..k + n]]);
          Some((w', Go(t, Copying(k + n))))
      case NoticeCancel =>
        if t.cancel && k < |content| then Some((w, Go(t, Discarding(Cancelled)))) else None
      case Finish =>
        if k == |content| then
          Some((if spec.staged then w.(files := w.files[spec.target := content]) else w,
                Go(t, Save(ProcessDone))))
        else None
      case _ => None
  }

  /** A sequence of steps of one task, run without interference. */
  function TaskRun(w: World, t: Task, es: seq<TaskEvent>): Option<(World, Task)>
    decreases |es|
  {
    if es == [] then Some((w, t))
    else match TaskStep(w, t, es[0])
      case None => None
      case Some(n) => TaskRun(n.0, n.1, es[1..])
  }
}
