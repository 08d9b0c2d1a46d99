/**
 Whose record stands at the target.  The statuses from DB_UPDATED on promise the migrated video's own record
 there, and keep that promise as long as no rival record at the source threatens an overwriting migration that may
 still come back to look its source up.  `MigrationRivals` shows that it is lost otherwise.
 */
module MigrationRecords {
  import opened Wrappers
  import opened MigrationModel
  import opened MigrationSafety
  import opened MigrationProtocol

  /** The record of video `v` stands at the target, in the target's category. */
  predicate Moved(w: World, spec: Spec, v: VideoId) {
    spec.target in w.records && w.records[spec.target] == Record(v, spec.targetCategory)
  }

  predicate Waiting(w: World, spec: Spec, v: VideoId) {
    spec.source in w.records && w.records[spec.source].id == v
  }

  predicate RivalAtSource(w: World, spec: Spec, v: VideoId) {
    spec.source in w.records && w.records[spec.source].id != v
  }

  /** Settled and out of every worker's hands: nothing, not even a retry, brings the task back. */
  predicate ForGood(t: Task) {
    t.status in {Completed, Cancelled} && (t.stage.Running? ==> t.stage.pc.SaveQueuedCancel?)
  }

  /** A rival stands where an overwriting task may yet look its own record up. */
  predicate Threatened(w: World, t: Task, v: VideoId) {
    t.spec.overwrite && RivalAtSource(w, t.spec, v) && SourceFull(w, t.spec) && !ForGood(t)
  }

  /** What the statuses promise about the record. */
  predicate RecordTruth(w: World, t: Task, v: VideoId) {
    t.status in {DbUpdated, DeletingSource, Completed} ==> Moved(w, t.spec, v)
  }

  predicate PcRecord(w: World, spec: Spec, v: VideoId, pc: Pc) {
    match pc
    case Save(next) => next in {DbUpdated, DeletingSource, Completed} ==> Moved(w, spec, v)
    case Deleting => Moved(w, spec, v)
    case Displacing(x) => x == v && Waiting(w, spec, v)
    case Moving(x) => if x == v then Waiting(w, spec, v) else !spec.overwrite && Moved(w, spec, v)
    case Failing(at) => at in {DbUpdated, DeletingSource} ==> Moved(w, spec, v)
    case _ => true
  }

  predicate StageRecord(w: World, t: Task, v: VideoId) {
    match t.stage
    case Idle => true
    case Compensated(start) => start == DeletingSource ==> Moved(w, t.spec, v)
    case Planned(start) => start == DeletingSource ==> Moved(w, t.spec, v)
    case Queued(start) => start == DeletingSource ==> Moved(w, t.spec, v)
    case Running(pc) => PcRecord(w, t.spec, v, pc)
  }

  /** The video's record waits at the source or has moved, and wherever the task is, its step fits. */
  predicate RecordKept(w: World, t: Task, v: VideoId) {
    && (Waiting(w, t.spec, v) || Moved(w, t.spec, v))
    && RecordTruth(w, t, v) && StageRecord(w, t, v)
    && (t.status == Failed && RetryStart(t.failedStep) == DeletingSource ==> Moved(w, t.spec, v))
  }

  predicate RecordOk(w: World, t: Task, v: VideoId) {
    RecordKept(w, t, v) && !Threatened(w, t, v)
  }

  // ---------------------------------------------------------------- one task

  lemma StepKeepsRecord(w: World, t: Task, v: VideoId, e: TaskEvent)
    requires TaskOk(w, t) && RecordOk(w, t, v) && TaskStep(w, t, e).Some? && !SaveOfCompletedFails(t, e)
    ensures var n := TaskStep(w, t, e).value; RecordOk(n.0, n.1, v)
  {
    if WorkerEvent(e) {
      match t.stage.pc
      case Finding => LookupKeepsRecord(w, t, v, e);
      case Displacing(_) => LookupKeepsRecord(w, t, v, e);
      case Moving(_) => LookupKeepsRecord(w, t, v, e);
      case Copying(_) => CopyKeepsRecord(w, t, v, e);
      case Save(_) => SaveKeepsRecord(w, t, v, e);
      case _ => PhaseKeepsRecord(w, t, v, e);
    } else {
      QueueKeepsRecord(w, t, v, e);
    }
  }

  lemma LookupKeepsRecord(w: World, t: Task, v: VideoId, e: TaskEvent)
    requires TaskOk(w, t) && RecordOk(w, t, v) && WorkerEvent(e) && TaskStep(w, t, e).Some?
    requires t.stage.pc.Finding? || t.stage.pc.Displacing? || t.stage.pc.Moving?
    ensures var n := TaskStep(w, t, e).value; RecordOk(n.0, n.1, v)
  {
    hide CopyStep, AfterSave, CompensateWorld;
  }

  lemma CopyKeepsRecord(w: World, t: Task, v: VideoId, e: TaskEvent)
    requires TaskOk(w, t) && RecordOk(w, t, v) && WorkerEvent(e) && TaskStep(w, t, e).Some? && t.stage.pc.Copying?
    ensures var n := TaskStep(w, t, e).value; RecordOk(n.0, n.1, v)
  {
    hide AfterSave, CompensateWorld, MoveRecord;
  }

  lemma PhaseKeepsRecord(w: World, t: Task, v: VideoId, e: TaskEvent)
    requires TaskOk(w, t) && RecordOk(w, t, v) && WorkerEvent(e) && TaskStep(w, t, e).Some?
    requires t.stage.pc.SaveQueuedCancel? || t.stage.pc.Opening? || t.stage.pc.Discarding? || t.stage.pc.Deleting?
             || t.stage.pc.Failing?
    ensures var n := TaskStep(w, t, e).value; RecordOk(n.0, n.1, v)
  {
    hide CopyStep, MoveRecord, CompensateWorld, AfterSave, FirstPc;
  }

  lemma SaveKeepsRecord(w: World, t: Task, v: VideoId, e: TaskEvent)
    requires TaskOk(w, t) && RecordOk(w, t, v) && WorkerEvent(e) && TaskStep(w, t, e).Some? && t.stage.pc.Save?
    requires !SaveOfCompletedFails(t, e)
    ensures var n := TaskStep(w, t, e).value; RecordOk(n.0, n.1, v)
  {
    hide CopyStep, MoveRecord, CompensateWorld, FirstPc;
  }

  lemma QueueKeepsRecord(w: World, t: Task, v: VideoId, e: TaskEvent)
    requires TaskOk(w, t) && RecordOk(w, t, v) && !WorkerEvent(e) && TaskStep(w, t, e).Some?
    ensures var n := TaskStep(w, t, e).value; RecordOk(n.0, n.1, v)
  {
    hide WorkerStep;
  }

  /** What is kept looks only at the task's own two paths. */
  lemma RecordIsLocal(w: World, w': World, t: Task, v: VideoId)
    requires RecordOk(w, t, v) && AgreeAt(w, w', t.spec.source) && AgreeAt(w, w', t.spec.target)
    ensures RecordOk(w', t, v)
  {
  }

  /** A crash, or a dropped plan, takes the task out of memory and leaves the record's promise. */
  lemma ForgettingKeepsRecord(w: World, t: Task, v: VideoId, t': Task)
    requires RecordOk(w, t, v) && (t' == Release(t) || t' == t.(stage := Idle))
    ensures RecordOk(w, t', v)
  {
  }

  // ---------------------------------------------------------------- the whole system

  predicate Kept(s: State, id: TaskId, v: VideoId) {
    id in s.tasks && (id !in s.released ==> RecordOk(s.world, s.tasks[id], v))
  }

  predicate ThreatenedIn(s: State, id: TaskId, v: VideoId) {
    id in s.tasks && id !in s.released && Threatened(s.world, s.tasks[id], v)
  }

  /** A browse registers a file, or a file appears, and that threatens the task. */
  predicate Endangers(s: State, e: Event, id: TaskId, v: VideoId) {
    (e.Register? || e.NewFile?) && Step(s, e).Some? && ThreatenedIn(Step(s, e).value, id, v)
  }

  /** Nothing endangers the task along the run. */
  predicate Quiet(s: State, es: seq<Event>, id: TaskId, v: VideoId)
    decreases |es|
  {
    es != [] ==> !Endangers(s, es[0], id, v) && (Step(s, es[0]).Some? ==> Quiet(Step(s, es[0]).value, es[1..], id, v))
  }

  lemma ActKeepsRecord(s: State, u: TaskId, te: TaskEvent, id: TaskId, v: VideoId)
    requires Inv(s) && Kept(s, id, v) && Assumed(s, Act(u, te)) && Step(s, Act(u, te)).Some?
    ensures Kept(Step(s, Act(u, te)).value, id, v)
  {
    if id !in s.released {
      var n := TaskStep(s.world, s.tasks[u], te).value;
      if u == id {
        StepKeepsRecord(s.world, s.tasks[id], v, te);
      } else {
        OnlyTheEngagedStep(s.world, s.tasks[u], te);
        assert Apart(s.tasks[id].spec, s.tasks[u].spec);
        StepIsLocal(s.world, s.tasks[u], te, s.tasks[id].spec.source);
        StepIsLocal(s.world, s.tasks[u], te, s.tasks[id].spec.target);
        RecordIsLocal(s.world, n.0, s.tasks[id], v);
      }
    }
  }

  lemma OutsideKeepsRecord(s: State, e: Event, id: TaskId, v: VideoId)
    requires Kept(s, id, v) && !e.Act? && Step(s, e).Some? && !Endangers(s, e, id, v)
    ensures Kept(Step(s, e).value, id, v)
  {
    var s' := Step(s, e).value;
    if id !in s.released {
      match e
      case Crash => ForgettingKeepsRecord(s.world, s.tasks[id], v, s'.tasks[id]);
      case RecoveryFails => ForgettingKeepsRecord(s.world, s.tasks[id], v, s'.tasks[id]);
      case DeleteVideo(p) =>
        if id !in s'.released {
          RecordIsLocal(s.world, s'.world, s.tasks[id], v);
        }
      case Register(p, r) => ArrivalKeepsRecord(s.world, s'.world, s.tasks[id], v);
      case NewFile(p, content) => ArrivalKeepsRecord(s.world, s'.world, s.tasks[id], v);
      case _ =>
    }
  }

  /** A record where there was none, or a file where there was none. */
  lemma ArrivalKeepsRecord(w: World, w': World, t: Task, v: VideoId)
    requires RecordKept(w, t, v)
    requires forall p :: p in w.records ==> p in w'.records && w'.records[p] == w.records[p]
    ensures RecordKept(w', t, v)
  {
  }

  lemma {:induction false} RunKeepsRecord(s: State, es: seq<Event>, id: TaskId, v: VideoId)
    requires Inv(s) && Kept(s, id, v) && GoodRun(s, es) && Quiet(s, es, id, v)
    ensures Run(s, es).Some? && Inv(Run(s, es).value) && Kept(Run(s, es).value, id, v)
    decreases |es|
  {
    hide Inv, Kept, Step, Assumed, Endangers;
    if es != [] {
      StepKeepsInv(s, es[0]);
      if es[0].Act? {
        ActKeepsRecord(s, es[0].id, es[0].e, id, v);
      } else {
        OutsideKeepsRecord(s, es[0], id, v);
      }
      RunKeepsRecord(Step(s, es[0]).value, es[1..], id, v);
    }
  }

  // ---------------------------------------------------------------- main results

  /**
   From its creation on, over every run in which nothing endangers it, a migration that has saved DB_UPDATED,
   DELETING_SOURCE or COMPLETED has its own video's record at the target, in the target's category.
   */
  lemma RecordTellsTruth(s: State, id: TaskId, spec: Spec, v: VideoId, es: seq<Event>)
    requires Inv(s) && Waiting(s.world, spec, v) && Assumed(s, Create(id, spec)) && Step(s, Create(id, spec)).Some?
    requires var s1 := Step(s, Create(id, spec)).value; GoodRun(s1, es) && Quiet(s1, es, id, v)
    requires id !in s.released
    ensures Run(Step(s, Create(id, spec)).value, es).Some?
    ensures var n := Run(Step(s, Create(id, spec)).value, es).value;
      id in n.tasks && (id !in n.released ==> RecordTruth(n.world, n.tasks[id], v))
  {
    StepKeepsInv(s, Create(id, spec));
    RunKeepsRecord(Step(s, Create(id, spec)).value, es, id, v);
  }

  /** Whatever happens next, short of new arrivals that endanger it, the task's status tells the truth. */
  ghost predicate StaysTrue(s: State, id: TaskId, v: VideoId) {
    forall es :: GoodRun(s, es) && Quiet(s, es, id, v) ==>
      var n := Run(s, es);
      n.Some? && id in n.value.tasks && (id !in n.value.released ==> RecordTruth(n.value.world, n.value.tasks[id], v))
  }
}
