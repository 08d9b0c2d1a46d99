/**
 Any number of tasks, their workers, their clients, the catalogue's own deletes, and a process
 that may die between any two steps.  `Step` is the next state for a labelled event, or None
 when the event is not possible; a run is a sequence of events.
 */
module MigrationProtocol {
  import opened Wrappers
  import opened MigrationModel
  import opened MigrationSafety

  type TaskId = nat

  /**
   `recovering` holds between a crash and the end of `plan_recovery`.  `released` is a
   specification variable: the tasks whose files someone else has since taken over, by deleting
   a video while no task locked it or by starting another migration over a settled one.
   */
  datatype State = State(world: World, tasks: map<TaskId, Task>, recovering: bool, released: set<TaskId>)

  datatype Event =
    | Act(id: TaskId, e: TaskEvent)
    | Create(newId: TaskId, spec: Spec)
    | Crash
    | Recovered
    | RecoveryFails
    | DeleteVideo(path: Path)
    | Register(at: Path, record: Record)
    | NewFile(where: Path, content: Bytes)

  ghost predicate Init(s: State) {
    s.tasks == map[] && !s.recovering && s.released == {}
  }

  /** What the path-lock registry answers: an unsettled task names the path. */
  predicate Locked(s: State, p: Path) {
    exists id :: id in s.tasks && !Terminal(s.tasks[id].status) && Touches(s.tasks[id].spec, p)
  }

  predicate Apart(a: Spec, b: Spec) {
    !Touches(b, a.source) && !Touches(b, a.target)
  }

  function TouchingPath(s: State, p: Path): set<TaskId> {
    set id | id in s.tasks && Touches(s.tasks[id].spec, p)
  }

  /** The settled tasks whose files a new task takes over. */
  function TakenOver(s: State, spec: Spec): set<TaskId> {
    set id | id in s.tasks && !Engaged(s.tasks[id]) && !Apart(s.tasks[id].spec, spec)
  }

  /** The two partial unique indexes: no second unsettled task on a source, nor on a target. */
  predicate IndexAdmits(s: State, spec: Spec) {
    forall id :: id in s.tasks && !Terminal(s.tasks[id].status) ==>
      s.tasks[id].spec.source != spec.source && s.tasks[id].spec.target != spec.target
  }

  /** They admit a task back among the unsettled. */
  predicate IndexReadmits(s: State, id: TaskId)
    requires id in s.tasks
  {
    forall u :: u in s.tasks && u != id && !Terminal(s.tasks[u].status) ==>
      s.tasks[u].spec.source != s.tasks[id].spec.source && s.tasks[u].spec.target != s.tasks[id].spec.target
  }

  /** `create_task`: the source exists, and an occupied target was put up for overwriting. */
  predicate Creatable(s: State, id: TaskId, spec: Spec) {
    && id !in s.tasks
    && SourceFull(s.world, spec)
    && (spec.target in s.world.files ==> spec.overwrite)
    && IndexAdmits(s, spec)
  }

  function CrashTasks(tasks: map<TaskId, Task>): map<TaskId, Task> {
    map id | id in tasks :: Release(tasks[id])
  }

  /** A failed planning pass drops its plan: nothing it reset is ever submitted. */
  function DropPlan(tasks: map<TaskId, Task>): map<TaskId, Task> {
    map id | id in tasks :: tasks[id].(stage := Idle)
  }

  predicate AllPlanned(s: State) {
    forall id :: id in s.tasks && !Terminal(s.tasks[id].status) ==> s.tasks[id].stage.Planned?
  }

  predicate StartupEvent(e: TaskEvent) {
    e.Compensate? || e.Plan?
  }

  function Step(s: State, e: Event): Option<State> {
    match e
    case Act(id, te) =>
      if id !in s.tasks || s.recovering != StartupEvent(te) || (te.Retry? && !IndexReadmits(s, id)) then None
      else (match TaskStep(s.world, s.tasks[id], te)
            case None => None
            case Some(n) => Some(s.(world := n.0, tasks := s.tasks[id := n.1])))
    case Create(id, spec) =>
      if !s.recovering && Creatable(s, id, spec) then
        Some(s.(tasks := s.tasks[id := NewTask(spec)], released := s.released + TakenOver(s, spec)))
      else None
    case Crash => Some(s.(tasks := CrashTasks(s.tasks), recovering := true))
    case Recovered => if s.recovering && AllPlanned(s) then Some(s.(recovering := false)) else None
    case RecoveryFails =>
      if s.recovering then Some(s.(recovering := false, tasks := DropPlan(s.tasks))) else None
    case DeleteVideo(p) =>
      if s.recovering || Locked(s, p) then None
      else Some(s.(world := World(Remove(s.world.files, p), Remove(s.world.records, p)),
                   released := s.released + TouchingPath(s, p)))
    case Register(p, r) =>
      if s.recovering || Locked(s, p) || p !in s.world.files || p in s.world.records then None
      else Some(s.(world := s.world.(records := s.world.records[p := r])))
    case NewFile(p, content) =>
      if Locked(s, p) || p in s.world.files then None
      else Some(s.(world := s.world.(files := s.world.files[p := content])))
  }

  function Run(s: State, es: seq<Event>): Option<State>
    decreases |es|
  {
    if es == [] then Some(s)
    else match Step(s, es[0])
      case None => None
      case Some(n) => Run(n, es[1..])
  }

  // ---------------------------------------------------------------- assumptions

  /** Every task whose promise is still due, or that can still act, keeps clear of `spec`. */
  predicate KeepsClear(s: State, id: TaskId, spec: Spec, alsoDue: bool) {
    forall u :: u in s.tasks && u != id && (Engaged(s.tasks[u]) || (alsoDue && u !in s.released)) ==>
      Apart(s.tasks[u].spec, spec)
  }

  /**
   A1: a task's source and target differ.
   A2: a new task uses no path of a task still engaged; a retried one, no path of a task that is
       engaged or whose promise is due.
   A3: the process does not die while a task reads PENDING with its source already deleted.
   A4: the save of COMPLETED does not fail.
   */
  predicate Assumed(s: State, e: Event) {
    match e
    case Create(id, spec) => spec.source != spec.target && KeepsClear(s, id, spec, false)
    case Act(id, te) =>
      id in s.tasks ==>
        && !SaveOfCompletedFails(s.tasks[id], te)
        && (te.Retry? || te.RetryBreaks? ==> KeepsClear(s, id, s.tasks[id].spec, true))
    case Crash => forall id :: id in s.tasks && id !in s.released ==> CrashForgivable(s.world, s.tasks[id])
    case _ => true
  }

  /** The run goes through, and every event in it meets the assumptions. */
  predicate GoodRun(s: State, es: seq<Event>)
    decreases |es|
  {
    es != [] ==> Assumed(s, es[0]) && Step(s, es[0]).Some? && GoodRun(Step(s, es[0]).value, es[1..])
  }

  // ---------------------------------------------------------------- the invariant

  predicate PromisesKept(s: State) {
    forall id :: id in s.tasks && id !in s.released ==> TaskOk(s.world, s.tasks[id])
  }

  predicate DueTasksApart(s: State) {
    forall a, b ::
      (a in s.tasks && b in s.tasks && a != b && a !in s.released && (b !in s.released || Engaged(s.tasks[b])))
      ==> Apart(s.tasks[a].spec, s.tasks[b].spec)
  }

  /** While recovering nothing runs, and what is still to be compensated is forgivable. */
  predicate StartupOk(s: State) {
    s.recovering ==> forall id :: id in s.tasks ==>
      && !s.tasks[id].stage.Queued? && !s.tasks[id].stage.Running?
      && (id !in s.released && s.tasks[id].stage.Idle? ==> CrashForgivable(s.world, s.tasks[id]))
  }

  predicate Inv(s: State) {
    PromisesKept(s) && DueTasksApart(s) && StartupOk(s)
  }

  /** A change of the world at paths no due task uses breaks no promise. */
  lemma OthersKeepPromise(s: State, w': World, id: TaskId)
    requires id in s.tasks && TaskOk(s.world, s.tasks[id])
    requires forall p :: Touches(s.tasks[id].spec, p) ==> AgreeAt(s.world, w', p)
    ensures TaskOk(w', s.tasks[id])
    ensures CrashForgivable(s.world, s.tasks[id]) ==> CrashForgivable(w', s.tasks[id])
  {
    OkIsLocal(s.world, w', s.tasks[id]);
  }

  lemma ActKeepsInv(s: State, id: TaskId, te: TaskEvent)
    requires Inv(s) && Assumed(s, Act(id, te)) && Step(s, Act(id, te)).Some?
    ensures Inv(Step(s, Act(id, te)).value)
  {
    var t := s.tasks[id];
    var n := TaskStep(s.world, t, te).value;
    var s' := Step(s, Act(id, te)).value;
    StepKeepsSpec(s.world, t, te);
    OnlyTheEngagedStep(s.world, t, te);
    if id !in s.released {
      StepKeepsOk(s.world, t, te);
    }
    forall u | u in s.tasks && u != id && u !in s.released
      ensures TaskOk(n.0, s.tasks[u])
      ensures CrashForgivable(s.world, s.tasks[u]) ==> CrashForgivable(n.0, s.tasks[u])
    {
      assert Apart(s.tasks[u].spec, t.spec);
      forall p | Touches(s.tasks[u].spec, p) ensures AgreeAt(s.world, n.0, p) {
        StepIsLocal(s.world, t, te, p);
      }
      OthersKeepPromise(s, n.0, u);
    }
    if StartupEvent(te) {
      StartupStageOnly(s.world, t, te);
    }
  }

  /** A settled task that nothing in memory will act on takes no step but a retry. */
  lemma OnlyTheEngagedStep(w: World, t: Task, e: TaskEvent)
    requires TaskStep(w, t, e).Some?
    ensures Engaged(t) || e.Retry? || e.RetryBreaks?
    ensures e.RetryBreaks? ==> TaskStep(w, t, e).value.1 == t
  {
  }

  lemma StartupStageOnly(w: World, t: Task, e: TaskEvent)
    requires TaskStep(w, t, e).Some? && StartupEvent(e)
    ensures var t' := TaskStep(w, t, e).value.1; t'.stage.Compensated? || t'.stage.Planned?
  {
  }

  lemma CreateKeepsInv(s: State, id: TaskId, spec: Spec)
    requires Inv(s) && Assumed(s, Create(id, spec)) && Step(s, Create(id, spec)).Some?
    ensures Inv(Step(s, Create(id, spec)).value)
  {
    var s' := Step(s, Create(id, spec)).value;
    forall u | u in s.tasks && u !in s'.released
      ensures Apart(s.tasks[u].spec, spec) && Apart(spec, s.tasks[u].spec)
    {
    }
    forall u | u in s.tasks && Engaged(s.tasks[u]) ensures Apart(spec, s.tasks[u].spec) {
      assert Apart(s.tasks[u].spec, spec);
    }
  }

  /** A file or record changes at a path that no unsettled task names. */
  lemma OutsideKeepsInv(s: State, e: Event)
    requires Inv(s) && Step(s, e).Some?
    requires e.DeleteVideo? || e.Register? || e.NewFile?
    ensures Inv(Step(s, e).value)
  {
    var s' := Step(s, e).value;
    forall id | id in s.tasks && id !in s'.released
      ensures TaskOk(s'.world, s.tasks[id])
      ensures CrashForgivable(s.world, s.tasks[id]) ==> CrashForgivable(s'.world, s.tasks[id])
    {
      var t := s.tasks[id];
      if e.DeleteVideo? {
        OthersKeepPromise(s, s'.world, id);
      } else {
        OnlyMoreKeepsOk(s.world, s'.world, t, if e.Register? then e.at else e.where);
      }
    }
  }

  /** Something appears where there was nothing, at a path an unsettled task does not name. */
  lemma OnlyMoreKeepsOk(w: World, w': World, t: Task, p: Path)
    requires TaskOk(w, t)
    requires Touches(t.spec, p) ==> Terminal(t.status)
    requires forall q :: q in w.files ==> q in w'.files && w'.files[q] == w.files[q]
    requires forall q :: q in w.records ==> q in w'.records
    requires forall q :: q != p ==> AgreeAt(w, w', q)
    ensures TaskOk(w', t)
    ensures CrashForgivable(w, t) ==> CrashForgivable(w', t)
  {
  }

  lemma CrashKeepsInv(s: State)
    requires Inv(s) && Assumed(s, Crash)
    ensures Inv(Step(s, Crash).value)
  {
    forall id | id in s.tasks && id !in s.released ensures TaskOk(s.world, Release(s.tasks[id])) {
      CrashKeepsOk(s.world, s.tasks[id]);
    }
  }

  lemma StepKeepsInv(s: State, e: Event)
    requires Inv(s) && Assumed(s, e) && Step(s, e).Some?
    ensures Inv(Step(s, e).value)
  {
    match e
    case Act(id, te) => ActKeepsInv(s, id, te);
    case Create(id, spec) => CreateKeepsInv(s, id, spec);
    case Crash => CrashKeepsInv(s);
    case Recovered =>
    case RecoveryFails =>
    case _ => OutsideKeepsInv(s, e);
  }

  lemma {:induction false} RunKeepsInv(s: State, es: seq<Event>)
    requires Inv(s) && GoodRun(s, es)
    ensures Run(s, es).Some? && Inv(Run(s, es).value)
    decreases |es|
  {
    if es != [] {
      StepKeepsInv(s, es[0]);
      RunKeepsInv(Step(s, es[0]).value, es[1..]);
    }
  }

  // ---------------------------------------------------------------- main results

  /**
   No data loss: after every run of any number of tasks, with crashes anywhere, failed and
   cancelled copies, failed saves, retries and the catalogue's own deletes, every task whose
   files nobody else has taken over still has its original bytes, complete, at its source or at
   its target.
   */
  lemma NoDataLoss(s: State, es: seq<Event>, id: TaskId)
    requires Init(s) && GoodRun(s, es)
    requires var s' := Run(s, es); s'.Some? && id in s'.value.tasks && id !in s'.value.released
    ensures var s' := Run(s, es).value; DataSafe(s'.world, s'.tasks[id].spec)
  {
    RunKeepsInv(s, es);
    OkIsSafe(Run(s, es).value.world, Run(s, es).value.tasks[id]);
  }

  /** The persisted status, and a queued ticket's start, tell the truth about the files and the record. */
  lemma StatusTellsTruth(s: State, es: seq<Event>, id: TaskId)
    requires Init(s) && GoodRun(s, es)
    requires var s' := Run(s, es); s'.Some? && id in s'.value.tasks && id !in s'.value.released
    ensures var s' := Run(s, es).value; var t := s'.tasks[id]; var w := s'.world;
      && (t.status in {ProcessDone, UpdatingDb, DbUpdated} ==> SourceFull(w, t.spec) && TargetFull(w, t.spec))
      && (t.status in {DbUpdated, DeletingSource, Completed} ==> TargetFull(w, t.spec) && t.spec.target in w.records)
      && (t.status == Failed ==> Ready(w, t.spec, RetryStart(t.failedStep)))
      && (t.stage.Queued? ==> Ready(w, t.spec, t.stage.start))
  {
    RunKeepsInv(s, es);
  }

  /** A task whose promise is due is never released by what happens while it is unsettled. */
  lemma UnsettledStaysDue(s: State, e: Event, id: TaskId)
    requires Step(s, e).Some? && Assumed(s, e)
    requires id in s.tasks && id !in s.released && !Terminal(s.tasks[id].status)
    ensures id in Step(s, e).value.tasks && id !in Step(s, e).value.released
  {
  }

  // ---------------------------------------------------------------- what is admitted, and what is given up

  /** Neither completed, failed nor cancelled. */
  predicate Unsettled(s: State, id: TaskId) {
    id in s.tasks && s.tasks[id].status !in {Completed, Failed, Cancelled}
  }

  /**
   A migration is created if and only if startup is over, its source file is there as described, its target is free
   or put up for overwriting, and no unsettled one has the same source or the same target.
   */
  lemma CreatedIff(s: State, id: TaskId, spec: Spec)
    requires id !in s.tasks
    ensures Step(s, Create(id, spec)).Some? <==>
      && !s.recovering && spec.source in s.world.files && s.world.files[spec.source] == spec.original
      && (spec.target !in s.world.files || spec.overwrite)
      && forall u :: Unsettled(s, u) ==>
           s.tasks[u].spec.source != spec.source && s.tasks[u].spec.target != spec.target
  {
    assert forall u :: u in s.tasks ==> (Unsettled(s, u) <==> !Terminal(s.tasks[u].status));
  }

  /** The same two indexes stand between a failed migration and its retry. */
  lemma RetriedIff(s: State, id: TaskId, cleaned: bool)
    requires id in s.tasks && s.tasks[id].status == Failed && s.tasks[id].stage.Idle?
    ensures Step(s, Act(id, Retry(cleaned))).Some? <==>
      && !s.recovering
      && forall u :: Unsettled(s, u) ==>
           s.tasks[u].spec.source != s.tasks[id].spec.source && s.tasks[u].spec.target != s.tasks[id].spec.target
  {
    assert forall u :: u in s.tasks ==> (Unsettled(s, u) <==> !Terminal(s.tasks[u].status));
  }

  /** A video is deleted, file and record, if and only if startup is over and no unsettled migration has its path. */
  lemma DeletedIff(s: State, p: Path)
    ensures Step(s, DeleteVideo(p)).Some? <==>
      !s.recovering && forall u :: Unsettled(s, u) ==> s.tasks[u].spec.source != p && s.tasks[u].spec.target != p
    ensures Step(s, DeleteVideo(p)).Some? ==> var n := Step(s, DeleteVideo(p)).value;
      && n.world.files.Keys == s.world.files.Keys - {p} && n.world.records.Keys == s.world.records.Keys - {p}
      && (forall q :: q != p ==> AgreeAt(s.world, n.world, q)) && n.tasks == s.tasks
  {
    assert forall u :: u in s.tasks ==> (Unsettled(s, u) <==> !Terminal(s.tasks[u].status));
  }

  /** A browse registers a file if and only if it is there without a record and no unsettled migration has its path. */
  lemma RegisteredIff(s: State, p: Path, r: Record)
    ensures Step(s, Register(p, r)).Some? <==>
      && !s.recovering && p in s.world.files && p !in s.world.records
      && forall u :: Unsettled(s, u) ==> s.tasks[u].spec.source != p && s.tasks[u].spec.target != p
    ensures Step(s, Register(p, r)).Some? ==> var n := Step(s, Register(p, r)).value;
      && n.world.files == s.world.files && p in n.world.records && n.world.records[p] == r
      && (forall q :: q != p ==> AgreeAt(s.world, n.world, q)) && n.tasks == s.tasks
  {
    assert forall u :: u in s.tasks ==> (Unsettled(s, u) <==> !Terminal(s.tasks[u].status));
  }

  /** A file may appear, during startup too, wherever there is none and no unsettled migration has its path. */
  lemma AppearsIff(s: State, p: Path, content: Bytes)
    ensures Step(s, NewFile(p, content)).Some? <==>
      p !in s.world.files && forall u :: Unsettled(s, u) ==> s.tasks[u].spec.source != p && s.tasks[u].spec.target != p
    ensures Step(s, NewFile(p, content)).Some? ==> var n := Step(s, NewFile(p, content)).value;
      && n.world.records == s.world.records && p in n.world.files && n.world.files[p] == content
      && (forall q :: q != p ==> AgreeAt(s.world, n.world, q)) && n.tasks == s.tasks
  {
    assert forall u :: u in s.tasks ==> (Unsettled(s, u) <==> !Terminal(s.tasks[u].status));
  }

  /**
   A migration is given up, its promise no longer due, exactly when somebody deletes the video at one of its paths,
   or creates a migration on one of them while it is settled and nothing in memory will act on it.
   */
  lemma ReleasedIff(s: State, e: Event, id: TaskId)
    requires id in s.tasks && id !in s.released && Step(s, e).Some?
    ensures var spec := s.tasks[id].spec;
      id in Step(s, e).value.released <==>
      || (e.DeleteVideo? && e.path in {spec.source, spec.target})
      || (e.Create? && !Unsettled(s, id) && s.tasks[id].stage.Idle?
          && ({e.spec.source, e.spec.target} * {spec.source, spec.target} != {}))
  {
    var spec := s.tasks[id].spec;
    if e.Create? {
      var common := {e.spec.source, e.spec.target} * {spec.source, spec.target};
      assert e.spec.source in common <==> Touches(spec, e.spec.source);
      assert e.spec.target in common <==> Touches(spec, e.spec.target);
    }
  }
}
