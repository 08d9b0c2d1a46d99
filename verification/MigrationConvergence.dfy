/**
 Crash convergence: however often an uncancelled, unfailed migration is interrupted, recovering
 and finishing leaves the same files, record path and category as never being interrupted.
 */
module MigrationConvergence {
  import opened Wrappers
  import opened MigrationModel
  import opened MigrationSafety

  /** A step of the task, or the death of the process. */
  datatype Moment = On(e: TaskEvent) | Die

  /** The steps of a run that nobody cancels and in which nothing fails. */
  predicate Smooth(e: TaskEvent) {
    e.Submit? || e.Dispatch? || e.Persist? || e.Open? || e.Chunk? || e.Finish? || e.Find? || e.FindNothing?
    || e.Displace? || e.Move? || e == DeleteSource(true) || e.Compensate? || e.Plan?
  }

  /** The next state, when the moment is possible and the run stays smooth and forgivable. */
  function Live(w: World, t: Task, m: Moment): Option<(World, Task)> {
    match m
    case Die => if CrashForgivable(w, t) then Some((w, Release(t))) else None
    case On(e) => if Smooth(e) && (e.Compensate? ==> CrashForgivable(w, t)) then TaskStep(w, t, e) else None
  }

  /** Nobody dies and nothing is recovered. */
  predicate Calm(ms: seq<Moment>) {
    forall i :: 0 <= i < |ms| ==> ms[i].On? && !ms[i].e.Compensate? && !ms[i].e.Plan?
  }

  function Life(w: World, t: Task, ms: seq<Moment>): Option<(World, Task)>
    decreases |ms|
  {
    if ms == [] then Some((w, t))
    else match Live(w, t, ms[0])
      case None => None
      case Some(n) => Life(n.0, n.1, ms[1..])
  }

  /** Where the migration of video `id` must end: file and record at the target, nothing at the source. */
  function Destination(w: World, spec: Spec, id: VideoId): World {
    World(Remove(w.files, spec.source)[spec.target := spec.original],
          Remove(w.records, spec.source)[spec.target := Record(id, spec.targetCategory)])
  }

  predicate RecordWaiting(w: World, spec: Spec, id: VideoId) {
    spec.source in w.records && w.records[spec.source].id == id
  }

  predicate RecordMoved(w: World, spec: Spec, id: VideoId) {
    spec.source !in w.records && spec.target in w.records && w.records[spec.target] == Record(id, spec.targetCategory)
  }

  /** The video's own record is at the source, or has moved; once the status says so, it has moved. */
  predicate Underway(w: World, t: Task, id: VideoId) {
    && TaskOk(w, t) && !t.cancel && t.status !in {Failed, Cancelled}
    && (RecordWaiting(w, t.spec, id) || RecordMoved(w, t.spec, id))
    && (t.status in {DbUpdated, DeletingSource, Completed} ==> RecordMoved(w, t.spec, id))
    && (t.status == Completed ==> t.spec.source !in w.files)
    && (t.stage in {Compensated(DeletingSource), Planned(DeletingSource), Queued(DeletingSource)} ==>
          RecordMoved(w, t.spec, id))
    && (t.stage.Running? ==> match t.stage.pc
          case Displacing(v) => v == id && RecordWaiting(w, t.spec, id)
          case Moving(v) => v == id && RecordWaiting(w, t.spec, id)
          case Save(DbUpdated) => RecordMoved(w, t.spec, id)
          case Save(DeletingSource) => RecordMoved(w, t.spec, id)
          case Deleting => RecordMoved(w, t.spec, id)
          case Save(Completed) => RecordMoved(w, t.spec, id) && t.spec.source !in w.files
          case Discarding(_) => false
          case Failing(_) => false
          case SaveQueuedCancel => false
          case Save(Cancelled) => false
          case _ => true)
  }

  lemma SmoothStepKeepsUnderway(w: World, t: Task, e: TaskEvent, id: VideoId)
    requires Underway(w, t, id) && Live(w, t, On(e)).Some?
    ensures Underway(Live(w, t, On(e)).value.0, Live(w, t, On(e)).value.1, id)
    ensures Destination(Live(w, t, On(e)).value.0, t.spec, id) == Destination(w, t.spec, id)
    ensures Live(w, t, On(e)).value.1.spec == t.spec
  {
    var n := Live(w, t, On(e)).value;
    StepKeepsOk(w, t, e);
    forall p | !Touches(t.spec, p) ensures AgreeAt(w, n.0, p) {
      StepIsLocal(w, t, e, p);
    }
    SameElsewhereSameDestination(w, n.0, t.spec, id);
    SmoothStepKeepsRecord(w, t, e, id);
  }

  lemma SmoothStepKeepsRecord(w: World, t: Task, e: TaskEvent, id: VideoId)
    requires Underway(w, t, id) && Live(w, t, On(e)).Some?
    ensures var n := Live(w, t, On(e)).value; TaskOk(n.0, n.1) ==> Underway(n.0, n.1, id)
    ensures Live(w, t, On(e)).value.1.spec == t.spec
  {
    if WorkerEvent(e) {
      SmoothWorkKeepsRecord(w, t, e, id);
    } else {
      hide WorkerStep, SourceFull, TargetFull;
    }
  }

  lemma SmoothWorkKeepsRecord(w: World, t: Task, e: TaskEvent, id: VideoId)
    requires Underway(w, t, id) && WorkerEvent(e) && Live(w, t, On(e)).Some?
    ensures var n := Live(w, t, On(e)).value; TaskOk(n.0, n.1) ==> Underway(n.0, n.1, id)
    ensures Live(w, t, On(e)).value.1.spec == t.spec
  {
    hide CompensateWorld, RetryStart, ResumePoint, FirstPc, SourceFull, TargetFull;
  }

  lemma SameElsewhereSameDestination(w: World, w': World, spec: Spec, id: VideoId)
    requires forall p :: !Touches(spec, p) ==> AgreeAt(w, w', p)
    ensures Destination(w', spec, id) == Destination(w, spec, id)
  {
    var d, d' := Destination(w, spec, id), Destination(w', spec, id);
    forall p ensures p in d.files <==> p in d'.files
             ensures p in d.files ==> d.files[p] == d'.files[p]
             ensures p in d.records <==> p in d'.records
             ensures p in d.records ==> d.records[p] == d'.records[p] {
      assert Touches(spec, p) || AgreeAt(w, w', p);
    }
    assert d.files == d'.files && d.records == d'.records;
  }

  /** The destination never changes along a smooth life, however many crashes it has. */
  lemma {:induction false} LifeKeepsUnderway(w: World, t: Task, ms: seq<Moment>, id: VideoId)
    requires Underway(w, t, id) && Life(w, t, ms).Some?
    ensures var n := Life(w, t, ms).value;
      Underway(n.0, n.1, id) && n.1.spec == t.spec && Destination(n.0, t.spec, id) == Destination(w, t.spec, id)
    decreases |ms|
  {
    if ms != [] {
      var n := Live(w, t, ms[0]).value;
      if ms[0].On? {
        SmoothStepKeepsUnderway(w, t, ms[0].e, id);
      } else {
        CrashKeepsOk(w, t);
      }
      LifeKeepsUnderway(n.0, n.1, ms[1..], id);
    }
  }

  /** A new task whose source is catalogued as video `id`. */
  predicate Fresh(w: World, spec: Spec, id: VideoId) {
    spec.source != spec.target && SourceFull(w, spec) && RecordWaiting(w, spec, id)
  }

  /**
   Any two smooth lives of the same task that complete, whatever crashes each has gone through,
   end in the same world; and that world is the destination.
   */
  lemma CrashConvergence(w: World, spec: Spec, id: VideoId, calm: seq<Moment>, stormy: seq<Moment>)
    requires Fresh(w, spec, id)
    requires var a := Life(w, NewTask(spec), calm); a.Some? && a.value.1.status == Completed
    requires var b := Life(w, NewTask(spec), stormy); b.Some? && b.value.1.status == Completed
    ensures Life(w, NewTask(spec), stormy).value.0 == Life(w, NewTask(spec), calm).value.0
    ensures Life(w, NewTask(spec), stormy).value.0 == Destination(w, spec, id)
  {
    LifeKeepsUnderway(w, NewTask(spec), calm, id);
    LifeKeepsUnderway(w, NewTask(spec), stormy, id);
    CompletedMeansArrived(Life(w, NewTask(spec), calm).value, id);
    CompletedMeansArrived(Life(w, NewTask(spec), stormy).value, id);
  }

  lemma CompletedMeansArrived(n: (World, Task), id: VideoId)
    requires Underway(n.0, n.1, id) && n.1.status == Completed
    ensures n.0 == Destination(n.0, n.1.spec, id)
  {
    var d := Destination(n.0, n.1.spec, id);
    assert n.0.files == d.files;
    assert n.0.records == d.records;
  }

  lemma {:induction false} LifeAppend(w: World, t: Task, ms: seq<Moment>, more: seq<Moment>)
    requires Life(w, t, ms).Some?
    ensures Life(w, t, ms + more) == Life(Life(w, t, ms).value.0, Life(w, t, ms).value.1, more)
    decreases |ms|
  {
    if ms == [] {
      assert ms + more == more;
    } else {
      assert (ms + more)[1..] == ms[1..] + more;
      LifeAppend(Live(w, t, ms[0]).value.0, Live(w, t, ms[0]).value.1, ms[1..], more);
    }
  }

  /** One more smooth step on a life that is underway. */
  lemma OneMore(w: World, t: Task, ms: seq<Moment>, id: VideoId, e: TaskEvent)
      returns (ms': seq<Moment>, n: (World, Task))
    requires Underway(w, t, id) && Life(w, t, ms).Some?
    requires Live(Life(w, t, ms).value.0, Life(w, t, ms).value.1, On(e)).Some?
    ensures Life(w, t, ms') == Some(n) && Some(n) == Live(Life(w, t, ms).value.0, Life(w, t, ms).value.1, On(e))
    ensures ms' == ms + [On(e)]
    ensures Underway(n.0, n.1, id)
  {
    var m := Life(w, t, ms).value;
    ms', n := ms + [On(e)], Live(m.0, m.1, On(e)).value;
    LifeAppend(w, t, ms, [On(e)]);
    assert [On(e)][1..] == [];
    assert Life(n.0, n.1, []) == Some(n);
    LifeKeepsUnderway(w, t, ms', id);
  }

  /** What the phases left to run still need from the target path. */
  predicate Unobstructed(w: World, t: Task, id: VideoId) {
    && (!t.spec.overwrite ==> t.spec.target !in w.records || RecordMoved(w, t.spec, id))
    && (t.stage.Running? && t.stage.pc.Moving? ==> TargetFreeFor(w, t.spec, id))
  }

  /** From wherever a crash left an unsettled task there is a smooth way to the end. */
  lemma RecoverAndFinish(w: World, t: Task, id: VideoId) returns (ms: seq<Moment>)
    requires Underway(w, t, id) && t.stage.Idle? && !Terminal(t.status) && CrashForgivable(w, t)
    requires Unobstructed(w, t, id)
    ensures Life(w, t, ms).Some? && Life(w, t, ms).value.1.status == Completed
  {
    var n: (World, Task);
    ms, n := Requeue(w, t, id);
    var rest := FinishRunning(n.0, n.1, id);
    LifeAppend(w, t, ms, rest);
    ms := ms + rest;
  }

  /** Compensation, reset, submission and dispatch. */
  lemma Requeue(w: World, t: Task, id: VideoId) returns (ms: seq<Moment>, n: (World, Task))
    requires Underway(w, t, id) && t.stage.Idle? && !Terminal(t.status) && CrashForgivable(w, t)
    requires Unobstructed(w, t, id)
    ensures Life(w, t, ms) == Some(n) && Underway(n.0, n.1, id) && n.1.stage.Running? && Unobstructed(n.0, n.1, id)
  {
    ms, n := Replan(w, t, id);
    var rest, m := Redispatch(n.0, n.1, id);
    LifeAppend(w, t, ms, rest);
    ms, n := ms + rest, m;
    hide *;
  }

  lemma Replan(w: World, t: Task, id: VideoId) returns (ms: seq<Moment>, n: (World, Task))
    requires Underway(w, t, id) && t.stage.Idle? && !Terminal(t.status) && CrashForgivable(w, t)
    requires Unobstructed(w, t, id)
    ensures Life(w, t, ms) == Some(n) && Underway(n.0, n.1, id) && Unobstructed(n.0, n.1, id)
    ensures n.1.stage.Planned? && n.1.status == Pending
  {
    hide Underway, Life;
    assert Life(w, t, []) == Some((w, t)) by { EmptyLife(w, t); }
    ms, n := OneMore(w, t, [], id, Compensate(true));
    assert n.0.records == w.records && n.1.stage == Compensated(ResumePoint(t.status).value);
    ms, n := OneMore(w, t, ms, id, Plan);
  }

  lemma Redispatch(w: World, t: Task, id: VideoId) returns (ms: seq<Moment>, n: (World, Task))
    requires Underway(w, t, id) && t.stage.Planned? && t.status == Pending && Unobstructed(w, t, id)
    ensures Life(w, t, ms) == Some(n) && Underway(n.0, n.1, id) && n.1.stage.Running? && Unobstructed(n.0, n.1, id)
    ensures Calm(ms)
  {
    assert !t.cancel;
    hide Underway, Life;
    assert Life(w, t, []) == Some((w, t)) by { EmptyLife(w, t); }
    ms, n := OneMore(w, t, [], id, Submit);
    ms, n := OneMore(w, t, ms, id, Dispatch);
  }

  lemma EmptyLife(w: World, t: Task)
    ensures Life(w, t, []) == Some((w, t))
  {
  }

  /** The smooth step a running worker takes next. */
  function NextSmooth(w: World, t: Task): TaskEvent
    requires t.stage.Running?
  {
    match t.stage.pc
    case Opening => Open
    case Copying(k) => if k == |t.spec.original| then Finish else Chunk(1)
    case Finding => if t.spec.source in w.records then Find else FindNothing
    case Displacing(_) => Displace
    case Moving(_) => Move
    case Deleting => DeleteSource(true)
    case _ => Persist
  }

  lemma NextSmoothIsOpen(w: World, t: Task, id: VideoId)
    requires Underway(w, t, id) && t.stage.Running? && Unobstructed(w, t, id)
    ensures Live(w, t, On(NextSmooth(w, t))).Some?
    ensures var n := Live(w, t, On(NextSmooth(w, t))).value;
      Unobstructed(n.0, n.1, id) && (!n.1.stage.Running? ==> n.1.status == Completed)
  {
    assert t.stage.pc.Copying? ==> SourceFull(w, t.spec);
  }

  /** A running task goes on to complete. */
  lemma FinishRunning(w: World, t: Task, id: VideoId) returns (ms: seq<Moment>)
    requires Underway(w, t, id) && t.stage.Running? && Unobstructed(w, t, id)
    ensures Life(w, t, ms).Some? && Life(w, t, ms).value.1.status == Completed && Calm(ms)
    decreases StepsLeft(t)
  {
    var e := NextSmooth(w, t);
    NextSmoothIsOpen(w, t, id);
    var n := Live(w, t, On(e)).value;
    SmoothStepKeepsUnderway(w, t, e, id);
    WorkerStepsRunOut(w, t, e);
    if n.1.stage.Running? {
      var rest := FinishRunning(n.0, n.1, id);
      ms := [On(e)] + rest;
      assert ms[1..] == rest;
    } else {
      ms := [On(e)];
      assert Life(n.0, n.1, ms[1..]) == Some(n);
    }
  }

  // ---------------------------------------------------------------- a single crash needs no assumption

  /** Never interrupted: queued only to run in full, and PENDING only until its first save. */
  predicate Uninterrupted(w: World, t: Task) {
    && TaskOk(w, t) && !t.cancel && t.status !in {Failed, Cancelled}
    && !t.stage.Compensated? && t.stage !in {Running(Save(Cancelled)), Running(SaveQueuedCancel)}
    && (t.stage in {Planned(UpdatingDb), Planned(DeletingSource), Queued(UpdatingDb), Queued(DeletingSource)} ==> false)
    && (t.status == Pending ==> !t.stage.Idle? && (t.stage.Running? ==> t.stage.pc == Save(Processing)))
    && (t.stage.Idle? ==> t.status == Completed)
  }

  lemma UninterruptedIsForgivable(w: World, t: Task)
    requires Uninterrupted(w, t)
    ensures CrashForgivable(w, t)
  {
  }

  lemma SmoothStepUninterrupted(w: World, t: Task, e: TaskEvent)
    requires Uninterrupted(w, t) && Live(w, t, On(e)).Some?
    ensures Uninterrupted(Live(w, t, On(e)).value.0, Live(w, t, On(e)).value.1)
  {
    StepKeepsOk(w, t, e);
    if WorkerEvent(e) {
      SmoothWorkUninterrupted(w, t, e);
    } else {
      hide WorkerStep, CompensateWorld, TaskOk;
    }
  }

  lemma SmoothWorkUninterrupted(w: World, t: Task, e: TaskEvent)
    requires Uninterrupted(w, t) && WorkerEvent(e) && Live(w, t, On(e)).Some?
    ensures var n := Live(w, t, On(e)).value; TaskOk(n.0, n.1) ==> Uninterrupted(n.0, n.1)
  {
    hide CompensateWorld, RetryStart, ResumePoint, FirstPc, MoveRecord, SourceFull, TargetFull;
  }

  /** The first crash of a new task is always forgivable, wherever it falls. */
  lemma {:induction false} FirstCrashIsForgivable(w: World, t: Task, ms: seq<Moment>)
    requires Uninterrupted(w, t) && Die !in ms && Life(w, t, ms).Some?
    ensures CrashForgivable(Life(w, t, ms).value.0, Life(w, t, ms).value.1)
    decreases |ms|
  {
    UninterruptedIsForgivable(w, t);
    if ms != [] {
      SmoothStepUninterrupted(w, t, ms[0].e);
      FirstCrashIsForgivable(Live(w, t, ms[0]).value.0, Live(w, t, ms[0]).value.1, ms[1..]);
    }
  }

  /**
   From any single crash point: cut an uninterrupted run anywhere, let the process die there, and
   there is a recovery that completes, and every one that completes ends where the run would have.
   */
  lemma SingleCrashConverges(w: World, spec: Spec, id: VideoId, before: seq<Moment>) returns (after: seq<Moment>)
    requires Fresh(w, spec, id) && (!spec.overwrite ==> spec.target !in w.records)
    requires Die !in before && Life(w, NewTask(spec), before).Some?
    requires !Terminal(Life(w, NewTask(spec), before).value.1.status)
    ensures var n := Life(w, NewTask(spec), before + [Die] + after); n.Some? && n.value.1.status == Completed
    ensures Life(w, NewTask(spec), before + [Die] + after).value.0 == Destination(w, spec, id)
  {
    var t := NewTask(spec);
    var m := Life(w, t, before).value;
    FirstCrashIsForgivable(w, t, before);
    LifeKeepsUnderway(w, t, before, id);
    LifeStaysUnobstructed(w, t, before, id);
    LifeAppend(w, t, before, [Die]);
    assert [Die][1..] == [];
    assert Life(m.0, Release(m.1), []) == Some((m.0, Release(m.1)));
    CrashKeepsOk(m.0, m.1);
    after := RecoverAndFinish(m.0, Release(m.1), id);
    LifeAppend(w, t, before + [Die], after);
    CrashConvergence(w, spec, id, before + [Die] + after, before + [Die] + after);
  }

  lemma {:induction false} LifeStaysUnobstructed(w: World, t: Task, ms: seq<Moment>, id: VideoId)
    requires Underway(w, t, id) && Unobstructed(w, t, id) && Life(w, t, ms).Some?
    ensures Unobstructed(Life(w, t, ms).value.0, Life(w, t, ms).value.1, id)
    decreases |ms|
  {
    if ms != [] {
      LifeKeepsUnderway(w, t, ms[..1], id);
      assert ms[..1][0] == ms[0] && ms[..1][1..] == [];
      var n := Live(w, t, ms[0]).value;
      assert Life(n.0, n.1, []) == Some(n);
      MomentKeepsUnobstructed(w, t, ms[0], id);
      LifeStaysUnobstructed(n.0, n.1, ms[1..], id);
    }
  }

  lemma MomentKeepsUnobstructed(w: World, t: Task, m: Moment, id: VideoId)
    requires Underway(w, t, id) && Unobstructed(w, t, id) && Live(w, t, m).Some?
    ensures Unobstructed(Live(w, t, m).value.0, Live(w, t, m).value.1, id)
  {
  }
}
