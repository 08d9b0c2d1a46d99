/**
 The migration protocol run by the task runner: tickets, workers and crashes of the one are those of the
 other.  What is proved of each half holds of the whole, and the halves agree about who waits and who runs.
 */
module MigrationRuntime {
  import opened Wrappers
  import opened MigrationModel
  import opened MigrationSafety
  import P = MigrationProtocol
  import L = MigrationLiveness
  import R = TaskRunner

  type TaskId = nat

  datatype System = System(p: P.State, r: R.State)

  datatype Event =
    | Outside(e: P.Event)                      // clients, startup, and the rest of the catalogue
    | Enqueue(id: TaskId)                      // a planned task is submitted
    | Pick(idle: R.WorkerId)                   // an idle worker takes the oldest ticket
    | Work(busy: R.WorkerId, te: TaskEvent)    // a busy worker takes one step of its task
    | Watch(seen: R.Event)                     // observers, and frames on their way to them
    | Die

  /** Steps of the protocol in which the runner has no part. */
  predicate RunnerAside(e: P.Event) {
    match e
    case Crash => false
    case Act(_, te) => te.Cancel? || te.Retry? || te.RetryBreaks? || te.Compensate? || te.Plan?
    case _ => true
  }

  predicate Watching(e: R.Event) {
    e.Attach? || e.CheckLive? || e.Receive? || e.Detach? || e.Emit?
  }

  /** A worker's step; letting go of the task and leaving `_running_task_ids` are one block. */
  function AfterWork(p': P.State, r': R.State, w: R.WorkerId): System
    requires w in r'.workers
  {
    var id := r'.workers[w].taskId;
    System(p', if id in p'.tasks && p'.tasks[id].stage.Running? then r' else R.SettleJob(r', w))
  }

  function Step(s: System, e: Event): Option<System> {
    match e
    case Outside(pe) =>
      if !RunnerAside(pe) then None
      else (match P.Step(s.p, pe) case None => None case Some(p') => Some(System(p', s.r)))
    case Enqueue(id) =>
      if id !in s.p.tasks || !s.p.tasks[id].stage.Planned? then None
      else (match P.Step(s.p, P.Act(id, Submit))
            case None => None
            case Some(p') => Some(System(p', R.SubmitJob(s.r, R.Job(id, s.p.tasks[id].stage.start)))))
    case Pick(w) =>
      if w >= s.r.pool || w in s.r.workers || s.r.queue == [] then None
      else (match P.Step(s.p, P.Act(s.r.queue[0].taskId, Dispatch))
            case None => None
            case Some(p') => Some(AfterWork(p', R.TakeJob(s.r, w), w)))
    case Work(w, te) =>
      if w !in s.r.workers || !WorkerEvent(te) then None
      else (match P.Step(s.p, P.Act(s.r.workers[w].taskId, te))
            case None => None
            case Some(p') => Some(AfterWork(p', s.r, w)))
    case Watch(re) =>
      if !Watching(re) then None
      else (match R.Step(s.r, re) case None => None case Some(r') => Some(System(s.p, r')))
    case Die => (match P.Step(s.p, P.Crash) case None => None case Some(p') => Some(System(p', Restarted(s.r))))
  }

  /** A new process: same pool, nothing queued, nobody watching. */
  function Restarted(r: R.State): R.State {
    R.State(r.pool, [], {}, {}, map[], map[], [], [], 0)
  }

  function Run(s: System, es: seq<Event>): Option<System>
    decreases |es|
  {
    if es == [] then Some(s)
    else match Step(s, es[0])
      case None => None
      case Some(n) => Run(n, es[1..])
  }

  ghost predicate Start(s: System, maxConcurrent: int) {
    P.Init(s.p) && s.r == R.Initial(maxConcurrent)
  }

  // ---------------------------------------------------------------- the halves agree

  predicate TicketAgrees(s: System, job: R.Job) {
    job.taskId in s.p.tasks && s.p.tasks[job.taskId].stage.Queued? ==>
      job.startFrom == s.p.tasks[job.taskId].stage.start
  }

  ghost predicate WaitersAgree(s: System) {
    && (forall id :: id in s.r.waiting <==> id in s.p.tasks && s.p.tasks[id].stage.Queued?)
    && (forall i :: 0 <= i < |s.r.queue| ==> TicketAgrees(s, s.r.queue[i]))
  }

  ghost predicate RunnersAgree(s: System) {
    forall id :: id in s.r.running <==> id in s.p.tasks && s.p.tasks[id].stage.Running?
  }

  ghost predicate Linked(s: System) {
    && R.Exclusive(s.r) && WaitersAgree(s) && RunnersAgree(s)
    && (s.p.recovering ==> s.r.waiting == {} && s.r.running == {})
  }

  /** The protocol steps a system step amounts to: at most one. */
  function Projected(s: System, e: Event): seq<P.Event> {
    match e
    case Outside(pe) => [pe]
    case Enqueue(id) => [P.Act(id, Submit)]
    case Pick(_) => if s.r.queue == [] then [] else [P.Act(s.r.queue[0].taskId, Dispatch)]
    case Work(w, te) => if w in s.r.workers then [P.Act(s.r.workers[w].taskId, te)] else []
    case Watch(_) => []
    case Die => [P.Crash]
  }

  lemma StepProjects(s: System, e: Event)
    requires Step(s, e).Some?
    ensures var pes := Projected(s, e); var p' := Step(s, e).value.p;
      if pes == [] then p' == s.p else |pes| == 1 && P.Step(s.p, pes[0]) == Some(p')
  {
    hide P.Step, R.Step, R.SubmitJob, R.TakeJob, R.SettleJob;
  }

  /** Which stages a task step leads to. */
  lemma StagesMove(w: World, t: Task, e: TaskEvent)
    requires TaskStep(w, t, e).Some?
    ensures var t' := TaskStep(w, t, e).value.1;
      && (e.Submit? ==> t.stage.Planned? && t'.stage == Queued(t.stage.start))
      && (e.Dispatch? ==> t.stage.Queued? && (t'.stage.Running? || t'.stage.Idle?))
      && (WorkerEvent(e) ==> t.stage.Running? && (t'.stage.Running? || t'.stage.Idle?))
      && (e.Cancel? || e.RetryBreaks? ==> t'.stage == t.stage)
      && (e.Retry? || e.Compensate? || e.Plan? ==>
            (t.stage.Idle? || t.stage.Compensated?) && (t'.stage.Planned? || t'.stage.Compensated?))
  {
    hide MoveRecord, CompensateWorld;
  }

  lemma OutsideKeepsLinked(s: System, pe: P.Event)
    requires Linked(s) && Step(s, Outside(pe)).Some?
    ensures Linked(Step(s, Outside(pe)).value)
  {
    hide R.Exclusive;
    var p' := P.Step(s.p, pe).value;
    forall id
      ensures id in p'.tasks && p'.tasks[id].stage.Queued? <==> id in s.p.tasks && s.p.tasks[id].stage.Queued?
      ensures id in p'.tasks && p'.tasks[id].stage.Running? <==> id in s.p.tasks && s.p.tasks[id].stage.Running?
      ensures id in p'.tasks && id in s.p.tasks && s.p.tasks[id].stage.Queued? ==>
          p'.tasks[id].stage == s.p.tasks[id].stage
    {
      OutsideKeepsStage(s, pe, id);
    }
  }

  lemma OutsideKeepsStage(s: System, pe: P.Event, id: TaskId)
    requires Linked(s) && RunnerAside(pe) && P.Step(s.p, pe).Some?
    ensures var p' := P.Step(s.p, pe).value;
      && (id in s.p.tasks && (s.p.tasks[id].stage.Queued? || s.p.tasks[id].stage.Running?) ==>
            id in p'.tasks && p'.tasks[id].stage == s.p.tasks[id].stage)
      && (id in p'.tasks && (p'.tasks[id].stage.Queued? || p'.tasks[id].stage.Running?) ==>
          id in s.p.tasks && p'.tasks[id].stage == s.p.tasks[id].stage)
  {
    hide R.Exclusive, TaskStep;
    if pe.Act? {
      StagesMove(s.p.world, s.p.tasks[pe.id], pe.e);
    } else if pe.RecoveryFails? {
      assert s.r.waiting == {} && s.r.running == {};
      assert id in s.p.tasks ==> (id in s.r.waiting <==> s.p.tasks[id].stage.Queued?);
    }
  }

  /** A task's own step changes nothing else in the table. */
  lemma OwnStep(p: P.State, id: TaskId, te: TaskEvent)
    requires P.Step(p, P.Act(id, te)).Some?
    ensures id in p.tasks && TaskStep(p.world, p.tasks[id], te).Some?
    ensures var n := TaskStep(p.world, p.tasks[id], te).value;
      P.Step(p, P.Act(id, te)).value == p.(world := n.0, tasks := p.tasks[id := n.1])
    ensures p.recovering <==> P.StartupEvent(te)
  {
    hide TaskStep;
  }

  lemma EnqueueKeepsLinked(s: System, id: TaskId)
    requires Linked(s) && Step(s, Enqueue(id)).Some?
    ensures Linked(Step(s, Enqueue(id)).value)
    ensures Step(s, Enqueue(id)).value.r.queue == s.r.queue + [R.Job(id, s.p.tasks[id].stage.start)]
  {
    hide R.Exclusive, TaskStep, P.Step;
    R.SubmitKeepsExclusive(s.r, R.Job(id, s.p.tasks[id].stage.start));
    OwnStep(s.p, id, Submit);
    StagesMove(s.p.world, s.p.tasks[id], Submit);
    QueuedAreWaiting(s.r);
    assert !R.Active(s.r, id);
  }

  lemma QueuedAreWaiting(r: R.State)
    requires R.Exclusive(r)
    ensures forall i :: 0 <= i < |r.queue| ==> r.queue[i].taskId in r.waiting
  {
  }

  /** The task leaves the queue for a worker's hands, or is let go of at once. */
  lemma PickKeepsLinked(s: System, w: R.WorkerId)
    requires Linked(s) && Step(s, Pick(w)).Some?
    ensures Linked(Step(s, Pick(w)).value)
  {
    hide R.Exclusive, TaskStep, P.Step, R.EndStreams;
    var id := s.r.queue[0].taskId;
    var r' := R.TakeJob(s.r, w);
    R.TakeKeepsExclusive(s.r, w);
    LaterTickets(s.r);
    OwnStep(s.p, id, Dispatch);
    StagesMove(s.p.world, s.p.tasks[id], Dispatch);
    var p' := P.Step(s.p, P.Act(id, Dispatch)).value;
    assert WaitersAgree(System(p', r'));
    AfterWorkAgrees(s, p', r', w);
  }

  /** Only the worker's own task may have left RUNNING, and then the runner lets go of it. */
  lemma AfterWorkAgrees(s: System, p': P.State, r': R.State, w: R.WorkerId)
    requires R.Exclusive(r') && w in r'.workers && WaitersAgree(System(p', r')) && !p'.recovering
    requires var id := r'.workers[w].taskId;
      id in p'.tasks && (forall u :: u in r'.running && u != id <==>
          u in p'.tasks && u != id && p'.tasks[u].stage.Running?)
    ensures Linked(AfterWork(p', r', w))
  {
    hide R.Exclusive, R.EndStreams;
    R.SettleKeepsExclusive(r', w);
    assert r'.workers[w].taskId in r'.running by { BusyIsRunning(r', w); }
  }

  lemma BusyIsRunning(r: R.State, w: R.WorkerId)
    requires R.Exclusive(r) && w in r.workers
    ensures r.workers[w].taskId in r.running && r.workers[w].taskId !in r.waiting
  {
  }

  /** The other tickets are for other tasks. */
  lemma LaterTickets(r: R.State)
    requires R.Exclusive(r) && r.queue != []
    ensures r.queue[0].taskId in r.waiting && r.queue[0].taskId !in r.running
    ensures forall i :: 0 <= i < |r.queue[1..]| ==>
        r.queue[1..][i] == r.queue[i + 1] && r.queue[1..][i].taskId != r.queue[0].taskId
  {
  }

  lemma WorkKeepsLinked(s: System, w: R.WorkerId, te: TaskEvent)
    requires Linked(s) && Step(s, Work(w, te)).Some?
    ensures Linked(Step(s, Work(w, te)).value)
  {
    hide R.Exclusive, TaskStep, P.Step, R.EndStreams, R.SettleJob;
    var id := s.r.workers[w].taskId;
    OwnStep(s.p, id, te);
    StagesMove(s.p.world, s.p.tasks[id], te);
    BusyIsRunning(s.r, w);
    var p' := P.Step(s.p, P.Act(id, te)).value;
    assert WaitersAgree(System(p', s.r));
    AfterWorkAgrees(s, p', s.r, w);
  }

  lemma WatchKeepsLinked(s: System, re: R.Event)
    requires Linked(s) && Step(s, Watch(re)).Some?
    ensures Linked(Step(s, Watch(re)).value)
  {
    hide R.Exclusive, R.Step;
    R.StepKeepsExclusive(s.r, re);
    WatchersChangeNothing(s.r, re);
  }

  lemma WatchersChangeNothing(r: R.State, re: R.Event)
    requires Watching(re) && R.Step(r, re).Some?
    ensures R.Step(r, re).value == r.(observers := R.Step(r, re).value.observers)
  {
    hide R.Notify, R.Without;
  }

  lemma DieKeepsLinked(s: System)
    requires Linked(s)
    ensures Step(s, Die).Some? && Linked(Step(s, Die).value)
  {
  }

  lemma StepKeepsLinked(s: System, e: Event)
    requires Linked(s) && Step(s, e).Some?
    ensures Linked(Step(s, e).value)
  {
    hide Step, Linked;
    match e
    case Outside(pe) => OutsideKeepsLinked(s, pe);
    case Enqueue(id) => EnqueueKeepsLinked(s, id);
    case Pick(w) => PickKeepsLinked(s, w);
    case Work(w, te) => WorkKeepsLinked(s, w, te);
    case Watch(re) => WatchKeepsLinked(s, re);
    case Die => DieKeepsLinked(s);
  }

  lemma StartIsLinked(s: System, maxConcurrent: int)
    requires Start(s, maxConcurrent)
    ensures Linked(s)
  {
  }

  lemma {:induction false} RunKeepsLinked(s: System, es: seq<Event>)
    requires Linked(s) && Run(s, es).Some?
    ensures Linked(Run(s, es).value) && Run(s, es).value.r.pool == s.r.pool
    decreases |es|
  {
    hide Linked;
    if es != [] {
      StepKeepsLinked(s, es[0]);
      PoolIsFixed(s, es[0]);
      RunKeepsLinked(Step(s, es[0]).value, es[1..]);
    }
  }

  lemma PoolIsFixed(s: System, e: Event)
    requires Step(s, e).Some?
    ensures Step(s, e).value.r.pool == s.r.pool
  {
    hide P.Step;
  }

  // ---------------------------------------------------------------- main results

  /**
   In every run of the whole system: the tasks in a worker's hands are exactly those the runner lists as
   running, each in the hands of exactly one worker, and never more than the pool is wide.
   */
  lemma OneWorkerPerTask(s: System, maxConcurrent: int, es: seq<Event>)
    requires Start(s, maxConcurrent) && Run(s, es).Some?
    ensures var n := Run(s, es).value;
      && (forall id :: id in n.p.tasks && n.p.tasks[id].stage.Running? <==>
          exists w :: w in n.r.workers && n.r.workers[w].taskId == id)
      && (forall w, v :: w in n.r.workers && v in n.r.workers && w != v ==>
          n.r.workers[w].taskId != n.r.workers[v].taskId)
      && |n.r.running| <= R.PoolSize(maxConcurrent)
  {
    StartIsLinked(s, maxConcurrent);
    RunKeepsLinked(s, es);
    var n := Run(s, es).value;
    assert R.WorkersAreRunning(n.r);
    R.InjectionBound(n.r.workers, n.r.running, n.r.pool);
  }

  /** A submission is never taken for a duplicate: the ticket enters the queue, last. */
  lemma SubmitIsNeverIgnored(s: System, id: TaskId)
    requires Linked(s) && Step(s, Enqueue(id)).Some?
    ensures var n := Step(s, Enqueue(id)).value;
      n.r.queue == s.r.queue + [R.Job(id, s.p.tasks[id].stage.start)] && id in n.r.waiting
  {
    EnqueueKeepsLinked(s, id);
  }

  /** A ticket is never stale: an idle worker can take the oldest, and starts where the ticket says. */
  lemma PickStartsWhereTheTicketSays(s: System, w: R.WorkerId)
    requires Linked(s) && !s.p.recovering && s.r.queue != [] && w < s.r.pool && w !in s.r.workers
    ensures Step(s, Pick(w)).Some?
    ensures var t := Step(s, Pick(w)).value.p.tasks[s.r.queue[0].taskId];
      || t.stage == Running(FirstPc(s.r.queue[0].startFrom))
      || t.stage == Running(SaveQueuedCancel)
      || (t.stage.Idle? && Terminal(t.status))
  {
    LaterTickets(s.r);
    hide R.Exclusive, FirstPc;
    assert s.p.tasks[s.r.queue[0].taskId].stage == Queued(s.r.queue[0].startFrom);
  }

  /** The run goes through, meets the protocol's assumptions, and never lets go of an unsettled task. */
  predicate GoodRun(s: System, es: seq<Event>)
    decreases |es|
  {
    es != [] ==>
      && Step(s, es[0]).Some?
      && (forall pe :: pe in Projected(s, es[0]) ==> P.Assumed(s.p, pe) && !L.LetsGo(s.p, pe))
      && GoodRun(Step(s, es[0]).value, es[1..])
  }

  lemma {:induction false} RunKeepsPromises(s: System, es: seq<Event>)
    requires P.Inv(s.p) && L.Held(s.p) && Linked(s) && GoodRun(s, es)
    ensures Run(s, es).Some?
    ensures var n := Run(s, es).value; P.Inv(n.p) && L.Held(n.p) && Linked(n)
    decreases |es|
  {
    hide P.Inv, L.Held, Linked, P.Step, P.Assumed, L.LetsGo;
    if es != [] {
      var e := es[0];
      StepProjects(s, e);
      if Projected(s, e) != [] {
        var pe := Projected(s, e)[0];
        P.StepKeepsInv(s.p, pe);
        L.StepHolds(s.p, pe);
      }
      StepKeepsLinked(s, e);
      RunKeepsPromises(Step(s, e).value, es[1..]);
    }
  }

  /**
   Nothing lost and nobody forgotten, in every run of the whole system: each task whose files nobody has
   taken over has its bytes at source or target; and outside startup each unsettled task is waiting in the
   queue, in a worker's hands, or between its insert or reset and its submission.
   */
  lemma NothingLostNobodyForgotten(s: System, maxConcurrent: int, es: seq<Event>, id: TaskId)
    requires Start(s, maxConcurrent) && GoodRun(s, es)
    ensures Run(s, es).Some?
    ensures var n := Run(s, es).value; id in n.p.tasks ==>
      && (id !in n.p.released ==> DataSafe(n.p.world, n.p.tasks[id].spec))
      && (!n.p.recovering && !Terminal(n.p.tasks[id].status) ==>
            id in n.r.waiting || id in n.r.running || n.p.tasks[id].stage.Planned?)
  {
    StartIsLinked(s, maxConcurrent);
    RunKeepsPromises(s, es);
    hide R.Exclusive;
    var n := Run(s, es).value;
    if id in n.p.tasks && id !in n.p.released {
      OkIsSafe(n.p.world, n.p.tasks[id]);
    }
  }

  /** Nor does the runner stand in the way of clients, of the rest of the catalogue, or of recovery. */
  lemma RunnerKeepsOut(s: System, pe: P.Event)
    requires !pe.Crash? && (pe.Act? ==> !pe.e.Submit? && !pe.e.Dispatch? && !WorkerEvent(pe.e))
    ensures Step(s, Outside(pe)).Some? <==> P.Step(s.p, pe).Some?
    ensures Step(s, Outside(pe)).Some? ==> Step(s, Outside(pe)).value == System(P.Step(s.p, pe).value, s.r)
  {
    hide P.Step;
  }

  /** Watching is always open and a pure read: nothing is started, restarted, delayed or otherwise affected by it. */
  lemma WatchingIsAPureRead(s: System, re: R.Event)
    requires Watching(re) && R.Step(s.r, re).Some?
    ensures Step(s, Watch(re)).Some?
    ensures var n := Step(s, Watch(re)).value;
      && n.p == s.p && n.r == s.r.(observers := n.r.observers)
      && forall e: Event :: !e.Watch? ==> (Step(n, e).Some? <==> Step(s, e).Some?)
  {
    hide P.Step, R.Notify;
  }

  /** A worker lets go of a task only once it is settled. */
  lemma LetGoMeansSettled(s: System, e: Event, id: TaskId)
    requires Linked(s) && L.Held(s.p) && Step(s, e).Some? && (e.Work? || e.Pick?)
    requires Projected(s, e) == [P.Act(id, if e.Work? then e.te else Dispatch)] && !L.LetsGo(s.p, Projected(s, e)[0])
    requires id !in Step(s, e).value.r.running
    ensures var p' := Step(s, e).value.p; id in p'.tasks && Terminal(p'.tasks[id].status)
  {
    var te := if e.Work? then e.te else Dispatch;
    StepProjects(s, e);
    StepKeepsLinked(s, e);
    L.StepHolds(s.p, P.Act(id, te));
    OwnStep(s.p, id, te);
    StagesMove(s.p.world, s.p.tasks[id], te);
    hide Step, R.Exclusive, P.Step, TaskStep, WaitersAgree;
  }

  /** Some step is open to every task in a worker's hands, and it is none that lets go of an unsettled one. */
  lemma WorkIsOpen(w: World, t: Task) returns (te: TaskEvent)
    requires t.stage.Running?
    ensures WorkerEvent(te) && TaskStep(w, t, te).Some? && !te.PersistFails? && !te.RecordFailureFails?
  {
    match t.stage.pc
    case Save(_) => te := Persist;
    case SaveQueuedCancel => te := Persist;
    case Opening => te := Open;
    case Copying(_) => te := CopyBreaks;
    case Discarding(_) => te := Discard(true);
    case Finding => te := if t.spec.source in w.records then Find else FindNothing;
    case Displacing(_) => te := Displace;
    case Moving(_) => te := MoveBreaks;
    case Deleting => te := DeleteSource(true);
    case Failing(_) => te := RecordFailure;
  }

  /** The system is never stuck: while anybody waits or runs, some worker can go on. */
  lemma NeverStuck(s: System, id: TaskId) returns (e: Event)
    requires Linked(s) && !s.p.recovering && s.r.pool > 0
    requires id in s.r.running || id in s.r.waiting
    ensures Step(s, e).Some? && (e.Work? || e.Pick?)
    ensures forall pe :: pe in Projected(s, e) ==> !L.LetsGo(s.p, pe)
  {
    hide R.Exclusive, TaskStep, FirstPc;
    if 0 in s.r.workers || id !in s.r.waiting {
      var w := if 0 in s.r.workers then 0 else BusyWith(s.r, id);
      BusyIsRunning(s.r, w);
      var te := WorkIsOpen(s.p.world, s.p.tasks[s.r.workers[w].taskId]);
      WorkersDoNotStartUp(te);
      e := Work(w, te);
    } else {
      SomebodyWaits(s.r, id);
      PickStartsWhereTheTicketSays(s, 0);
      e := Pick(0);
    }
  }

  lemma WorkersDoNotStartUp(te: TaskEvent)
    requires WorkerEvent(te)
    ensures !P.StartupEvent(te)
  {
  }

  ghost function BusyWith(r: R.State, id: TaskId): (w: R.WorkerId)
    requires R.Exclusive(r) && id in r.running
    ensures w in r.workers && r.workers[w].taskId == id
  {
    assert R.WorkersAreRunning(r);
    var w :| w in r.workers && r.workers[w].taskId == id;
    w
  }

  lemma SomebodyWaits(r: R.State, id: TaskId)
    requires R.Exclusive(r) && id in r.waiting
    ensures r.queue != []
  {
    assert R.QueueIsWaiting(r);
  }
}
