/**
 The exact condition of the record's promise.  Whoever else is in progress, a migration stays true to its
 video's record if and only if no rival record threatens it: once startup is over and everybody else has settled,
 a threatened one can be made to take the rival for its own.
 */
module MigrationRivals {
  import opened Wrappers
  import opened MigrationModel
  import opened MigrationSafety
  import opened MigrationProtocol
  import opened MigrationRecords
  import L = MigrationLiveness
  import S = MigrationSettling

  // ---------------------------------------------------------------- how a threatened task loses its record

  /** The only migration in progress: every other one is settled, and keeps clear of it unless taken over. */
  predicate Alone(s: State, id: TaskId) {
    && id in s.tasks
    && forall u :: u in s.tasks && u != id ==>
         !Engaged(s.tasks[u]) && (u !in s.released ==> Apart(s.tasks[u].spec, s.tasks[id].spec))
  }

  /** A good, quiet run that has come to `s`, where nobody else is in progress. */
  ghost predicate Reaches(s0: State, es: seq<Event>, s: State, id: TaskId, v: VideoId) {
    && GoodRun(s0, es) && Quiet(s0, es, id, v) && Run(s0, es) == Some(s)
    && id in s.tasks && Alone(s, id) && s.released == s0.released
  }

  lemma {:induction false} RunExtends(s0: State, es: seq<Event>, s: State, e: Event, id: TaskId, v: VideoId)
    requires GoodRun(s0, es) && Quiet(s0, es, id, v) && Run(s0, es) == Some(s)
    requires Assumed(s, e) && Step(s, e).Some? && !Endangers(s, e, id, v)
    ensures GoodRun(s0, es + [e]) && Quiet(s0, es + [e], id, v) && Run(s0, es + [e]) == Step(s, e)
    decreases |es|
  {
    hide Step, Assumed, Endangers;
    if es == [] {
      assert [] + [e] == [e] && [e][1..] == [];
      var n := Step(s, e).value;
      assert GoodRun(n, []) && Quiet(n, [], id, v) && Run(n, []) == Some(n);
    } else {
      assert (es + [e])[1..] == es[1..] + [e];
      RunExtends(Step(s0, es[0]).value, es[1..], s, e, id, v);
    }
  }

  lemma Happens(s0: State, es: seq<Event>, s: State, e: Event, id: TaskId, v: VideoId)
      returns (es': seq<Event>, s': State)
    requires Reaches(s0, es, s, id, v) && Assumed(s, e) && Step(s, e).Some? && !e.Register? && !e.NewFile?
    requires var n := Step(s, e).value; Alone(n, id) && n.released == s.released
    ensures Reaches(s0, es', s', id, v) && Step(s, e) == Some(s')
  {
    RunExtends(s0, es, s, e, id, v);
    es', s' := es + [e], Step(s, e).value;
  }

  lemma HereAlready(s: State, id: TaskId, v: VideoId)
    requires Alone(s, id)
    ensures Reaches(s, [], s, id, v)
  {
  }

  /** A step of the task, with the next state spelled out. */
  lemma Acts(s0: State, es: seq<Event>, s: State, te: TaskEvent, id: TaskId, v: VideoId)
      returns (es': seq<Event>, s': State)
    requires Reaches(s0, es, s, id, v) && s.recovering == StartupEvent(te)
    requires TaskStep(s.world, s.tasks[id], te).Some? && !SaveOfCompletedFails(s.tasks[id], te)
    ensures Reaches(s0, es', s', id, v)
    ensures var n := TaskStep(s.world, s.tasks[id], te).value;
      s' == s.(world := n.0, tasks := s.tasks[id := n.1])
  {
    StepKeepsSpec(s.world, s.tasks[id], te);
    hide TaskStep;
    es', s' := Happens(s0, es, s, Act(id, te), id, v);
  }

  /** A startup that found nothing of the task's to plan ends. */
  lemma StartupOver(s: State, id: TaskId, v: VideoId) returns (es: seq<Event>, s': State)
    requires Alone(s, id) && Terminal(s.tasks[id].status)
    ensures Reaches(s, es, s', id, v) && s' == s.(recovering := false)
  {
    HereAlready(s, id, v);
    es, s' := [], s;
    if s.recovering {
      hide Reaches, TaskStep;
      es, s' := Happens(s, es, s, Recovered, id, v);
    }
  }

  /** A retry brings a failed task back, the world as it was. */
  lemma RetriedAgain(s0: State, es: seq<Event>, s: State, id: TaskId, v: VideoId)
      returns (es': seq<Event>, s': State)
    requires Reaches(s0, es, s, id, v) && !s.recovering && s.tasks[id].status == Failed && s.tasks[id].stage.Idle?
    requires id !in s.released
    ensures Reaches(s0, es', s', id, v) && s'.world == s.world && s'.tasks[id].spec == s.tasks[id].spec
    ensures !Terminal(s'.tasks[id].status)
  {
    hide GoodRun, Quiet, Run, Endangers, Step, Alone, WorkerStep;
    es', s' := Acts(s0, es, s, Retry(false), id, v);
  }

  /** A task still in a worker's hands is saved once more, or its failure is recorded. */
  lemma HandedOn(s0: State, es: seq<Event>, s: State, id: TaskId, v: VideoId)
      returns (es': seq<Event>, s': State)
    requires Reaches(s0, es, s, id, v) && !s.recovering && TaskOk(s.world, s.tasks[id])
    requires Terminal(s.tasks[id].status) && !ForGood(s.tasks[id])
    ensures Reaches(s0, es', s', id, v) && s'.world == s.world && s'.tasks[id].spec == s.tasks[id].spec
    ensures !s'.recovering && s'.released == s.released
    ensures Terminal(s'.tasks[id].status) ==> s'.tasks[id].status == Failed && s'.tasks[id].stage.Idle?
  {
    hide GoodRun, Quiet, Run, Endangers, Step, Alone, CopyStep, CompensateWorld, MoveRecord;
    es', s' := es, s;
    var t := s.tasks[id];
    if t.stage.Running? && t.stage.pc.Save? {
      es', s' := Acts(s0, es, s, Persist, id, v);
    } else if t.stage.Running? {
      es', s' := Acts(s0, es, s, RecordFailure, id, v);
    }
  }

  /** The task is brought back to an unsettled status, the world as it was. */
  lemma Reopened(s: State, id: TaskId, v: VideoId) returns (es: seq<Event>, s': State)
    requires Alone(s, id) && TaskOk(s.world, s.tasks[id]) && id !in s.released
    requires !ForGood(s.tasks[id])
    ensures Reaches(s, es, s', id, v) && s'.world == s.world && s'.tasks[id].spec == s.tasks[id].spec
    ensures !Terminal(s'.tasks[id].status)
  {
    hide GoodRun, Quiet, Run, TaskOk, ForGood;
    if Terminal(s.tasks[id].status) {
      es, s' := StartupOver(s, id, v);
      es, s' := HandedOn(s, es, s', id, v);
      if Terminal(s'.tasks[id].status) {
        es, s' := RetriedAgain(s, es, s', id, v);
      }
    } else {
      HereAlready(s, id, v);
      es, s' := [], s;
    }
  }

  lemma Dies(s0: State, es: seq<Event>, s: State, id: TaskId, v: VideoId) returns (es': seq<Event>, s': State)
    requires Reaches(s0, es, s, id, v) && CrashForgivable(s.world, s.tasks[id])
    ensures Reaches(s0, es', s', id, v) && s'.world == s.world && s'.recovering
    ensures s'.tasks[id] == Release(s.tasks[id])
  {
    hide GoodRun, Quiet, Run, Endangers, TaskStep;
    es', s' := Happens(s0, es, s, Crash, id, v);
  }

  /** A crash and the recovery's plan for the task; the second time round it starts over with the copy. */
  lemma Replanned(s0: State, es: seq<Event>, s: State, id: TaskId, v: VideoId)
      returns (es': seq<Event>, s': State)
    requires Reaches(s0, es, s, id, v) && !Terminal(s.tasks[id].status) && SourceFull(s.world, s.tasks[id].spec)
    ensures Reaches(s0, es', s', id, v) && s'.world == s.world && s'.recovering
    ensures s'.tasks[id] ==
      Task(s.tasks[id].spec, Pending, s.tasks[id].failedStep, Planned(ResumePoint(s.tasks[id].status).value), false)
  {
    hide GoodRun, Quiet, Run, Endangers, WorkerStep, Step, Alone;
    var t := s.tasks[id];
    es', s' := Dies(s0, es, s, id, v);
    es', s' := Acts(s0, es', s', Compensate(false), id, v);
    es', s' := Acts(s0, es', s', Plan, id, v);
  }

  /** Planned from the start, the task is dispatched. */
  lemma DispatchedAgain(s0: State, es: seq<Event>, s: State, id: TaskId, v: VideoId)
      returns (es': seq<Event>, s': State)
    requires Reaches(s0, es, s, id, v) && !s.recovering
    requires var t := s.tasks[id]; t.status == Pending && t.stage == Planned(Processing) && !t.cancel
    ensures Reaches(s0, es', s', id, v) && !s'.recovering && s'.world == s.world
    ensures s'.tasks[id] == s.tasks[id].(stage := Running(Save(Processing)))
  {
    hide GoodRun, Quiet, Run, Step, Endangers, Alone, WorkerStep, CompensateWorld, AgreeAt, Reaches;
    es', s' := Acts(s0, es, s, Submit, id, v);
    es', s' := Acts(s0, es', s', Dispatch, id, v);
  }

  /** And opens its target. */
  lemma OpenedAgain(s0: State, es: seq<Event>, s: State, id: TaskId, v: VideoId)
      returns (es': seq<Event>, s': State)
    requires Reaches(s0, es, s, id, v) && !s.recovering && SourceFull(s.world, s.tasks[id].spec)
    requires var t := s.tasks[id]; t.status == Pending && t.stage == Planned(Processing) && !t.cancel
    requires s.tasks[id].spec.source != s.tasks[id].spec.target
    ensures Reaches(s0, es', s', id, v) && !s'.recovering && s'.world.records == s.world.records
    ensures SourceFull(s'.world, s.tasks[id].spec)
    ensures s'.tasks[id] == s.tasks[id].(status := Processing, stage := Running(Copying(0)))
  {
    es', s' := DispatchedAgain(s0, es, s, id, v);
    hide GoodRun, Quiet, Run, Step, Endangers, Alone, CopyStep, CompensateWorld, MoveRecord;
    es', s' := Acts(s0, es', s', Persist, id, v);
    es', s' := Acts(s0, es', s', Open, id, v);
  }

  /** It copies its file and comes to look its record up. */
  lemma CopiedAgain(s0: State, es: seq<Event>, s: State, id: TaskId, v: VideoId)
      returns (es': seq<Event>, s': State)
    requires Reaches(s0, es, s, id, v) && !s.recovering && SourceFull(s.world, s.tasks[id].spec)
    requires var t := s.tasks[id]; t.status == Processing && t.stage == Running(Copying(0)) && !t.cancel
    requires s.tasks[id].spec.source != s.tasks[id].spec.target
    ensures Reaches(s0, es', s', id, v) && !s'.recovering && s'.world.records == s.world.records
    ensures s'.tasks[id] == s.tasks[id].(status := UpdatingDb, stage := Running(Finding))
  {
    hide GoodRun, Quiet, Run, Step, Endangers, Alone, CompensateWorld, MoveRecord;
    var size := |s.tasks[id].spec.original|;
    es', s' := es, s;
    if size > 0 {
      es', s' := Acts(s0, es', s', Chunk(size), id, v);
    }
    es', s' := Acts(s0, es', s', Finish, id, v);
    es', s' := Acts(s0, es', s', Persist, id, v);
    es', s' := Acts(s0, es', s', Persist, id, v);
  }

  /** The rival is found in place of the task's own record, and takes its place at the target. */
  lemma RivalRepointed(s0: State, es: seq<Event>, s: State, id: TaskId, v: VideoId)
      returns (es': seq<Event>, s': State)
    requires Reaches(s0, es, s, id, v) && !s.recovering && s.tasks[id].stage == Running(Finding)
    requires s.tasks[id].spec.overwrite && RivalAtSource(s.world, s.tasks[id].spec, v)
    ensures Reaches(s0, es', s', id, v) && s'.tasks[id].status == DbUpdated
    ensures !Moved(s'.world, s'.tasks[id].spec, v)
  {
    hide GoodRun, Quiet, Run, Step, Endangers, Alone, CopyStep, CompensateWorld, MoveRecord;
    var spec, rival := s.tasks[id].spec, s.world.records[s.tasks[id].spec.source].id;
    es', s' := Acts(s0, es, s, Find, id, v);
    assert s'.tasks[id].stage == Running(Displacing(rival)) && s'.world == s.world;
    es', s' := Acts(s0, es', s', Displace, id, v);
    es', s' := RivalMoved(s0, es', s', id, v, rival);
  }

  lemma RivalMoved(s0: State, es: seq<Event>, s: State, id: TaskId, v: VideoId, rival: VideoId)
      returns (es': seq<Event>, s': State)
    requires Reaches(s0, es, s, id, v) && !s.recovering && s.tasks[id].stage == Running(Moving(rival))
    requires rival != v && TargetFreeFor(s.world, s.tasks[id].spec, rival)
    ensures Reaches(s0, es', s', id, v) && s'.tasks[id].status == DbUpdated
    ensures !Moved(s'.world, s'.tasks[id].spec, v)
  {
    hide GoodRun, Quiet, Run, Step, Endangers, Alone, CopyStep, CompensateWorld;
    es', s' := Acts(s0, es, s, Move, id, v);
    es', s' := Acts(s0, es', s', Persist, id, v);
  }

  lemma RivalTakesOver(s: State, id: TaskId, v: VideoId) returns (es: seq<Event>)
    requires Inv(s) && Alone(s, id) && id !in s.released && Threatened(s.world, s.tasks[id], v)
    ensures GoodRun(s, es) && Quiet(s, es, id, v) && Run(s, es).Some?
    ensures var n := Run(s, es).value;
      id in n.tasks && id !in n.released && !RecordTruth(n.world, n.tasks[id], v)
  {
    hide GoodRun, Quiet, Run, Endangers, TaskStep;
    var n: State;
    es, n := Reopened(s, id, v);
    es, n := Replanned(s, es, n, id, v);
    es, n := Replanned(s, es, n, id, v);
    es, n := Happens(s, es, n, Recovered, id, v);
    es, n := OpenedAgain(s, es, n, id, v);
    es, n := CopiedAgain(s, es, n, id, v);
    es, n := RivalRepointed(s, es, n, id, v);
  }

  // ---------------------------------------------------------------- everybody else settles first

  /** What every good run in which nobody was let go of leads to. */
  ghost predicate Reachable(s: State) {
    Inv(s) && L.Held(s) && S.Sound(s)
  }

  lemma {:induction false} GoodRunsReach(s: State, es: seq<Event>)
    requires Reachable(s) && GoodRun(s, es) && L.HoldingRun(s, es)
    ensures Run(s, es).Some? && Reachable(Run(s, es).value)
    decreases |es|
  {
    hide Step, Assumed, Inv, L.Held, L.LetsGo, S.Sound;
    if es != [] {
      StepKeepsInv(s, es[0]);
      L.StepHolds(s, es[0]);
      S.StepKeepsSound(s, es[0]);
      GoodRunsReach(Step(s, es[0]).value, es[1..]);
    }
  }

  lemma InitIsReachable(s: State)
    requires Init(s)
    ensures Reachable(s)
  {
  }

  /** A run of good, quiet events, joined to one that goes on from its end. */
  lemma {:induction false} QuietRunsJoin(s: State, es: seq<Event>, fs: seq<Event>, id: TaskId, v: VideoId)
    requires GoodRun(s, es) && Quiet(s, es, id, v) && Run(s, es).Some?
    requires GoodRun(Run(s, es).value, fs) && Quiet(Run(s, es).value, fs, id, v)
    ensures GoodRun(s, es + fs) && Quiet(s, es + fs, id, v) && Run(s, es + fs) == Run(Run(s, es).value, fs)
    decreases |es|
  {
    hide Step, Assumed, Endangers;
    if es == [] {
      assert es + fs == fs;
    } else {
      assert (es + fs)[1..] == es[1..] + fs;
      QuietRunsJoin(Step(s, es[0]).value, es[1..], fs, id, v);
    }
  }

  /** A step a task in memory can take that lets nobody go. */
  function NextStep(w: World, t: Task): TaskEvent {
    match t.stage
    case Planned(_) => Submit
    case Queued(_) => Dispatch
    case Running(pc) => (
      match pc
      case Opening => CopyBreaks
      case Copying(_) => CopyBreaks
      case Discarding(_) => Discard(false)
      case Finding => if t.spec.source in w.records then Find else FindNothing
      case Displacing(_) => Displace
      case Moving(_) => MoveBreaks
      case Deleting => DeleteSource(false)
      case Failing(_) => RecordFailure
      case _ => Persist)
    case _ => Submit
  }

  lemma NextStepIsOpen(w: World, t: Task)
    requires !t.stage.Idle? && !t.stage.Compensated?
    ensures TaskStep(w, t, NextStep(w, t)).Some?
    ensures var e := NextStep(w, t);
      !StartupEvent(e) && !e.PersistFails? && !e.RecordFailureFails? && !e.Retry? && !e.RetryBreaks? && !e.Cancel?
  {
    hide FirstPc, CompensateWorld, MoveRecord, AfterSave;
  }

  /** Somebody else takes a step: nothing changes for `id`, and less is left to do. */
  lemma OtherSteps(s: State, u: TaskId, id: TaskId) returns (n: State)
    requires Reachable(s) && !s.recovering && id in s.tasks && id !in s.released
    requires u in s.tasks && u != id && !s.tasks[u].stage.Idle?
    ensures var e := Act(u, NextStep(s.world, s.tasks[u]));
      Assumed(s, e) && !L.LetsGo(s, e) && Step(s, e) == Some(n)
    ensures Reachable(n) && !n.recovering && n.released == s.released && S.Measure(n) < S.Measure(s)
    ensures id in n.tasks && n.tasks[id] == s.tasks[id]
    ensures AgreeAt(s.world, n.world, s.tasks[id].spec.source) && AgreeAt(s.world, n.world, s.tasks[id].spec.target)
  {
    var te := NextStep(s.world, s.tasks[u]);
    NextStepIsOpen(s.world, s.tasks[u]);
    assert Apart(s.tasks[id].spec, s.tasks[u].spec);
    StepIsLocal(s.world, s.tasks[u], te, s.tasks[id].spec.source);
    StepIsLocal(s.world, s.tasks[u], te, s.tasks[id].spec.target);
    hide TaskStep, AgreeAt, NextStep, Inv, L.Held, S.Sound;
    n := Step(s, Act(u, te)).value;
    StepKeepsInv(s, Act(u, te));
    L.StepHolds(s, Act(u, te));
    S.StepKeepsSound(s, Act(u, te));
    S.ActLowers(s, u, te);
    S.SumStrictlyBelow(S.Lefts(n), S.Lefts(s), u);
  }

  lemma NothingMore(s: State, id: TaskId, v: VideoId)
    ensures GoodRun(s, []) && Quiet(s, [], id, v) && Run(s, []) == Some(s)
  {
  }

  /** One more event at the front of a good, quiet run. */
  lemma Before(s: State, e: Event, n: State, rest: seq<Event>, id: TaskId, v: VideoId) returns (es: seq<Event>)
    requires Assumed(s, e) && Step(s, e) == Some(n) && !Endangers(s, e, id, v)
    requires GoodRun(n, rest) && Quiet(n, rest, id, v)
    ensures GoodRun(s, es) && Quiet(s, es, id, v) && Run(s, es) == Run(n, rest)
  {
    hide Step, Assumed, Endangers;
    es := [e] + rest;
    assert es[1..] == rest;
  }

  /** Everybody else can be brought to settle, and the task does not notice. */
  lemma {:induction false} OthersSettle(s: State, id: TaskId, v: VideoId) returns (es: seq<Event>, n: State)
    requires Reachable(s) && !s.recovering && id in s.tasks && id !in s.released
    ensures GoodRun(s, es) && Quiet(s, es, id, v) && Run(s, es) == Some(n)
    ensures Inv(n) && n.released == s.released && Alone(n, id) && n.tasks[id] == s.tasks[id]
    ensures AgreeAt(s.world, n.world, s.tasks[id].spec.source) && AgreeAt(s.world, n.world, s.tasks[id].spec.target)
    decreases S.Measure(s)
  {
    if u :| u in s.tasks && u != id && !s.tasks[u].stage.Idle? {
      hide Step, Assumed, Reachable, Inv, GoodRun, Quiet, Run;
      var m := OtherSteps(s, u, id);
      var rest: seq<Event>;
      rest, n := OthersSettle(m, id, v);
      es := Before(s, Act(u, NextStep(s.world, s.tasks[u])), m, rest, id, v);
    } else {
      es, n := [], s;
    }
  }

  // ---------------------------------------------------------------- and startup ends

  /** The steps recovery has left with a task: to tidy up after it, to reset it. */
  function ToPlan(t: Task): nat {
    if Terminal(t.status) then 0 else match t.stage
      case Idle => 2
      case Compensated(_) => 1
      case _ => 0
  }

  ghost function LeftToPlan(s: State): nat {
    S.Sum(map id | id in s.tasks :: ToPlan(s.tasks[id]))
  }

  lemma PlanningStep(w: World, t: Task) returns (te: TaskEvent)
    requires ToPlan(t) > 0
    ensures StartupEvent(te) && TaskStep(w, t, te).Some?
    ensures var n := TaskStep(w, t, te).value;
      n.0 == w && n.1.spec == t.spec && !Terminal(n.1.status) && ToPlan(n.1) < ToPlan(t)
  {
    hide WorkerStep;
    te := if t.stage.Idle? then Compensate(false) else Plan;
  }

  /** One step of recovery, which leaves the files alone. */
  lemma RecoveryPlans(s: State, u: TaskId) returns (te: TaskEvent, n: State)
    requires Reachable(s) && s.recovering && u in s.tasks && ToPlan(s.tasks[u]) > 0
    ensures Assumed(s, Act(u, te)) && Step(s, Act(u, te)) == Some(n)
    ensures Reachable(n) && n.recovering && n.released == s.released && n.world == s.world
    ensures n.tasks.Keys == s.tasks.Keys && forall x :: x in s.tasks && x != u ==> n.tasks[x] == s.tasks[x]
    ensures n.tasks[u].spec == s.tasks[u].spec && !Terminal(n.tasks[u].status)
    ensures ToPlan(n.tasks[u]) < ToPlan(s.tasks[u])
  {
    te := PlanningStep(s.world, s.tasks[u]);
    hide TaskStep, WorkerStep, Inv, L.Held, S.Sound, ToPlan;
    n := Step(s, Act(u, te)).value;
    StepKeepsInv(s, Act(u, te));
    L.StepHolds(s, Act(u, te));
    S.StepKeepsSound(s, Act(u, te));
  }

  lemma PlanningLowers(s: State, n: State, u: TaskId)
    requires u in s.tasks && n.tasks.Keys == s.tasks.Keys && ToPlan(n.tasks[u]) < ToPlan(s.tasks[u])
    requires forall x :: x in s.tasks && x != u ==> n.tasks[x] == s.tasks[x]
    ensures LeftToPlan(n) < LeftToPlan(s)
  {
    S.SumStrictlyBelow(map x | x in n.tasks :: ToPlan(n.tasks[x]), map x | x in s.tasks :: ToPlan(s.tasks[x]), u);
  }

  lemma PlanIsComplete(s: State)
    requires Reachable(s) && s.recovering && forall u :: u in s.tasks ==> ToPlan(s.tasks[u]) == 0
    ensures AllPlanned(s)
  {
  }

  /** Nothing is left to plan. */
  lemma RecoveryEnds(s: State) returns (n: State)
    requires Reachable(s) && s.recovering && forall u :: u in s.tasks ==> ToPlan(s.tasks[u]) == 0
    ensures Assumed(s, Recovered) && Step(s, Recovered) == Some(n) && n == s.(recovering := false) && Reachable(n)
  {
    PlanIsComplete(s);
    hide Inv, L.Held, S.Sound, AllPlanned;
    n := Step(s, Recovered).value;
    StepKeepsInv(s, Recovered);
    L.StepHolds(s, Recovered);
    S.StepKeepsSound(s, Recovered);
  }

  lemma StaysThreatened(s: State, n: State, id: TaskId, u: TaskId, v: VideoId)
    requires id in s.tasks && id in n.tasks && Threatened(s.world, s.tasks[id], v) && n.world == s.world
    requires if u == id then n.tasks[id].spec == s.tasks[id].spec && !Terminal(n.tasks[id].status)
             else n.tasks[id] == s.tasks[id]
    ensures Threatened(n.world, n.tasks[id], v)
  {
  }

  /** Startup can be brought to its end, and leaves a threatened task threatened. */
  lemma {:induction false} StartupEnds(s: State, id: TaskId, v: VideoId) returns (es: seq<Event>, n: State)
    requires Reachable(s) && id in s.tasks && Threatened(s.world, s.tasks[id], v)
    ensures GoodRun(s, es) && Quiet(s, es, id, v) && Run(s, es) == Some(n)
    ensures Reachable(n) && !n.recovering && n.released == s.released && id in n.tasks
    ensures Threatened(n.world, n.tasks[id], v)
    decreases s.recovering, LeftToPlan(s)
  {
    hide Step, Assumed, Reachable, GoodRun, Quiet, Run, LeftToPlan, ToPlan, Threatened;
    var rest: seq<Event>, m: State;
    if !s.recovering {
      NothingMore(s, id, v);
      es, n := [], s;
    } else if u :| u in s.tasks && ToPlan(s.tasks[u]) > 0 {
      var te: TaskEvent;
      te, m := RecoveryPlans(s, u);
      PlanningLowers(s, m, u);
      StaysThreatened(s, m, id, u, v);
      rest, n := StartupEnds(m, id, v);
      es := Before(s, Act(u, te), m, rest, id, v);
    } else {
      m := RecoveryEnds(s);
      rest, n := StartupEnds(m, id, v);
      es := Before(s, Recovered, m, rest, id, v);
    }
  }

  // ---------------------------------------------------------------- the main result

  lemma ThreatenedLosesRecord(s: State, id: TaskId, v: VideoId) returns (es: seq<Event>)
    requires Reachable(s) && id in s.tasks && id !in s.released && Threatened(s.world, s.tasks[id], v)
    ensures GoodRun(s, es) && Quiet(s, es, id, v) && Run(s, es).Some?
    ensures var n := Run(s, es).value;
      id in n.tasks && id !in n.released && !RecordTruth(n.world, n.tasks[id], v)
  {
    hide GoodRun, Quiet, Run, Reachable, Inv;
    var n: State, m: State, more: seq<Event>;
    es, n := StartupEnds(s, id, v);
    more, m := OthersSettle(n, id, v);
    QuietRunsJoin(s, es, more, id, v);
    es := es + more;
    more := RivalTakesOver(m, id, v);
    QuietRunsJoin(s, es, more, id, v);
    es := es + more;
  }

  /**
   Of all that good runs lead to, with any number of migrations in progress and startup over or not: a migration
   that keeps its record stays true to it, whatever happens, if and only if it is not threatened.
   */
  lemma RecordStaysTrueIff(s: State, id: TaskId, v: VideoId)
    requires Reachable(s) && id in s.tasks && id !in s.released && RecordKept(s.world, s.tasks[id], v)
    ensures StaysTrue(s, id, v) <==> !Threatened(s.world, s.tasks[id], v)
  {
    hide Reachable, GoodRun, Quiet, Run, RecordKept, Threatened, RecordTruth;
    if Threatened(s.world, s.tasks[id], v) {
      var es := ThreatenedLosesRecord(s, id, v);
    } else {
      forall es | GoodRun(s, es) && Quiet(s, es, id, v)
        ensures var n := Run(s, es);
          n.Some? && id in n.value.tasks
          && (id !in n.value.released ==> RecordTruth(n.value.world, n.value.tasks[id], v))
      {
        TrueUnlessThreatened(s, es, id, v);
      }
    }
  }

  lemma TrueUnlessThreatened(s: State, es: seq<Event>, id: TaskId, v: VideoId)
    requires Reachable(s) && id in s.tasks && id !in s.released && RecordKept(s.world, s.tasks[id], v)
    requires !Threatened(s.world, s.tasks[id], v) && GoodRun(s, es) && Quiet(s, es, id, v)
    ensures var n := Run(s, es);
      n.Some? && id in n.value.tasks && (id !in n.value.released ==> RecordTruth(n.value.world, n.value.tasks[id], v))
  {
    RunKeepsRecord(s, es, id, v);
  }
}
