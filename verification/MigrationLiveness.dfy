/** No task is forgotten while the process lives, and every task settles. */
module MigrationLiveness {
  import opened Wrappers
  import opened MigrationModel
  import opened MigrationSafety
  import opened MigrationProtocol

  /** The steps after which the code itself lets go of an unsettled task until the next restart. */
  predicate LetsGo(s: State, e: Event) {
    match e
    case Act(id, te) =>
      te.RecordFailureFails?
      || (te.PersistFails? && id in s.tasks && s.tasks[id].stage == Running(SaveQueuedCancel))
    case RecoveryFails => true
    case _ => false
  }

  /** The run goes through and no step in it lets go of a task. */
  predicate HoldingRun(s: State, es: seq<Event>)
    decreases |es|
  {
    es != [] ==> !LetsGo(s, es[0]) && Step(s, es[0]).Some? && HoldingRun(Step(s, es[0]).value, es[1..])
  }

  /** Every unsettled task is waiting, running, or between its insert or reset and its submit. */
  predicate NoneStranded(s: State) {
    !s.recovering ==> forall id :: id in s.tasks && !Terminal(s.tasks[id].status) ==>
      s.tasks[id].stage.Planned? || s.tasks[id].stage.Queued? || s.tasks[id].stage.Running?
  }

  /** The statuses a worker ever saves; PENDING is only ever written by a client or by recovery. */
  predicate SavesAreForward(s: State) {
    forall id :: id in s.tasks ==> s.tasks[id].stage != Running(Save(Pending))
  }

  predicate Held(s: State) {
    NoneStranded(s) && SavesAreForward(s)
    && forall id :: id in s.tasks && s.tasks[id].stage.Compensated? ==>
         s.recovering && !Terminal(s.tasks[id].status)
  }

  lemma TaskStepHolds(w: World, t: Task, e: TaskEvent)
    requires TaskStep(w, t, e).Some? && !StartupEvent(e) && !t.stage.Compensated?
    requires t.stage != Running(Save(Pending))
    requires !Terminal(t.status) ==> !t.stage.Idle?
    requires !e.RecordFailureFails? && !(e.PersistFails? && t.stage == Running(SaveQueuedCancel))
    ensures var t' := TaskStep(w, t, e).value.1;
      && t'.stage != Running(Save(Pending)) && !t'.stage.Compensated?
      && (!Terminal(t'.status) ==> !t'.stage.Idle?)
  {
  }

  /** Exactly these steps of a worker let go of an unsettled migration, and nothing keeps them from happening. */
  lemma LetsGoIff(w: World, t: Task, e: TaskEvent)
    requires t.stage.Running? && t.status !in {Completed, Failed, Cancelled} && t.stage.pc != Save(Pending)
    ensures t.stage.pc.SaveQueuedCancel? ==> TaskStep(w, t, PersistFails).Some?
    ensures t.stage.pc.Failing? ==> TaskStep(w, t, RecordFailureFails).Some?
    ensures TaskStep(w, t, e).Some? ==>
      var t' := TaskStep(w, t, e).value.1;
      t'.stage.Idle? && t'.status !in {Completed, Failed, Cancelled} <==>
        e.RecordFailureFails? || (e.PersistFails? && t.stage.pc.SaveQueuedCancel?)
  {
    hide MoveRecord, CompensateWorld;
  }

  lemma StartupStepHolds(w: World, t: Task, e: TaskEvent)
    requires TaskStep(w, t, e).Some? && StartupEvent(e)
    ensures var t' := TaskStep(w, t, e).value.1;
      t'.stage.Planned? || (t'.stage.Compensated? && !Terminal(t'.status))
  {
  }

  lemma StepHolds(s: State, e: Event)
    requires Held(s) && Step(s, e).Some? && !LetsGo(s, e)
    ensures Held(Step(s, e).value)
  {
    if e.Act? {
      if s.recovering {
        StartupStepHolds(s.world, s.tasks[e.id], e.e);
      } else {
        TaskStepHolds(s.world, s.tasks[e.id], e.e);
      }
    }
  }

  /** No stranded task, after any run in which the saves that end a task's run succeed. */
  lemma {:induction false} NoStrandedTask(s: State, es: seq<Event>)
    requires Held(s) && HoldingRun(s, es)
    ensures Run(s, es).Some? && Held(Run(s, es).value)
    decreases |es|
  {
    if es != [] {
      StepHolds(s, es[0]);
      NoStrandedTask(Step(s, es[0]).value, es[1..]);
    }
  }

  // ---------------------------------------------------------------- settling

  /** How many of the events are steps of the worker running the task. */
  function WorkerStepsOf(id: TaskId, es: seq<Event>): nat {
    if es == [] then 0
    else (if es[0].Act? && es[0].id == id && WorkerEvent(es[0].e) then 1 else 0) + WorkerStepsOf(id, es[1..])
  }

  /** No crash, and nobody retries this task. */
  predicate Undisturbed(id: TaskId, es: seq<Event>) {
    forall e :: e in es ==> !e.Crash? && !(e.Act? && e.id == id && e.e.Retry?)
  }

  /**
   Every task settles: between crashes and retries, a running task's worker takes at most
   `StepsLeft` steps, however they interleave with everybody else's; while it is not released a
   further step is open to it (`WorkerNeverStuck`), and it is released settled (`NoStrandedTask`).
   */
  lemma {:induction false} WorkerStepsAreBounded(s: State, es: seq<Event>, id: TaskId)
    requires Inv(s) && GoodRun(s, es) && Undisturbed(id, es)
    requires !s.recovering && id in s.tasks
    requires s.tasks[id].stage.Running? || s.tasks[id].stage.Idle?
    requires Run(s, es).Some? && id !in Run(s, es).value.released
    ensures id in Run(s, es).value.tasks
    ensures WorkerStepsOf(id, es) + StepsLeft(Run(s, es).value.tasks[id]) <= StepsLeft(s.tasks[id])
    decreases |es|
  {
    if es != [] {
      var s1 := Step(s, es[0]).value;
      ReleasedOnlyGrows(s1, es[1..]);
      StepKeepsInv(s, es[0]);
      if es[0].Act? && es[0].id == id {
        OwnStep(s.world, s.tasks[id], es[0].e);
      }
      WorkerStepsAreBounded(s1, es[1..], id);
    }
  }

  lemma {:induction false} ReleasedOnlyGrows(s: State, es: seq<Event>)
    requires Run(s, es).Some?
    ensures s.released <= Run(s, es).value.released
    decreases |es|
  {
    if es != [] {
      ReleasedOnlyGrows(Step(s, es[0]).value, es[1..]);
    }
  }

  lemma OwnStep(w: World, t: Task, e: TaskEvent)
    requires TaskOk(w, t) && TaskStep(w, t, e).Some? && !e.Retry? && !StartupEvent(e)
    requires t.stage.Running? || t.stage.Idle?
    ensures var t' := TaskStep(w, t, e).value.1;
      && (t'.stage.Running? || t'.stage.Idle?)
      && StepsLeft(t') + (if WorkerEvent(e) then 1 else 0) <= StepsLeft(t)
  {
    if WorkerEvent(e) {
      WorkerStepsRunOut(w, t, e);
    }
  }
}
