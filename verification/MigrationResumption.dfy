/**
 Which phases a migration runs, and runs again.  A phase that the persisted status or the recorded failure says is
 done is not run a second time; every other one is run before COMPLETED is reached; and a cancellation is honoured.
 Phases are numbered in their order: the copy, the records, the source.
 */
module MigrationResumption {
  import opened Wrappers
  import opened MigrationModel
  import opened MigrationSafety
  import opened MigrationProtocol

  // ---------------------------------------------------------------- phases

  /** How many phases a status, or the step a failure was blamed on, says are done. */
  function Done(s: Status): nat {
    match s
    case ProcessDone => 1
    case UpdatingDb => 1
    case DbUpdated => 2
    case DeletingSource => 2
    case _ => 0
  }

  function Recorded(t: Task): nat {
    if t.status != Failed then Done(t.status)
    else match t.failedStep
      case None => 0
      case Some(s) => Done(s)
  }

  /** The phase whose work a step is. */
  function PhaseOf(e: TaskEvent): Option<nat> {
    if e.Open? || e.Chunk? || e.Finish? then Some(0)
    else if e.Find? || e.FindNothing? || e.Displace? || e.Move? then Some(1)
    else if e.DeleteSource? then Some(2)
    else None
  }

  /** The step that ends the work of a phase. */
  predicate Closes(e: TaskEvent, k: nat) {
    match k
    case 0 => e.Finish?
    case 1 => e.Move? || e.FindNothing?
    case 2 => e.DeleteSource?
    case _ => false
  }

  // ---------------------------------------------------------------- where a task stands

  function PcRank(pc: Pc): nat {
    match pc
    case Save(ProcessDone) => 1
    case Save(UpdatingDb) => 1
    case Finding => 1
    case Displacing(_) => 1
    case Moving(_) => 1
    case Save(DbUpdated) => 2
    case Save(DeletingSource) => 2
    case Deleting => 2
    case Save(Completed) => 3
    case Failing(at) => Done(at)
    case _ => 0
  }

  /** The number of phases behind a task. */
  function Rank(t: Task): nat {
    match t.stage
    case Idle => Recorded(t)
    case Compensated(start) => Done(start)
    case Planned(start) => Done(start)
    case Queued(start) => Done(start)
    case Running(pc) => PcRank(pc)
  }

  /** No step but a crash can bring it to another phase. */
  predicate Over(recovering: bool, t: Task) {
    || (t.stage.Idle? && !recovering && t.status != Failed)
    || t.stage == Running(SaveQueuedCancel)
  }

  predicate Phase(s: Status) {
    s in {Processing, UpdatingDb, DeletingSource}
  }

  /** What every reachable task has. */
  predicate Orderly(recovering: bool, t: Task) {
    match t.stage
    case Idle => true
    case Compensated(start) => recovering && Phase(start) && !Terminal(t.status)
    case Planned(start) => Phase(start) && t.status in {Pending, Cancelled}
    case Queued(start) => Phase(start) && t.status in {Pending, Cancelled}
    case Running(pc) =>
      && t.status !in {Failed, Completed}
      && (pc.Save? ==> pc.next !in {Pending, Failed}) && (pc.Failing? ==> pc.at != Completed)
      && (pc.Discarding? ==> pc.next in {Failed, Cancelled})
  }

  /** One step of the task: it works on the phase it has reached, and only its last step brings it to the next. */
  lemma StepRanks(recovering: bool, w: World, t: Task, e: TaskEvent)
    requires Orderly(recovering, t) && TaskStep(w, t, e).Some? && recovering == StartupEvent(e)
    requires !SaveOfCompletedFails(t, e)
    ensures Ranks(recovering, t, recovering, TaskStep(w, t, e).value.1, Some(e))
  {
    if WorkerEvent(e) {
      WorkerRanks(recovering, w, t, e);
    } else {
      hide WorkerStep, CompensateWorld;
    }
  }

  lemma WorkerRanks(recovering: bool, w: World, t: Task, e: TaskEvent)
    requires Orderly(recovering, t) && t.stage.Running? && WorkerStep(w, t, t.stage.pc, e).Some? && !recovering
    requires !SaveOfCompletedFails(t, e)
    ensures Ranks(recovering, t, recovering, WorkerStep(w, t, t.stage.pc, e).value.1, Some(e))
  {
    hide *;
    if t.stage.pc.Save? {
      SaveRanks(recovering, w, t, e);
    } else if t.stage.pc.Opening? || t.stage.pc.Copying? || t.stage.pc.Discarding? {
      CopyRanks(recovering, w, t, e);
    } else {
      LaterRanks(recovering, w, t, e);
    }
  }

  lemma SaveRanks(recovering: bool, w: World, t: Task, e: TaskEvent)
    requires Orderly(recovering, t) && t.stage.Running? && WorkerStep(w, t, t.stage.pc, e).Some? && !recovering
    requires !SaveOfCompletedFails(t, e) && t.stage.pc.Save?
    ensures Ranks(recovering, t, recovering, WorkerStep(w, t, t.stage.pc, e).value.1, Some(e))
  {
    hide MoveRecord, TargetFreeFor, CopyStep, DeleteFile, RetryStart, ResumePoint, CompensateWorld;
  }

  lemma CopyRanks(recovering: bool, w: World, t: Task, e: TaskEvent)
    requires Orderly(recovering, t) && t.stage.Running? && WorkerStep(w, t, t.stage.pc, e).Some? && !recovering
    requires t.stage.pc.Opening? || t.stage.pc.Copying? || t.stage.pc.Discarding?
    ensures Ranks(recovering, t, recovering, WorkerStep(w, t, t.stage.pc, e).value.1, Some(e))
  {
    hide MoveRecord, TargetFreeFor, DeleteFile, AfterSave, RetryStart, ResumePoint, CompensateWorld;
  }

  lemma LaterRanks(recovering: bool, w: World, t: Task, e: TaskEvent)
    requires Orderly(recovering, t) && t.stage.Running? && WorkerStep(w, t, t.stage.pc, e).Some? && !recovering
    requires !t.stage.pc.Save? && !t.stage.pc.Opening? && !t.stage.pc.Copying? && !t.stage.pc.Discarding?
    ensures Ranks(recovering, t, recovering, WorkerStep(w, t, t.stage.pc, e).value.1, Some(e))
  {
    hide MoveRecord, CopyStep, TargetFreeFor, DeleteFile, AfterSave, RetryStart, ResumePoint, CompensateWorld;
  }

  /** From `t` to `t'` by a step of its own, or by what happens around it. */
  predicate Ranks(recovering: bool, t: Task, recovering': bool, t': Task, e: Option<TaskEvent>) {
    && Orderly(recovering', t')
    && (Over(recovering, t) ==> Over(recovering', t'))
    && (e.Some? && PhaseOf(e.value).Some? ==> !Over(recovering, t) && PhaseOf(e.value).value == Rank(t))
    && (!Over(recovering', t') ==>
          Rank(t') == Rank(t) || (Rank(t') == Rank(t) + 1 && e.Some? && Closes(e.value, Rank(t))))
    && (t'.status == Completed && t.status != Completed ==> !Over(recovering, t) && Rank(t) == 3)
  }

  function OwnStep(e: Event, id: TaskId): Option<TaskEvent> {
    if e.Act? && e.id == id then Some(e.e) else None
  }

  /** Neither does the process die, nor does the task's save of COMPLETED fail. */
  predicate Quiet(s: State, e: Event, id: TaskId) {
    !e.Crash? && (id in s.tasks && e.Act? && e.id == id ==> !SaveOfCompletedFails(s.tasks[id], e.e))
  }

  predicate QuietRun(s: State, es: seq<Event>, id: TaskId)
    decreases |es|
  {
    es != [] ==> Quiet(s, es[0], id) && Step(s, es[0]).Some? && QuietRun(Step(s, es[0]).value, es[1..], id)
  }

  lemma EventRanks(s: State, e: Event, id: TaskId)
    requires id in s.tasks && Orderly(s.recovering, s.tasks[id]) && Quiet(s, e, id) && Step(s, e).Some?
    ensures var s' := Step(s, e).value;
      id in s'.tasks && Ranks(s.recovering, s.tasks[id], s'.recovering, s'.tasks[id], OwnStep(e, id))
  {
    hide TaskStep;
    if e.Act? && e.id == id {
      StepRanks(s.recovering, s.world, s.tasks[id], e.e);
    }
  }

  // ---------------------------------------------------------------- main results

  /** Between a crash or a failure and the next crash, whatever is restarted or retried. */
  predicate Interrupted(s: State, id: TaskId) {
    id in s.tasks && s.tasks[id].stage.Idle?
  }

  lemma {:induction false} OnlyFromItsRank(s: State, es: seq<Event>, id: TaskId, i: nat)
    requires id in s.tasks && Orderly(s.recovering, s.tasks[id]) && QuietRun(s, es, id)
    requires i < |es| && OwnStep(es[i], id).Some? && PhaseOf(es[i].e).Some?
    ensures !Over(s.recovering, s.tasks[id]) && Rank(s.tasks[id]) <= PhaseOf(es[i].e).value
    decreases |es|
  {
    hide Step, Quiet, Orderly, Over, Rank, PhaseOf;
    EventRanks(s, es[0], id);
    if i > 0 {
      assert es[1..][i - 1] == es[i];
      OnlyFromItsRank(Step(s, es[0]).value, es[1..], id, i - 1);
    }
  }

  /**
   A phase that the persisted status, or the step a failure was blamed on, says is done is not run again by the
   restart or by any retry, until the process dies once more.
   */
  lemma DonePhasesAreNotRepeated(s: State, es: seq<Event>, id: TaskId, e: TaskEvent)
    requires Interrupted(s, id) && QuietRun(s, es, id) && Act(id, e) in es
    ensures PhaseOf(e).Some? ==> PhaseOf(e).value >= Recorded(s.tasks[id])
  {
    var i :| 0 <= i < |es| && es[i] == Act(id, e);
    if PhaseOf(e).Some? {
      OnlyFromItsRank(s, es, id, i);
    }
  }

  /** In a run that goes on to COMPLETED every phase from its rank on is closed. */
  lemma {:induction false} EachIsClosed(s: State, es: seq<Event>, id: TaskId, k: nat) returns (i: nat)
    requires id in s.tasks && Orderly(s.recovering, s.tasks[id]) && QuietRun(s, es, id) && k < 3
    requires Over(s.recovering, s.tasks[id]) || Rank(s.tasks[id]) <= k
    requires s.tasks[id].status != Completed
    requires Run(s, es).Some? && id in Run(s, es).value.tasks && Run(s, es).value.tasks[id].status == Completed
    ensures i < |es| && OwnStep(es[i], id).Some? && Closes(es[i].e, k)
    decreases |es|
  {
    hide Step, Quiet, Orderly, Over, Rank;
    EventRanks(s, es[0], id);
    if OwnStep(es[0], id).Some? && Closes(es[0].e, k) {
      i := 0;
    } else {
      i := EachIsClosed(Step(s, es[0]).value, es[1..], id, k);
      assert es[1..][i] == es[i + 1];
      i := i + 1;
    }
  }

  /** And every phase that is not recorded as done is run to its end before COMPLETED is reached. */
  lemma OtherPhasesAreRun(s: State, es: seq<Event>, id: TaskId, k: nat)
    requires Interrupted(s, id) || (id in s.tasks && s.tasks[id] == NewTask(s.tasks[id].spec))
    requires s.tasks[id].status != Completed && QuietRun(s, es, id)
    requires Run(s, es).Some? && id in Run(s, es).value.tasks && Run(s, es).value.tasks[id].status == Completed
    requires Recorded(s.tasks[id]) <= k < 3
    ensures exists e :: Act(id, e) in es && Closes(e, k)
  {
    var i := EachIsClosed(s, es, id, k);
    assert Act(id, es[i].e) in es && Closes(es[i].e, k);
  }

  // ---------------------------------------------------------------- cancelling

  /** Asked to stop while copying, and nothing has failed since. */
  predicate Stopping(t: Task) {
    || (t.status in {Pending, Cancelled} && t.cancel && t.stage == Running(Save(Processing)))
    || (t.status == Processing && t.cancel && t.stage.Running? && (t.stage.pc.Opening? || t.stage.pc.Copying?))
    || (t.status == Processing && t.stage in {Running(Discarding(Cancelled)), Running(Save(Cancelled))})
    || (t.status == Cancelled && t.stage.Idle?)
  }

  /** The step ends the copy, or something goes wrong. */
  predicate EndsOrBreaks(e: TaskEvent) {
    e.Finish? || e.CopyBreaks? || e.PersistFails?
  }

  lemma StoppingStep(w: World, t: Task, e: TaskEvent)
    requires Stopping(t) && TaskStep(w, t, e).Some? && !StartupEvent(e) && !EndsOrBreaks(e)
    ensures Stopping(TaskStep(w, t, e).value.1) && !e.Chunk?
  {
    hide CompensateWorld, MoveRecord;
  }

  /** No crash, and the copy neither ends nor breaks, nor does a save fail. */
  predicate Undisturbed(es: seq<Event>, id: TaskId) {
    forall e :: e in es ==> !e.Crash? && (OwnStep(e, id).Some? ==> !EndsOrBreaks(e.e))
  }

  lemma {:induction false} StaysStopping(s: State, es: seq<Event>, id: TaskId)
    requires !s.recovering && id in s.tasks && Stopping(s.tasks[id]) && Undisturbed(es, id) && Run(s, es).Some?
    ensures var n := Run(s, es).value; id in n.tasks && Stopping(n.tasks[id])
    ensures forall e :: e in es && OwnStep(e, id).Some? ==> !e.e.Chunk?
    decreases |es|
  {
    hide TaskStep;
    if es != [] {
      assert es[0] in es;
      if OwnStep(es[0], id).Some? {
        StoppingStep(s.world, s.tasks[id], es[0].e);
      }
      assert forall e :: e in es[1..] ==> e in es;
      StaysStopping(Step(s, es[0]).value, es[1..], id);
      assert forall e :: e in es ==> e == es[0] || e in es[1..];
    }
  }

  /**
   A migration can be asked to stop while it copies, or while its worker is about to save PROCESSING; it then
   moves no further chunk, and when its worker lets go of it, it is CANCELLED; unless the copy ran to its end or
   something failed.
   */
  lemma CancelStopsTheCopy(s: State, es: seq<Event>, id: TaskId)
    requires !s.recovering && id in s.tasks && s.tasks[id].stage.Running? && Undisturbed(es, id)
    requires if s.tasks[id].status == Processing then s.tasks[id].stage.pc.Opening? || s.tasks[id].stage.pc.Copying?
             else s.tasks[id].status == Pending && s.tasks[id].stage.pc == Save(Processing)
    ensures Step(s, Act(id, Cancel)).Some?
    ensures var n := Run(Step(s, Act(id, Cancel)).value, es);
      n.Some? ==>
        && (forall e :: e in es && OwnStep(e, id).Some? ==> !e.e.Chunk?)
        && id in n.value.tasks && (n.value.tasks[id].stage.Running? || n.value.tasks[id].status == Cancelled)
  {
    var asked := Step(s, Act(id, Cancel)).value;
    if Run(asked, es).Some? {
      StaysStopping(asked, es, id);
    }
  }

  /** While bytes are left to copy, and the migration keeps its promise, the copy cannot run to its end. */
  lemma NoEndWhileBytesAreLeft(w: World, t: Task)
    requires TaskOk(w, t) && t.stage.Running? && t.stage.pc.Copying? && t.stage.pc.copied < |t.spec.original|
    ensures TaskStep(w, t, Finish).None?
  {
  }

  /** One cancelled before a worker has taken its ticket is settled there and then, and no worker ever touches it. */
  lemma CancelledInTheQueue(s: State, es: seq<Event>, id: TaskId)
    requires !s.recovering && id in s.tasks && s.tasks[id].status == Pending
    requires s.tasks[id].stage.Planned? || s.tasks[id].stage.Queued?
    requires forall e :: e in es ==> !e.Crash?
    ensures Step(s, Act(id, Cancel)).Some?
    ensures var n := Run(Step(s, Act(id, Cancel)).value, es);
      n.Some? ==>
        && (forall e :: e in es && OwnStep(e, id).Some? ==> !WorkerEvent(e.e))
        && id in n.value.tasks && n.value.tasks[id].status == Cancelled
  {
    var asked := Step(s, Act(id, Cancel)).value;
    if Run(asked, es).Some? {
      StaysCancelled(asked, es, id);
    }
  }

  /** A ticket whose task was asked to stop is not worked on: the worker saves CANCELLED and lets go. */
  lemma FlaggedTicketIsCancelled(w: World, t: Task)
    requires t.stage.Queued? && t.cancel && !Terminal(t.status)
    ensures TaskStep(w, t, Dispatch).Some? && TaskStep(w, t, Dispatch).value.0 == w
    ensures var t1 := TaskStep(w, t, Dispatch).value.1;
      && (forall e :: TaskStep(w, t1, e).Some? ==> PhaseOf(e).None?)
      && TaskStep(w, t1, Persist).Some? && TaskStep(w, t1, Persist).value.1.status == Cancelled
      && TaskStep(w, t1, Persist).value.1.stage.Idle?
  {
    hide CopyStep, MoveRecord, CompensateWorld;
  }

  lemma {:induction false} StaysCancelled(s: State, es: seq<Event>, id: TaskId)
    requires !s.recovering && id in s.tasks && s.tasks[id].status == Cancelled && !s.tasks[id].stage.Running?
    requires !s.tasks[id].stage.Compensated? && Run(s, es).Some? && (forall e :: e in es ==> !e.Crash?)
    ensures forall e :: e in es && OwnStep(e, id).Some? ==> !WorkerEvent(e.e)
    ensures var n := Run(s, es).value; id in n.tasks && n.tasks[id].status == Cancelled
    decreases |es|
  {
    hide WorkerStep;
    if es != [] {
      assert es[0] in es;
      assert forall e :: e in es[1..] ==> e in es;
      StaysCancelled(Step(s, es[0]).value, es[1..], id);
      assert forall e :: e in es ==> e == es[0] || e in es[1..];
    }
  }

  /** Nobody has asked it to stop. */
  predicate Unasked(t: Task) {
    && !t.cancel && t.status != Cancelled
    && (t.stage.Running? ==>
          t.stage.pc !in {Discarding(Cancelled), Save(Cancelled), SaveQueuedCancel}
          && (t.stage.pc.Discarding? ==> t.stage.pc.next == Failed))
  }

  lemma UnaskedStep(w: World, t: Task, e: TaskEvent)
    requires Unasked(t) && TaskStep(w, t, e).Some? && !e.Cancel?
    ensures Unasked(TaskStep(w, t, e).value.1)
  {
    hide CompensateWorld, MoveRecord;
  }

  /** And a migration that nobody has asked to stop does not end CANCELLED, whatever breaks, dies or is retried. */
  lemma {:induction false} CancelledOnlyIfAsked(s: State, es: seq<Event>, id: TaskId)
    requires id in s.tasks && Unasked(s.tasks[id]) && Run(s, es).Some? && Act(id, Cancel) !in es
    ensures var n := Run(s, es).value; id in n.tasks && n.tasks[id].status != Cancelled && Unasked(n.tasks[id])
    decreases |es|
  {
    hide TaskStep;
    if es != [] {
      assert es[0] in es;
      if OwnStep(es[0], id).Some? {
        UnaskedStep(s.world, s.tasks[id], es[0].e);
      }
      assert Act(id, Cancel) !in es[1..];
      CancelledOnlyIfAsked(Step(s, es[0]).value, es[1..], id);
    }
  }

  /** Nobody has asked it to stop, or so late that its worker will not look at the request any more. */
  predicate PastStopping(t: Task) {
    || Unasked(t)
    || (t.cancel && !Terminal(t.status) && t.status != Pending && t.stage.Running?
        && match t.stage.pc
           case Opening => false
           case SaveQueuedCancel => false
           case Copying(k) => k == |t.spec.original|
           case Save(next) => next !in {Pending, Processing, Failed, Cancelled}
           case Discarding(next) => next == Failed
           case _ => true)
  }

  lemma PastStoppingStep(w: World, t: Task, e: TaskEvent)
    requires PastStopping(t) && TaskStep(w, t, e).Some? && !e.Cancel? && (Unasked(t) || TaskOk(w, t))
    ensures PastStopping(TaskStep(w, t, e).value.1) && (Unasked(t) ==> Unasked(TaskStep(w, t, e).value.1))
  {
    if Unasked(t) {
      hide TaskStep, TaskOk;
      UnaskedStep(w, t, e);
    } else {
      hide WorkerStep, CompensateWorld, Ready;
      LateRequestIgnored(w, t, e);
    }
  }

  lemma LateRequestIgnored(w: World, t: Task, e: TaskEvent)
    requires PastStopping(t) && !Unasked(t) && WorkerStep(w, t, t.stage.pc, e).Some?
    requires t.status == Processing ==> SourceFull(w, t.spec)
    requires t.stage.pc.Copying? ==> t.status == Processing
    ensures PastStopping(WorkerStep(w, t, t.stage.pc, e).value.1)
  {
    hide MoveRecord, TargetFreeFor, DeleteFile;
  }

  lemma {:induction false} StaysPastStopping(s: State, es: seq<Event>, id: TaskId)
    requires Inv(s) && GoodRun(s, es) && id in s.tasks && PastStopping(s.tasks[id]) && Act(id, Cancel) !in es
    requires Unasked(s.tasks[id]) || id !in s.released
    ensures Run(s, es).Some? && id in Run(s, es).value.tasks && Run(s, es).value.tasks[id].status != Cancelled
    decreases |es|
  {
    hide TaskStep, TaskOk, Assumed, DueTasksApart;
    if es != [] {
      var n := Step(s, es[0]).value;
      assert es[0] in es && Act(id, Cancel) !in es[1..];
      StepKeepsInv(s, es[0]);
      if !Unasked(s.tasks[id]) {
        UnsettledStaysDue(s, es[0], id);
      }
      if OwnStep(es[0], id).Some? {
        PastStoppingStep(s.world, s.tasks[id], es[0].e);
      }
      StaysPastStopping(n, es[1..], id);
    }
  }

  /** A request that comes when every byte is copied is taken, but comes too late: it does not end CANCELLED. */
  lemma CancelComesTooLate(s: State, es: seq<Event>, id: TaskId)
    requires Inv(s) && !s.recovering && id in s.tasks && id !in s.released && s.tasks[id].status == Processing
    requires s.tasks[id].stage in {Running(Copying(|s.tasks[id].spec.original|)), Running(Save(ProcessDone))}
    requires Act(id, Cancel) !in es
    ensures Step(s, Act(id, Cancel)).Some?
    ensures GoodRun(s, [Act(id, Cancel)] + es) ==>
      var n := Run(s, [Act(id, Cancel)] + es);
      n.Some? && id in n.value.tasks && n.value.tasks[id].status != Cancelled
  {
    if GoodRun(s, [Act(id, Cancel)] + es) {
      assert ([Act(id, Cancel)] + es)[1..] == es;
      StepKeepsInv(s, Act(id, Cancel));
      StaysPastStopping(Step(s, Act(id, Cancel)).value, es, id);
    }
  }

  // ---------------------------------------------------------------- a retry that fails

  /**
   A retry whose save fails, or that the indexes refuse, leaves the migration as it was; but it has tidied up before
   that, deleting whatever stands at the target, where the copy is what it would have resumed at.
   */
  lemma FailedRetryHasTidiedUp(s: State, id: TaskId, cleaned: bool)
    requires !s.recovering && id in s.tasks && s.tasks[id].status == Failed && s.tasks[id].stage.Idle?
    ensures Step(s, Act(id, RetryBreaks(cleaned))).Some?
    ensures var n := Step(s, Act(id, RetryBreaks(cleaned))).value;
      && n.tasks == s.tasks && n.world.records == s.world.records
      && forall p :: p in n.world.files <==>
           (p in s.world.files && !(cleaned && p == s.tasks[id].spec.target && Recorded(s.tasks[id]) == 0))
    ensures var n := Step(s, Act(id, RetryBreaks(cleaned))).value;
      forall p :: p in n.world.files ==> n.world.files[p] == s.world.files[p]
  {
    assert s.tasks[id := s.tasks[id]] == s.tasks;
  }
}
