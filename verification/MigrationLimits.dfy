/**
 Where the protocol's assumptions come from: for each, exactly when the code keeps a task's
 promise without it, and a run in which the bytes are lost.
 */
module MigrationLimits {
  import opened Wrappers
  import opened MigrationModel
  import opened MigrationSafety
  import opened MigrationProtocol

  // ---------------------------------------------------------------- exact conditions

  /** A1 is assumed of every migration but `id`. */
  predicate AssumedBut(s: State, e: Event, id: TaskId) {
    match e
    case Create(u, spec) => (u == id || spec.source != spec.target) && KeepsClear(s, u, spec, false)
    case _ => Assumed(s, e)
  }

  predicate GoodRunBut(s: State, es: seq<Event>, id: TaskId)
    decreases |es|
  {
    es != [] ==> AssumedBut(s, es[0], id) && Step(s, es[0]).Some? && GoodRunBut(Step(s, es[0]).value, es[1..], id)
  }

  /** A1, A3 and A4, but not A2. */
  predicate AssumedButA2(s: State, e: Event) {
    match e
    case Create(_, spec) => spec.source != spec.target
    case Act(id, te) => id in s.tasks ==> !SaveOfCompletedFails(s.tasks[id], te)
    case _ => Assumed(s, e)
  }

  predicate GoodRunButA2(s: State, es: seq<Event>)
    decreases |es|
  {
    es != [] ==> AssumedButA2(s, es[0]) && Step(s, es[0]).Some? && GoodRunButA2(Step(s, es[0]).value, es[1..])
  }

  lemma StepKeepsSpecs(s: State, e: Event, id: TaskId)
    requires Step(s, e).Some? && id in s.tasks
    ensures id in Step(s, e).value.tasks && Step(s, e).value.tasks[id].spec == s.tasks[id].spec
  {
    hide TaskStep;
    if e.Act? {
      StepKeepsSpec(s.world, s.tasks[e.id], e.e);
    }
  }

  lemma {:induction false} RunKeepsSpecs(s: State, es: seq<Event>, id: TaskId)
    requires Run(s, es).Some? && id in s.tasks
    ensures id in Run(s, es).value.tasks && Run(s, es).value.tasks[id].spec == s.tasks[id].spec
    decreases |es|
  {
    hide Step;
    if es != [] {
      StepKeepsSpecs(s, es[0], id);
      RunKeepsSpecs(Step(s, es[0]).value, es[1..], id);
    }
  }

  /** When the migration turns out to have two paths, nothing was assumed less. */
  lemma {:induction false} TwoPathsMakeItGood(s: State, es: seq<Event>, id: TaskId)
    requires GoodRunBut(s, es, id) && Run(s, es).Some? && id in Run(s, es).value.tasks
    requires var spec := Run(s, es).value.tasks[id].spec; spec.source != spec.target
    ensures GoodRun(s, es)
    decreases |es|
  {
    if es != [] {
      var s1 := Step(s, es[0]).value;
      if es[0].Create? && es[0].newId == id {
        RunKeepsSpecs(s1, es[1..], id);
      }
      hide Step;
      TwoPathsMakeItGood(s1, es[1..], id);
    }
  }

  /**
   A1 is exact: a migration that has deleted its source and completed has kept the bytes if and only if its
   two paths differ, on either kind of storage and whatever the size of the file.
   */
  lemma CompletedKeepsBytesIff(s: State, es: seq<Event>, id: TaskId)
    requires Init(s) && GoodRunBut(s, es, id) && Run(s, es).Some?
    requires var m := Run(s, es).value; id in m.tasks && id !in m.released
    requires Run(Run(s, es).value, [Act(id, DeleteSource(true)), Act(id, Persist)]).Some?
    ensures var n := Run(Run(s, es).value, [Act(id, DeleteSource(true)), Act(id, Persist)]).value;
      && id in n.tasks && n.tasks[id].status == Completed
      && (DataSafe(n.world, n.tasks[id].spec) <==> n.tasks[id].spec.source != n.tasks[id].spec.target)
  {
    var m := Run(s, es).value;
    var last := [Act(id, DeleteSource(true)), Act(id, Persist)];
    RunKeepsSpecs(m, last, id);
    if m.tasks[id].spec.source != m.tasks[id].spec.target {
      TwoPathsMakeItGood(s, es, id);
      RunKeepsInv(s, es);
      PromisedIs(m, id);
      LastStepsKeepOk(m, id);
    } else {
      LastStepsDelete(m, id);
    }
  }

  lemma PromisedIs(s: State, id: TaskId)
    requires Inv(s) && id in s.tasks && id !in s.released
    ensures TaskOk(s.world, s.tasks[id])
  {
  }

  lemma LastSteps(m: State, id: TaskId) returns (m1: State, n: State)
    requires Run(m, [Act(id, DeleteSource(true)), Act(id, Persist)]).Some?
    ensures Step(m, Act(id, DeleteSource(true))) == Some(m1) && Step(m1, Act(id, Persist)) == Some(n)
    ensures Run(m, [Act(id, DeleteSource(true)), Act(id, Persist)]) == Some(n)
  {
    hide Step;
    var es := [Act(id, DeleteSource(true)), Act(id, Persist)];
    m1 := Step(m, es[0]).value;
    assert es[1..] == [es[1]] && es[1..][1..] == [];
    assert Run(m1, es[1..]).Some?;
    n := Step(m1, es[1]).value;
    assert Run(n, []) == Some(n);
  }

  lemma LastStepsKeepOk(m: State, id: TaskId)
    requires Run(m, [Act(id, DeleteSource(true)), Act(id, Persist)]).Some?
    requires id in m.tasks && TaskOk(m.world, m.tasks[id])
    ensures var n := Run(m, [Act(id, DeleteSource(true)), Act(id, Persist)]).value;
      id in n.tasks && n.tasks[id].status == Completed && DataSafe(n.world, n.tasks[id].spec)
  {
    hide Run, TaskOk;
    var m1, n := LastSteps(m, id);
    StepKeepsOk(m.world, m.tasks[id], DeleteSource(true));
    StepKeepsOk(m1.world, m1.tasks[id], Persist);
    OkIsSafe(n.world, n.tasks[id]);
  }

  lemma LastStepsDelete(m: State, id: TaskId)
    requires Run(m, [Act(id, DeleteSource(true)), Act(id, Persist)]).Some?
    requires id in m.tasks && m.tasks[id].spec.source == m.tasks[id].spec.target
    ensures var n := Run(m, [Act(id, DeleteSource(true)), Act(id, Persist)]).value;
      id in n.tasks && n.tasks[id].status == Completed && !DataSafe(n.world, n.tasks[id].spec)
  {
    hide Run;
    var m1, n := LastSteps(m, id);
  }

  /** A1 at its first step: opening a local target truncates it; the source survives exactly when it is another file. */
  lemma OpenKeepsBytesIff(w: World, t: Task)
    requires SourceFull(w, t.spec) && t.stage == Running(Opening) && !t.spec.staged
    ensures DataSafe(TaskStep(w, t, Open).value.0, t.spec)
            <==> t.spec.source != t.spec.target || t.spec.original == []
  {
  }

  /**
   A3: a restart tidies up after the persisted status.  For a task whose promise holds, the tidied
   task keeps it exactly when it does not read PENDING with its source gone.
   */
  lemma RestartKeepsPromiseIff(w: World, t: Task)
    requires TaskOk(w, t) && !Terminal(t.status)
    ensures TaskStep(w, Release(t), Compensate(true)).Some?
    ensures var n := TaskStep(w, Release(t), Compensate(true)).value;
      && (TaskOk(n.0, n.1) <==> CrashForgivable(w, t))
      && (DataSafe(n.0, t.spec) <==> CrashForgivable(w, t))
  {
    CrashKeepsOk(w, t);
    if CrashForgivable(w, t) {
      StepKeepsOk(w, Release(t), Compensate(true));
      var n := TaskStep(w, Release(t), Compensate(true)).value;
      OkIsSafe(n.0, n.1);
    }
  }

  /** The three steps that follow a failed save: it fails, the failure is recorded, the user retries. */
  function FailSaveThenRetry(w: World, t: Task): Option<(World, Task)> {
    TaskRun(w, t, [PersistFails, RecordFailure, Retry(true)])
  }

  /**
   A4: of all the status saves, only COMPLETED may not fail.  Its failure is blamed on the copy, so
   a retry deletes the target, which loses the bytes exactly when the source is already deleted.
   */
  lemma FailedSaveKeepsBytesIff(w: World, t: Task, next: Status)
    requires TaskOk(w, t) && t.stage == Running(Save(next))
    ensures FailSaveThenRetry(w, t).Some?
    ensures DataSafe(FailSaveThenRetry(w, t).value.0, t.spec)
            <==> (next == Completed ==> SourceFull(w, t.spec))
  {
    var t1 := Go(t, Failing(next));
    var t2 := Release(t1.(status := Failed, failedStep := Some(BlamedStep(next))));
    var n := TaskStep(w, t2, Retry(true)).value;
    TaskRun3(w, t, PersistFails, RecordFailure, Retry(true), (w, t1), (w, t2), n);
    if next != Completed {
      StepKeepsOk(w, t, PersistFails);
      StepKeepsOk(w, t1, RecordFailure);
      StepKeepsOk(w, t2, Retry(true));
      OkIsSafe(n.0, n.1);
    }
  }

  lemma TaskRun3(w: World, t: Task, a: TaskEvent, b: TaskEvent, c: TaskEvent,
                 na: (World, Task), nb: (World, Task), nc: (World, Task))
    requires TaskStep(w, t, a) == Some(na)
    requires TaskStep(na.0, na.1, b) == Some(nb)
    requires TaskStep(nb.0, nb.1, c) == Some(nc)
    ensures TaskRun(w, t, [a, b, c]) == Some(nc)
  {
    assert [a, b, c][1..] == [b, c] && [b, c][1..] == [c] && [c][1..] == [];
    assert TaskRun(nc.0, nc.1, []) == Some(nc);
    assert TaskRun(nb.0, nb.1, [c]) == Some(nc);
    assert TaskRun(na.0, na.1, [b, c]) == Some(nc);
  }

  /**
   A retry does not look at the files.  Whatever has happened since the task failed, the retried
   task keeps its promise exactly when the phase it resumes at finds what that phase needs.
   */
  lemma RetryKeepsPromiseIff(w: World, t: Task, cleaned: bool)
    requires t.status == Failed && t.stage.Idle? && t.spec.source != t.spec.target
    requires RetryStart(t.failedStep) in {Processing, UpdatingDb, DeletingSource}
    ensures TaskStep(w, t, Retry(cleaned)).Some?
    ensures var n := TaskStep(w, t, Retry(cleaned)).value;
      && n.1.status == Pending && n.1.failedStep == None
      && (TaskOk(n.0, n.1) <==> Ready(w, t.spec, RetryStart(t.failedStep)))
      && (DataSafe(n.0, t.spec) <==>
            if cleaned && RetryStart(t.failedStep) == Processing then SourceFull(w, t.spec) else DataSafe(w, t.spec))
  {
    if Ready(w, t.spec, RetryStart(t.failedStep)) {
      StepKeepsOk(w, t, Retry(cleaned));
    }
  }

  // ---------------------------------------------------------------- witness runs

  /** Two catalogued files under distinct paths; the third path is free. */
  datatype Setting = Setting(a: Path, b: Path, c: Path, film: Bytes, other: Bytes) {
    predicate Distinct() {
      a != b && b != c && a != c
    }

    predicate Valid() {
      Distinct() && film != [] && other != []
    }

    function Start(): State {
      State(World(map[a := film, b := other], map[a := Record(1, "local"), b := Record(2, "local")]),
            map[], false, {})
    }

    function Mover(source: Path, target: Path): Spec {
      Spec(source, target, "archive", true, false, if source == a then film else other)
    }

    /** Task 0 on the way from `a` to `c`, with the world as given. */
    function Moving(files: map<Path, Bytes>, records: map<Path, Record>, status: Status, next: Status): State {
      State(World(files, records),
            map[0 := Task(Mover(a, c), status, None, Running(Save(next)), false)], false, {})
    }
  }

  /** `es` is a run of the code, if not of the assumptions. */
  predicate Happens(x: Setting, es: seq<Event>, s: State) {
    Run(x.Start(), es) == Some(s)
  }

  lemma {:induction false} RunAppend(s: State, es: seq<Event>, e: Event)
    requires Run(s, es).Some? && Step(Run(s, es).value, e).Some?
    ensures Run(s, es + [e]) == Step(Run(s, es).value, e)
    ensures GoodRun(s, es) && Assumed(Run(s, es).value, e) ==> GoodRun(s, es + [e])
    ensures GoodRunButA2(s, es) && AssumedButA2(Run(s, es).value, e) ==> GoodRunButA2(s, es + [e])
    decreases |es|
  {
    hide Step, Assumed, AssumedButA2;
    if es == [] {
      assert (es + [e])[1..] == [];
      assert GoodRun(Step(s, e).value, []) && GoodRunButA2(Step(s, e).value, []);
    } else {
      assert (es + [e])[1..] == es[1..] + [e];
      RunAppend(Step(s, es[0]).value, es[1..], e);
    }
  }

  lemma Next(x: Setting, es: seq<Event>, s: State, e: Event) returns (es': seq<Event>, s': State)
    requires Happens(x, es, s) && Step(s, e).Some?
    ensures es' == es + [e] && Happens(x, es', s') && Step(s, e) == Some(s')
    ensures GoodRun(x.Start(), es) && Assumed(s, e) ==> GoodRun(x.Start(), es')
    ensures GoodRunButA2(x.Start(), es) && AssumedButA2(s, e) ==> GoodRunButA2(x.Start(), es')
  {
    RunAppend(x.Start(), es, e);
    es', s' := es + [e], Step(s, e).value;
  }

  /** The same for a step of one task, with the next state spelled out. */
  lemma Do(x: Setting, es: seq<Event>, s: State, id: TaskId, e: TaskEvent)
      returns (es': seq<Event>, s': State)
    requires Happens(x, es, s) && id in s.tasks && s.recovering == StartupEvent(e)
    requires e.Retry? ==> IndexReadmits(s, id)
    requires TaskStep(s.world, s.tasks[id], e).Some?
    ensures es' == es + [Act(id, e)] && Happens(x, es', s')
    ensures GoodRun(x.Start(), es) && s.tasks.Keys == {id} && !SaveOfCompletedFails(s.tasks[id], e) ==>
      GoodRun(x.Start(), es')
    ensures GoodRunButA2(x.Start(), es) && !SaveOfCompletedFails(s.tasks[id], e) ==> GoodRunButA2(x.Start(), es')
    ensures var n := TaskStep(s.world, s.tasks[id], e).value;
      s' == s.(world := n.0, tasks := s.tasks[id := n.1])
  {
    es', s' := Next(x, es, s, Act(id, e));
  }

  lemma Admitted(x: Setting, spec: Spec) returns (es: seq<Event>, s: State)
    requires Creatable(x.Start(), 0, spec)
    ensures Happens(x, es, s)
    ensures spec.source != spec.target ==> GoodRun(x.Start(), es)
    ensures s == x.Start().(tasks := map[0 := NewTask(spec)])
  {
    es, s := [], x.Start();
    es, s := Next(x, es, s, Create(0, spec));
  }

  /** A fresh task 0, submitted, dispatched and about to open its target. */
  lemma Opened(x: Setting, spec: Spec) returns (es: seq<Event>, s: State)
    requires Creatable(x.Start(), 0, spec)
    ensures Happens(x, es, s)
    ensures spec.source != spec.target ==> GoodRun(x.Start(), es)
    ensures s == x.Start().(tasks := map[0 := Task(spec, Processing, None, Running(Opening), false)])
  {
    es, s := Admitted(x, spec);
    hide GoodRun, GoodRunButA2, Run, Happens, Step, Assumed;
    es, s := Do(x, es, s, 0, Submit);
    es, s := Do(x, es, s, 0, Dispatch);
    es, s := Do(x, es, s, 0, Persist);
  }

  /** The migration of `a` onto itself, on either kind of storage. */
  function Onto(x: Setting, staged: bool): Spec {
    Spec(x.a, x.a, "archive", true, staged, x.film)
  }

  lemma OpenedOntoItself(x: Setting, staged: bool) returns (es: seq<Event>, s: State)
    requires x.Distinct()
    ensures Happens(x, es, s) && s.world.records == x.Start().world.records && !s.recovering && s.released == {}
    ensures s.tasks == map[0 := Task(Onto(x, staged), Processing, None, Running(Copying(0)), false)]
    ensures x.a in s.world.files && s.world.files[x.a] == if staged then x.film else []
  {
    hide Run, Happens, Step, Assumed, GoodRun, GoodRunButA2;
    es, s := Opened(x, Onto(x, staged));
    es, s := Do(x, es, s, 0, Open);
  }

  /** Task 0 has copied `a` onto itself: a local file was truncated first, an object replaced by itself. */
  lemma CopiedOntoItself(x: Setting, staged: bool) returns (es: seq<Event>, s: State)
    requires x.Distinct()
    ensures Happens(x, es, s) && s.world.records == x.Start().world.records && !s.recovering && s.released == {}
    ensures s.tasks == map[0 := Task(Onto(x, staged), Processing, None, Running(Save(ProcessDone)), false)]
    ensures x.a in s.world.files
  {
    hide Run, Happens, Step, Assumed, GoodRun, GoodRunButA2;
    es, s := OpenedOntoItself(x, staged);
    if staged && x.film != [] {
      es, s := Do(x, es, s, 0, Chunk(|x.film|));
    }
    es, s := Do(x, es, s, 0, Finish);
  }

  lemma RepointedOntoItself(x: Setting, staged: bool) returns (es: seq<Event>, s: State)
    requires x.Distinct()
    ensures Happens(x, es, s) && !s.recovering && s.released == {} && x.a in s.world.files
    ensures s.tasks == map[0 := Task(Onto(x, staged), UpdatingDb, None, Running(Save(DbUpdated)), false)]
  {
    hide Run, Happens, Step, Assumed, GoodRun, GoodRunButA2;
    es, s := CopiedOntoItself(x, staged);
    es, s := Do(x, es, s, 0, Persist);
    es, s := Do(x, es, s, 0, Persist);
    es, s := Do(x, es, s, 0, Find);
    es, s := Do(x, es, s, 0, Displace);
    es, s := Do(x, es, s, 0, Move);
  }

  /** Without A1: a file moved onto itself, local or in an object store, is gone when the task completes. */
  lemma WitnessSameFile(x: Setting, staged: bool) returns (es: seq<Event>, s: State)
    requires x.Distinct()
    ensures Happens(x, es, s) && 0 in s.tasks && s.released == {}
    ensures s.tasks[0].spec == Onto(x, staged) && s.tasks[0].status == Completed
    ensures x.a !in s.world.files && !DataSafe(s.world, s.tasks[0].spec)
  {
    hide Run, Happens, Step, Assumed, GoodRun, GoodRunButA2;
    es, s := RepointedOntoItself(x, staged);
    es, s := Do(x, es, s, 0, Persist);
    es, s := Do(x, es, s, 0, Persist);
    es, s := Do(x, es, s, 0, DeleteSource(true));
    es, s := Do(x, es, s, 0, Persist);
  }

  /** Task 0 is to move `b`; task 1, admitted beside it, is to overwrite `b`. */
  lemma BothAdmitted(x: Setting) returns (es: seq<Event>, s: State)
    requires x.Valid()
    ensures Happens(x, es, s) && GoodRunButA2(x.Start(), es)
    ensures s == x.Start().(tasks := map[0 := NewTask(x.Mover(x.b, x.c)), 1 := NewTask(x.Mover(x.a, x.b))])
  {
    es, s := [], x.Start();
    es, s := Next(x, es, s, Create(0, x.Mover(x.b, x.c)));
    es, s := Next(x, es, s, Create(1, x.Mover(x.a, x.b)));
  }

  /** Without A2: the indexes let one task write over the file another is about to move. */
  lemma WitnessSourceReusedAsTarget(x: Setting) returns (es: seq<Event>, s: State)
    requires x.Valid()
    ensures Happens(x, es, s) && GoodRunButA2(x.Start(), es) && 0 in s.tasks && s.released == {}
    ensures !Terminal(s.tasks[0].status) && !DataSafe(s.world, s.tasks[0].spec)
  {
    hide GoodRun, GoodRunButA2, Run, Happens, Step, Assumed;
    es, s := BothAdmitted(x);
    es, s := Do(x, es, s, 1, Submit);
    es, s := Do(x, es, s, 1, Dispatch);
    es, s := Do(x, es, s, 1, Persist);
    es, s := Do(x, es, s, 1, Open);
  }

  /** Task 0 has written all of `a` to `c`, in one chunk. */
  lemma Written(x: Setting) returns (es: seq<Event>, s: State)
    requires x.Valid()
    ensures Happens(x, es, s) && GoodRun(x.Start(), es)
    ensures var m := x.Moving(x.Start().world.files[x.c := x.film], x.Start().world.records, Processing, ProcessDone);
      s == m.(tasks := map[0 := Go(m.tasks[0], Copying(|x.film|))])
  {
    hide GoodRun, GoodRunButA2, Run, Happens, Step, Assumed;
    es, s := Opened(x, x.Mover(x.a, x.c));
    es, s := Do(x, es, s, 0, Open);
    assert s.world == World(x.Start().world.files[x.c := []], x.Start().world.records);
    assert [] + x.film[0..0 + |x.film|] == x.film;
    es, s := Do(x, es, s, 0, Chunk(|x.film|));
  }

  /** Task 0 has copied `a` to `c`. */
  lemma Copied(x: Setting) returns (es: seq<Event>, s: State)
    requires x.Valid()
    ensures Happens(x, es, s) && GoodRun(x.Start(), es)
    ensures s == x.Moving(x.Start().world.files[x.c := x.film], x.Start().world.records, Processing, ProcessDone)
  {
    hide GoodRun, GoodRunButA2, Run, Happens, Step, Assumed;
    es, s := Written(x);
    es, s := Do(x, es, s, 0, Finish);
  }

  function Shelf(x: Setting): map<Path, Record> {
    map[x.b := Record(2, "local"), x.c := Record(1, "archive")]
  }

  /** Task 0 has found the record and is about to move it. */
  lemma RecordFound(x: Setting) returns (es: seq<Event>, s: State)
    requires x.Valid()
    ensures Happens(x, es, s) && GoodRun(x.Start(), es)
    ensures var m := x.Moving(x.Start().world.files[x.c := x.film], x.Start().world.records, UpdatingDb, ProcessDone);
      s == m.(tasks := map[0 := Go(m.tasks[0], Displacing(1))])
  {
    hide GoodRun, GoodRunButA2, Run, Happens, Step, Assumed;
    es, s := Copied(x);
    es, s := Do(x, es, s, 0, Persist);
    es, s := Do(x, es, s, 0, Persist);
    es, s := Do(x, es, s, 0, Find);
  }

  /** Task 0 has moved the record. */
  lemma Repointed(x: Setting) returns (es: seq<Event>, s: State)
    requires x.Valid()
    ensures Happens(x, es, s) && GoodRun(x.Start(), es)
    ensures s == x.Moving(x.Start().world.files[x.c := x.film], Shelf(x), UpdatingDb, DbUpdated)
  {
    hide GoodRun, GoodRunButA2, Run, Happens, Step, Assumed;
    es, s := RecordFound(x);
    es, s := Do(x, es, s, 0, Displace);
    es, s := Do(x, es, s, 0, Move);
  }

  /** Task 0 is about to delete the source. */
  lemma AboutToDelete(x: Setting) returns (es: seq<Event>, s: State)
    requires x.Valid()
    ensures Happens(x, es, s)
    ensures var m := x.Moving(x.Start().world.files[x.c := x.film], Shelf(x), DeletingSource, DbUpdated);
      s == m.(tasks := map[0 := Go(m.tasks[0], Deleting)])
  {
    hide GoodRun, GoodRunButA2, Run, Happens, Step, Assumed;
    es, s := Repointed(x);
    es, s := Do(x, es, s, 0, Persist);
    es, s := Do(x, es, s, 0, Persist);
  }

  /** Task 0 has deleted the source; only the save of COMPLETED is left. */
  lemma SourceDeleted(x: Setting) returns (es: seq<Event>, s: State)
    requires x.Valid()
    ensures Happens(x, es, s)
    ensures s == x.Moving(map[x.b := x.other, x.c := x.film], Shelf(x), DeletingSource, Completed)
  {
    hide GoodRun, GoodRunButA2, Run, Happens, Step, Assumed;
    es, s := AboutToDelete(x);
    es, s := Do(x, es, s, 0, DeleteSource(true));
  }

  /** The process dies there. */
  lemma CrashedOnce(x: Setting) returns (es: seq<Event>, s: State)
    requires x.Valid()
    ensures Happens(x, es, s)
    ensures s == State(World(map[x.b := x.other, x.c := x.film], Shelf(x)),
      map[0 := Task(x.Mover(x.a, x.c), DeletingSource, None, Idle, false)], true, {})
  {
    hide GoodRun, GoodRunButA2, Run, Happens;
    es, s := SourceDeleted(x);
    es, s := Next(x, es, s, Crash);
  }

  /** One crash is harmless: recovery plans to resume at the deletion. */
  lemma PlannedAgain(x: Setting) returns (es: seq<Event>, s: State)
    requires x.Valid()
    ensures Happens(x, es, s)
    ensures s == State(World(map[x.b := x.other, x.c := x.film], Shelf(x)),
      map[0 := Task(x.Mover(x.a, x.c), Pending, None, Planned(DeletingSource), false)], true, {})
  {
    hide GoodRun, GoodRunButA2, Run, Happens, Step, Assumed;
    es, s := CrashedOnce(x);
    es, s := Do(x, es, s, 0, Compensate(true));
    es, s := Do(x, es, s, 0, Plan);
  }

  /** Without A3: a second crash finds PENDING, restarts at the copy and deletes the only copy. */
  lemma WitnessSecondCrash(x: Setting) returns (es: seq<Event>, s: State)
    requires x.Valid()
    ensures Happens(x, es, s) && 0 in s.tasks && s.released == {}
    ensures !DataSafe(s.world, s.tasks[0].spec)
  {
    hide GoodRun, GoodRunButA2, Run, Happens, Assumed;
    es, s := PlannedAgain(x);
    es, s := Next(x, es, s, Crash);
    es, s := Do(x, es, s, 0, Compensate(true));
  }

  lemma FailureBlamedOnCopy(x: Setting) returns (es: seq<Event>, s: State)
    requires x.Valid()
    ensures Happens(x, es, s)
    ensures s == State(World(map[x.b := x.other, x.c := x.film], Shelf(x)),
      map[0 := Task(x.Mover(x.a, x.c), Failed, Some(Processing), Idle, false)], false, {})
  {
    hide GoodRun, GoodRunButA2, Run, Happens, Step, Assumed;
    es, s := SourceDeleted(x);
    es, s := Do(x, es, s, 0, PersistFails);
    es, s := Do(x, es, s, 0, RecordFailure);
  }

  /** Without A4: the failed save of COMPLETED is blamed on the copy, and a retry deletes the only copy. */
  lemma WitnessCompletedSaveFails(x: Setting) returns (es: seq<Event>, s: State)
    requires x.Valid()
    ensures Happens(x, es, s) && 0 in s.tasks && s.released == {}
    ensures !DataSafe(s.world, s.tasks[0].spec)
  {
    hide GoodRun, GoodRunButA2, Run, Happens, Step, Assumed;
    es, s := FailureBlamedOnCopy(x);
    es, s := Do(x, es, s, 0, Retry(true));
  }

  // ---------------------------------------------------------------- whose record the run moves

  /** A crash after the record was moved, and the restart: task 0 is to update the database again. */
  lemma ThrownBack(x: Setting) returns (es: seq<Event>, s: State)
    requires x.Valid()
    ensures Happens(x, es, s) && GoodRun(x.Start(), es)
    ensures s == State(World(x.Start().world.files[x.c := x.film], Shelf(x)),
      map[0 := Task(x.Mover(x.a, x.c), Pending, None, Planned(UpdatingDb), false)], false, {})
  {
    hide GoodRun, GoodRunButA2, Run, Happens;
    es, s := Repointed(x);
    es, s := Next(x, es, s, Crash);
    assert s.tasks == map[0 := Task(x.Mover(x.a, x.c), UpdatingDb, None, Idle, false)];
    es, s := Do(x, es, s, 0, Compensate(true));
    es, s := Do(x, es, s, 0, Plan);
    es, s := Next(x, es, s, Recovered);
  }

  /** The save of UPDATING_DB fails, and with it the task. */
  lemma FailedOver(x: Setting) returns (es: seq<Event>, s: State)
    requires x.Valid()
    ensures Happens(x, es, s) && GoodRun(x.Start(), es)
    ensures s == State(World(x.Start().world.files[x.c := x.film], Shelf(x)),
      map[0 := Task(x.Mover(x.a, x.c), Failed, Some(UpdatingDb), Idle, false)], false, {})
  {
    hide GoodRun, GoodRunButA2, Run, Happens, Step, Assumed;
    es, s := ThrownBack(x);
    es, s := Do(x, es, s, 0, Submit);
    es, s := Do(x, es, s, 0, Dispatch);
    es, s := Do(x, es, s, 0, PersistFails);
    es, s := Do(x, es, s, 0, RecordFailure);
  }

  /** A browse finds the source file, which nobody locks, and registers it; then the task is retried. */
  lemma RivalRegistered(x: Setting) returns (es: seq<Event>, s: State)
    requires x.Valid()
    ensures Happens(x, es, s) && GoodRun(x.Start(), es)
    ensures s == State(World(x.Start().world.files[x.c := x.film], Shelf(x)[x.a := Record(9, "local")]),
      map[0 := Task(x.Mover(x.a, x.c), Pending, None, Planned(UpdatingDb), false)], false, {})
  {
    hide GoodRun, GoodRunButA2, Run, Happens;
    es, s := FailedOver(x);
    es, s := Next(x, es, s, Register(x.a, Record(9, "local")));
    hide Step, Assumed;
    es, s := Do(x, es, s, 0, Retry(true));
  }

  /** The retried task finds the rival in place of its own record. */
  lemma RivalFound(x: Setting) returns (es: seq<Event>, s: State)
    requires x.Valid()
    ensures Happens(x, es, s) && GoodRun(x.Start(), es)
    ensures s == State(World(x.Start().world.files[x.c := x.film], Shelf(x)[x.a := Record(9, "local")]),
      map[0 := Task(x.Mover(x.a, x.c), UpdatingDb, None, Running(Displacing(9)), false)], false, {})
  {
    hide GoodRun, GoodRunButA2, Run, Happens, Step, Assumed;
    es, s := RivalRegistered(x);
    es, s := Do(x, es, s, 0, Submit);
    es, s := Do(x, es, s, 0, Dispatch);
    es, s := Do(x, es, s, 0, Persist);
    es, s := Do(x, es, s, 0, Find);
  }

  /** The task's own record, already at the target, is dropped as conflicting with the rival. */
  lemma OwnRecordDropped(x: Setting) returns (es: seq<Event>, s: State)
    requires x.Valid()
    ensures Happens(x, es, s) && GoodRun(x.Start(), es)
    ensures s == State(World(x.Start().world.files[x.c := x.film],
                             map[x.b := Record(2, "local"), x.a := Record(9, "local")]),
      map[0 := Task(x.Mover(x.a, x.c), UpdatingDb, None, Running(Moving(9)), false)], false, {})
  {
    hide GoodRun, GoodRunButA2, Run, Happens, Step, Assumed;
    es, s := RivalFound(x);
    es, s := Do(x, es, s, 0, Displace);
  }

  /**
   Under A1 to A4: the migrated video's record, already at the target, is dropped as conflicting, and the
   rival's stands there when DB_UPDATED is saved.  No migration has been taken over.
   */
  lemma WitnessRivalTakesTheRecord(x: Setting) returns (es: seq<Event>, s: State)
    requires x.Valid()
    ensures Happens(x, es, s) && GoodRun(x.Start(), es) && 0 in s.tasks && s.released == {}
    ensures x.Start().world.records[x.a] == Record(1, "local") && s.tasks[0].spec == x.Mover(x.a, x.c)
    ensures s.tasks[0].status == DbUpdated && x.c in s.world.records && s.world.records[x.c] == Record(9, "archive")
    ensures forall p :: p in s.world.records ==> s.world.records[p].id != 1
  {
    hide GoodRun, GoodRunButA2, Run, Happens, Step, Assumed;
    es, s := OwnRecordDropped(x);
    es, s := Do(x, es, s, 0, Move);
    assert s.world.records == map[x.b := Record(2, "local"), x.c := Record(9, "archive")];
    es, s := Do(x, es, s, 0, Persist);
  }
}
