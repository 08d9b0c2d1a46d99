/**
 Everybody settles.  Between crashes, retries and new migrations, the steps that bring migrations forward
 (submitting one, taking its ticket, working on it) run out, and when none is open every migration is settled.
 */
module MigrationSettling {
  import opened Wrappers
  import opened MigrationModel
  import opened MigrationSafety
  import opened MigrationRuntime
  import P = MigrationProtocol
  import L = MigrationLiveness
  import R = TaskRunner

  // ---------------------------------------------------------------- the measure

  function BytesAt(w: World, p: Path): nat {
    if p in w.files then |w.files[p]| else 0
  }

  /** The moves a task has left at most: its submission, its ticket, its phases, its bytes. */
  function Left(w: World, t: Task): nat {
    match t.stage
    case Idle => 0
    case Queued(_) => BytesAt(w, t.spec.source) + 16
    case Running(pc) => StepsLeftAt(pc, BytesAt(w, t.spec.source))
    case _ => BytesAt(w, t.spec.source) + 17
  }

  ghost function Sum(f: map<TaskId, nat>): nat
    decreases |f|
  {
    if f == map[] then 0
    else
      var k :| k in f;
      assert (f - {k}).Keys == f.Keys - {k};
      f[k] + Sum(f - {k})
  }

  lemma {:induction false} SumSplits(f: map<TaskId, nat>, k: TaskId)
    requires k in f
    ensures Sum(f) == f[k] + Sum(f - {k})
    decreases |f|
  {
    var j :| j in f && Sum(f) == f[j] + Sum(f - {j});
    if j != k {
      assert (f - {j}).Keys == f.Keys - {j} && (f - {k}).Keys == f.Keys - {k};
      SumSplits(f - {j}, k);
      SumSplits(f - {k}, j);
      assert f - {j} - {k} == f - {k} - {j};
    }
  }

  /** Every entry at most as before. */
  predicate Below(g: map<TaskId, nat>, f: map<TaskId, nat>) {
    g.Keys == f.Keys && forall k :: k in f ==> g[k] <= f[k]
  }

  lemma {:induction false} SumBelow(g: map<TaskId, nat>, f: map<TaskId, nat>)
    requires Below(g, f)
    ensures Sum(g) <= Sum(f)
    decreases |f|
  {
    if f == map[] {
      assert g == map[];
    } else {
      var k :| k in f;
      SumSplits(f, k);
      SumSplits(g, k);
      assert (f - {k}).Keys == f.Keys - {k};
      SumBelow(g - {k}, f - {k});
    }
  }

  lemma SumStrictlyBelow(g: map<TaskId, nat>, f: map<TaskId, nat>, k: TaskId)
    requires Below(g, f) && k in f && g[k] < f[k]
    ensures Sum(g) < Sum(f)
  {
    SumSplits(f, k);
    SumSplits(g, k);
    SumBelow(g - {k}, f - {k});
  }

  function Lefts(p: P.State): map<TaskId, nat> {
    map id | id in p.tasks :: Left(p.world, p.tasks[id])
  }

  /** Phases left, bytes left and tickets left, over all migrations. */
  ghost function Measure(p: P.State): nat {
    Sum(Lefts(p))
  }

  // ---------------------------------------------------------------- what the assumptions keep apart

  /** No migration moves a file onto itself, and no two in progress share a path. */
  predicate Sound(p: P.State) {
    && (forall id :: id in p.tasks ==> p.tasks[id].spec.source != p.tasks[id].spec.target)
    && (forall a, b :: a in p.tasks && b in p.tasks && a != b && Engaged(p.tasks[a]) && Engaged(p.tasks[b]) ==>
          P.Apart(p.tasks[a].spec, p.tasks[b].spec))
  }

  lemma StepKeepsSound(p: P.State, e: P.Event)
    requires Sound(p) && P.Assumed(p, e) && P.Step(p, e).Some?
    ensures Sound(P.Step(p, e).value)
  {
    if e.Act? {
      ActKeepsSound(p, e.id, e.e);
    } else {
      hide TaskStep;
    }
  }

  lemma ActKeepsSound(p: P.State, id: TaskId, te: TaskEvent)
    requires Sound(p) && P.Assumed(p, P.Act(id, te)) && P.Step(p, P.Act(id, te)).Some?
    ensures Sound(P.Step(p, P.Act(id, te)).value)
  {
    OwnStep(p, id, te);
    StepKeepsSpec(p.world, p.tasks[id], te);
    P.OnlyTheEngagedStep(p.world, p.tasks[id], te);
    hide TaskStep, P.Step;
  }

  // ---------------------------------------------------------------- moves

  /** A step that brings a migration forward. */
  predicate IsMove(e: Event) {
    e.Enqueue? || e.Pick? || e.Work?
  }

  /**
   No crash, no retry, no new migration; and no file appears at the source of a migration in progress, so that
   what is being copied keeps its size.
   */
  predicate CalmEvent(p: P.State, e: P.Event) {
    match e
    case Crash => false
    case Create(_, _) => false
    case Act(_, te) => !te.Retry? && !te.RetryBreaks?
    case NewFile(path, _) => forall id :: id in p.tasks && Engaged(p.tasks[id]) ==> p.tasks[id].spec.source != path
    case _ => true
  }

  predicate Calm(s: System, es: seq<Event>)
    decreases |es|
  {
    es != [] ==>
      && Step(s, es[0]).Some?
      && (forall pe :: pe in Projected(s, es[0]) ==> CalmEvent(s.p, pe))
      && Calm(Step(s, es[0]).value, es[1..])
  }

  function Moves(es: seq<Event>): nat {
    if es == [] then 0 else (if IsMove(es[0]) then 1 else 0) + Moves(es[1..])
  }

  /** A task's own step costs it, and changes nothing for its source's size but to its end. */
  lemma OwnMoveLowers(w: World, t: Task, te: TaskEvent)
    requires t.spec.source != t.spec.target && TaskStep(w, t, te).Some?
    requires WorkerEvent(te) || te.Submit? || te.Dispatch?
    ensures var n := TaskStep(w, t, te).value; Left(n.0, n.1) < Left(w, t)
  {
    if te.Submit? || te.Dispatch? {
      TicketLowers(w, t, te);
    } else {
      match t.stage.pc
      case Copying(_) => ChunkLowers(w, t, te);
      case Opening => OpeningLowers(w, t, te);
      case _ => PhaseLowers(w, t, te);
    }
  }

  lemma TicketLowers(w: World, t: Task, te: TaskEvent)
    requires TaskStep(w, t, te).Some? && (te.Submit? || te.Dispatch?)
    ensures var n := TaskStep(w, t, te).value; Left(n.0, n.1) < Left(w, t)
  {
    hide WorkerStep;
  }

  lemma ChunkLowers(w: World, t: Task, te: TaskEvent)
    requires t.spec.source != t.spec.target && t.stage.Running? && t.stage.pc.Copying?
    requires CopyStep(w, t, t.stage.pc.copied, te).Some?
    ensures var n := CopyStep(w, t, t.stage.pc.copied, te).value; Left(n.0, n.1) < Left(w, t)
  {
  }

  lemma OpeningLowers(w: World, t: Task, te: TaskEvent)
    requires t.spec.source != t.spec.target && t.stage == Running(Opening) && WorkerStep(w, t, Opening, te).Some?
    ensures var n := WorkerStep(w, t, Opening, te).value; Left(n.0, n.1) < Left(w, t)
  {
    hide CopyStep, MoveRecord, AfterSave;
  }

  lemma PhaseLowers(w: World, t: Task, te: TaskEvent)
    requires t.spec.source != t.spec.target && t.stage.Running? && WorkerStep(w, t, t.stage.pc, te).Some?
    requires !t.stage.pc.Copying? && !t.stage.pc.Opening?
    ensures var n := WorkerStep(w, t, t.stage.pc, te).value; Left(n.0, n.1) < Left(w, t)
  {
    hide CopyStep;
  }

  lemma CancelCostsNothing(w: World, t: Task)
    requires TaskStep(w, t, Cancel).Some?
    ensures var n := TaskStep(w, t, Cancel).value; Left(n.0, n.1) == Left(w, t)
  {
  }

  /** The measure looks at a task's own source only. */
  lemma LeftIsLocal(w: World, w': World, t: Task)
    requires BytesAt(w', t.spec.source) <= BytesAt(w, t.spec.source)
    ensures Left(w', t) <= Left(w, t)
  {
  }

  lemma ActLowers(p: P.State, id: TaskId, te: TaskEvent)
    requires Sound(p) && !p.recovering && CalmEvent(p, P.Act(id, te)) && P.Step(p, P.Act(id, te)).Some?
    ensures var p' := P.Step(p, P.Act(id, te)).value;
      && Below(Lefts(p'), Lefts(p)) && id in Lefts(p)
      && (!te.Cancel? ==> Lefts(p')[id] < Lefts(p)[id])
  {
    OwnStep(p, id, te);
    P.OnlyTheEngagedStep(p.world, p.tasks[id], te);
    var n := TaskStep(p.world, p.tasks[id], te).value;
    if te.Cancel? {
      CancelCostsNothing(p.world, p.tasks[id]);
    } else {
      OwnMoveLowers(p.world, p.tasks[id], te);
    }
    forall u | u in p.tasks && u != id ensures Left(n.0, p.tasks[u]) <= Left(p.world, p.tasks[u]) {
      if Engaged(p.tasks[u]) {
        StepIsLocal(p.world, p.tasks[id], te, p.tasks[u].spec.source);
        LeftIsLocal(p.world, n.0, p.tasks[u]);
      }
    }
    hide TaskStep, Left, P.Step;
  }

  lemma OthersLower(p: P.State, e: P.Event)
    requires !p.recovering && CalmEvent(p, e) && !e.Act? && P.Step(p, e).Some?
    ensures Below(Lefts(P.Step(p, e).value), Lefts(p))
  {
    var p' := P.Step(p, e).value;
    forall id | id in p.tasks ensures id in p'.tasks && Left(p'.world, p'.tasks[id]) <= Left(p.world, p.tasks[id]) {
      if Engaged(p.tasks[id]) {
        assert BytesAt(p'.world, p.tasks[id].spec.source) <= BytesAt(p.world, p.tasks[id].spec.source);
        LeftIsLocal(p.world, p'.world, p.tasks[id]);
      }
    }
  }

  lemma StaysUp(p: P.State, e: P.Event)
    requires !p.recovering && CalmEvent(p, e) && P.Step(p, e).Some?
    ensures !P.Step(p, e).value.recovering
  {
    hide TaskStep;
  }

  lemma CalmKeepsSound(p: P.State, e: P.Event)
    requires Sound(p) && !p.recovering && CalmEvent(p, e) && P.Step(p, e).Some?
    ensures Sound(P.Step(p, e).value)
  {
    hide TaskStep;
    if e.Act? {
      OwnStep(p, e.id, e.e);
      StepKeepsSpec(p.world, p.tasks[e.id], e.e);
      P.OnlyTheEngagedStep(p.world, p.tasks[e.id], e.e);
      hide P.Step;
    }
  }

  /** A calm step never raises the measure, and a move lowers it. */
  lemma CalmStepLowers(s: System, e: Event)
    requires Sound(s.p) && !s.p.recovering && Step(s, e).Some?
    requires forall pe :: pe in Projected(s, e) ==> CalmEvent(s.p, pe)
    ensures var p' := Step(s, e).value.p;
      && Sound(p') && !p'.recovering
      && Measure(p') + (if IsMove(e) then 1 else 0) <= Measure(s.p)
  {
    StepProjects(s, e);
    var pes := Projected(s, e);
    hide Step, Sound, Left, CalmEvent, P.Step, TaskStep;
    if pes != [] {
      var pe := pes[0];
      var p' := P.Step(s.p, pe).value;
      CalmKeepsSound(s.p, pe);
      StaysUp(s.p, pe);
      if pe.Act? {
        ActLowers(s.p, pe.id, pe.e);
        SumBelow(Lefts(p'), Lefts(s.p));
        if IsMove(e) {
          MovesAreNoCancels(s, e);
          SumStrictlyBelow(Lefts(p'), Lefts(s.p), pe.id);
        }
      } else {
        OthersLower(s.p, pe);
        SumBelow(Lefts(p'), Lefts(s.p));
      }
    }
  }

  lemma MovesAreNoCancels(s: System, e: Event)
    requires IsMove(e) && Step(s, e).Some? && Projected(s, e) != []
    ensures Projected(s, e)[0].Act? && !Projected(s, e)[0].e.Cancel?
  {
  }

  // ---------------------------------------------------------------- main results

  /** What every reachable state has, once startup is over. */
  ghost predicate Up(s: System) {
    Linked(s) && L.Held(s.p) && Sound(s.p) && !s.p.recovering && s.r.pool > 0
  }

  /** No submission, no ticket to take, no step of a worker is open. */
  ghost predicate AtRest(s: System) {
    forall e :: IsMove(e) ==> Step(s, e).None?
  }

  ghost predicate AllSettled(s: System) {
    forall id :: id in s.p.tasks ==> Terminal(s.p.tasks[id].status)
  }

  /** However a calm run goes, its moves are bounded by the measure it began with. */
  lemma {:induction false} MovesRunOut(s: System, es: seq<Event>)
    requires Sound(s.p) && !s.p.recovering && Calm(s, es)
    ensures Run(s, es).Some?
    ensures var n := Run(s, es).value;
      Sound(n.p) && !n.p.recovering && Moves(es) + Measure(n.p) <= Measure(s.p)
    decreases |es|
  {
    hide Step, Sound, Measure, CalmEvent, IsMove, Projected;
    if es != [] {
      CalmStepLowers(s, es[0]);
      MovesRunOut(Step(s, es[0]).value, es[1..]);
    }
  }

  /** While a migration is unsettled some move is open: its own, or that of somebody before it. */
  lemma SomeMoveIsOpen(s: System, id: TaskId) returns (e: Event)
    requires Up(s) && id in s.p.tasks && !Terminal(s.p.tasks[id].status)
    ensures IsMove(e) && Step(s, e).Some?
    ensures forall pe :: pe in Projected(s, e) ==> !L.LetsGo(s.p, pe) && CalmEvent(s.p, pe)
  {
    hide R.Exclusive, TaskStep, Sound;
    if s.p.tasks[id].stage.Planned? {
      e := Enqueue(id);
      SubmitIsOpen(s.p, id);
    } else {
      assert id in s.r.running || id in s.r.waiting;
      e := NeverStuck(s, id);
      WorkIsCalm(s, e);
    }
  }

  lemma SubmitIsOpen(p: P.State, id: TaskId)
    requires id in p.tasks && p.tasks[id].stage.Planned? && !p.recovering
    ensures P.Step(p, P.Act(id, Submit)).Some?
  {
  }

  lemma WorkIsCalm(s: System, e: Event)
    requires Step(s, e).Some? && (e.Work? || e.Pick?)
    ensures forall pe :: pe in Projected(s, e) ==> CalmEvent(s.p, pe)
  {
    hide P.Step;
  }

  /** The run never lets go of an unsettled migration: the saves that end a run succeed. */
  predicate Holding(s: System, es: seq<Event>)
    decreases |es|
  {
    es != [] ==>
      && (forall pe :: pe in Projected(s, es[0]) ==> !L.LetsGo(s.p, pe))
      && (Step(s, es[0]).Some? ==> Holding(Step(s, es[0]).value, es[1..]))
  }

  lemma StepStaysUp(s: System, e: Event)
    requires Up(s) && Step(s, e).Some?
    requires forall pe :: pe in Projected(s, e) ==> CalmEvent(s.p, pe) && !L.LetsGo(s.p, pe)
    ensures Up(Step(s, e).value)
  {
    hide Linked, Sound, L.Held, Step, CalmEvent, L.LetsGo, P.Step, Measure;
    StepKeepsLinked(s, e);
    PoolIsFixed(s, e);
    CalmStepLowers(s, e);
    StepProjects(s, e);
    if Projected(s, e) != [] {
      L.StepHolds(s.p, Projected(s, e)[0]);
    }
  }

  lemma {:induction false} RunStaysUp(s: System, es: seq<Event>)
    requires Up(s) && Calm(s, es) && Holding(s, es)
    ensures Run(s, es).Some? && Up(Run(s, es).value)
    decreases |es|
  {
    hide Up, Step, Projected, CalmEvent, L.LetsGo;
    if es != [] {
      StepStaysUp(s, es[0]);
      RunStaysUp(Step(s, es[0]).value, es[1..]);
    }
  }

  /**
   Everybody settles: from any state with startup over, every calm run makes at most as many moves as the
   measure says, however they interleave with clients, browses and deletes; and where no move is open any
   more, every migration is in a terminal status.
   */
  lemma EverybodySettles(s: System, es: seq<Event>)
    requires Up(s) && Calm(s, es) && Holding(s, es)
    ensures Run(s, es).Some?
    ensures var n := Run(s, es).value;
      Moves(es) + Measure(n.p) <= Measure(s.p) && (AtRest(n) ==> AllSettled(n))
  {
    assert Sound(s.p) && !s.p.recovering;
    RunStaysUp(s, es);
    MovesRunOut(s, es);
    var n := Run(s, es).value;
    hide Run, Calm, Holding, Measure, Up, Step;
    if AtRest(n) {
      forall id | id in n.p.tasks ensures Terminal(n.p.tasks[id].status) {
        if !Terminal(n.p.tasks[id].status) {
          var e := SomeMoveIsOpen(n, id);
        }
      }
    }
  }

  /** And there always is a way there: moves alone bring every migration to a terminal status. */
  lemma {:induction false} WayToSettle(s: System) returns (es: seq<Event>)
    requires Up(s)
    ensures Calm(s, es) && Holding(s, es) && Run(s, es).Some? && AllSettled(Run(s, es).value)
    decreases Measure(s.p)
  {
    hide Up, Measure, Step, CalmEvent, L.LetsGo, Projected, IsMove;
    if AllSettled(s) {
      es := [];
    } else {
      var id :| id in s.p.tasks && !Terminal(s.p.tasks[id].status);
      var e := SomeMoveIsOpen(s, id);
      StepStaysUp(s, e);
      UpIsSound(s);
      CalmStepLowers(s, e);
      var rest := WayToSettle(Step(s, e).value);
      es := [e] + rest;
      assert es[1..] == rest;
    }
  }

  lemma UpIsSound(s: System)
    requires Up(s)
    ensures Sound(s.p) && !s.p.recovering
  {
  }

  /** Every good run of the whole system leads to such a state, whenever startup is over. */
  lemma {:induction false} GoodRunsAreUp(s: System, es: seq<Event>)
    requires P.Inv(s.p) && L.Held(s.p) && Linked(s) && Sound(s.p) && s.r.pool > 0 && GoodRun(s, es)
    ensures Run(s, es).Some?
    ensures var n := Run(s, es).value; n.p.recovering || Up(n)
    decreases |es|
  {
    hide P.Inv, L.Held, Linked, Sound, Step, P.Assumed, L.LetsGo, P.Step, Projected;
    RunKeepsPromises(s, es);
    if es != [] {
      SystemStepKeepsSound(s, es[0]);
      PoolIsFixed(s, es[0]);
      RunKeepsPromises(s, [es[0]]);
      assert [es[0]][1..] == [];
      assert GoodRun(Step(s, es[0]).value, []);
      GoodRunsAreUp(Step(s, es[0]).value, es[1..]);
    }
  }

  lemma SystemStepKeepsSound(s: System, e: Event)
    requires Sound(s.p) && Step(s, e).Some?
    requires forall pe :: pe in Projected(s, e) ==> P.Assumed(s.p, pe)
    ensures Sound(Step(s, e).value.p)
  {
    hide Sound, Step, P.Assumed, P.Step;
    StepProjects(s, e);
    if Projected(s, e) != [] {
      StepKeepsSound(s.p, Projected(s, e)[0]);
    }
  }

  /** The same from the start of the process: after any good run, once startup is over. */
  lemma SystemSettles(s: System, maxConcurrent: int, before: seq<Event>, es: seq<Event>)
    requires Start(s, maxConcurrent) && GoodRun(s, before)
    requires var m := Run(s, before); m.Some? && !m.value.p.recovering && Calm(m.value, es) && Holding(m.value, es)
    ensures var m := Run(s, before).value; var n := Run(m, es);
      n.Some? && Moves(es) + Measure(n.value.p) <= Measure(m.p) && (AtRest(n.value) ==> AllSettled(n.value))
  {
    StartIsReady(s, maxConcurrent);
    hide *;
    GoodRunsAreUp(s, before);
    EverybodySettles(Run(s, before).value, es);
  }

  lemma StartIsReady(s: System, maxConcurrent: int)
    requires Start(s, maxConcurrent)
    ensures P.Inv(s.p) && L.Held(s.p) && Linked(s) && Sound(s.p) && s.r.pool > 0
  {
    StartIsLinked(s, maxConcurrent);
    hide Linked;
  }
}
