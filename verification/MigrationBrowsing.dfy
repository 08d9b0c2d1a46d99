/**
 Browsing beside a migration.  A browse lists a directory, asks which of the files are locked, looks
 their records up, and inserts records for the unlocked files that have none.  Files appear and vanish, the
 migration is created and runs, and other browses move in between.  A target without file or record when
 the migration is created is claimed exactly if some browse then in flight had a path reported free before.
 */
module MigrationBrowsing {
  import opened Wrappers
  import opened MigrationModel
  import opened MigrationSafety
  import opened MigrationConvergence

  /** How far one browse has come; each stage keeps what the code keeps in its local variables. */
  datatype Browse =
    | Listed(paths: set<Path>)
    | Checked(paths: set<Path>, locked: set<Path>)
    | Decided(inserts: set<Path>)

  type BrowseId = nat

  datatype State = State(world: World, task: Option<Task>, browses: map<BrowseId, Browse>)

  datatype Event =
    | Create(spec: Spec)
    | Migrate(m: Moment)                               // a step of the migration, or a crash
    | Appear(path: Path, content: Bytes)
    | Vanish(gone: Path)
    | List(b: BrowseId, paths: set<Path>)
    | CheckLocks(who: BrowseId, others: set<Path>)     // `others`: locked by other tasks
    | FindRecords(which: BrowseId)
    | Upsert(actor: BrowseId, p: Path, record: Record)

  predicate Holds(s: State, p: Path) {
    s.task.Some? && !Terminal(s.task.value.status) && Touches(s.task.value.spec, p)
  }

  /** `_sync_video_documents`: new files get a record unless unfinished work holds them. */
  function Inserts(w: World, paths: set<Path>, locked: set<Path>): set<Path> {
    set p | p in paths && p !in w.records && p !in locked
  }

  /** The upsert inserts or does nothing. */
  function UpsertRecord(w: World, p: Path, r: Record): World {
    if p in w.records then w else w.(records := w.records[p := r])
  }

  /** `create_task`: the source is there, and an occupied target was put up for overwriting. */
  predicate Creatable(s: State, spec: Spec) {
    s.task.None? && SourceFull(s.world, spec) && (spec.target in s.world.files ==> spec.overwrite)
  }

  function Step(s: State, e: Event): Option<State> {
    match e
    case Create(spec) => if Creatable(s, spec) then Some(s.(task := Some(NewTask(spec)))) else None
    case Migrate(m) =>
      if s.task.None? then None
      else (match Live(s.world, s.task.value, m)
            case None => None
            case Some(n) => Some(State(n.0, Some(n.1), if m.Die? then map[] else s.browses)))
    case Appear(p, content) =>
      if Holds(s, p) || p in s.world.files then None
      else Some(s.(world := s.world.(files := s.world.files[p := content])))
    case Vanish(p) => if Holds(s, p) then None else Some(s.(world := DeleteFile(s.world, p)))
    case List(b, paths) =>
      if b !in s.browses && paths <= s.world.files.Keys then Some(s.(browses := s.browses[b := Listed(paths)]))
      else None
    case CheckLocks(b, others) =>
      if b in s.browses && s.browses[b].Listed? then
        var paths := s.browses[b].paths;
        var locked := set p | p in paths && (Holds(s, p) || p in others);
        Some(s.(browses := s.browses[b := Checked(paths, locked)]))
      else None
    case FindRecords(b) =>
      if b in s.browses && s.browses[b].Checked? then
        Some(s.(browses := s.browses[b := Decided(Inserts(s.world, s.browses[b].paths, s.browses[b].locked))]))
      else None
    case Upsert(b, p, r) =>
      if b in s.browses && s.browses[b].Decided? && p in s.browses[b].inserts then
        Some(s.(world := UpsertRecord(s.world, p, r), browses := s.browses[b := Decided(s.browses[b].inserts - {p})]))
      else None
  }

  function Run(s: State, es: seq<Event>): Option<State>
    decreases |es|
  {
    if es == [] then Some(s)
    else match Step(s, es[0])
      case None => None
      case Some(n) => Run(n, es[1..])
  }

  /** The browse may still act on an answer that the path was not locked. */
  predicate TakesForFree(b: Browse, p: Path) {
    match b
    case Listed(_) => false
    case Checked(paths, locked) => p in paths && p !in locked
    case Decided(inserts) => p in inserts
  }

  /** No browse in flight had the path reported free. */
  predicate NoStaleAnswer(s: State, p: Path) {
    forall b :: b in s.browses ==> !TakesForFree(s.browses[b], p)
  }

  /** A migration of video `id` has just been created, to a target that holds neither file nor record. */
  predicate JustCreated(s: State, spec: Spec, id: VideoId) {
    && s.task == Some(NewTask(spec)) && Fresh(s.world, spec, id)
    && spec.target !in s.world.files && spec.target !in s.world.records
  }

  predicate NothingStale(s: State, spec: Spec) {
    NoStaleAnswer(s, spec.source) && NoStaleAnswer(s, spec.target)
  }

  /**
   While the task is unsettled its own record is the only one at either path, and no browse has been
   told otherwise; once it has completed, its record stands at the target.
   */
  predicate Inv(s: State, id: VideoId) {
    && s.task.Some?
    && var t := s.task.value;
    && (forall b :: b in s.browses && s.browses[b].Decided? ==> t.spec.target !in s.browses[b].inserts)
    && (t.status == Completed && t.stage.Idle? ==>
          TargetFreeFor(s.world, t.spec, id) && t.spec.target in s.world.records)
    && (!(t.status == Completed && t.stage.Idle?) ==>
          && Underway(s.world, t, id) && t.status != Completed
          && Unobstructed(s.world, t, id) && TargetFreeFor(s.world, t.spec, id)
          && NothingStale(s, t.spec))
  }

  lemma MigrateKeepsInv(s: State, m: Moment, id: VideoId)
    requires Inv(s, id) && Step(s, Migrate(m)).Some?
    ensures Inv(Step(s, Migrate(m)).value, id)
  {
    var t := s.task.value;
    if t.status == Completed && t.stage.Idle? {
      assert m == Die;
    } else {
      if m.On? {
        SmoothStepKeepsUnderway(s.world, t, m.e, id);
      } else {
        CrashKeepsOk(s.world, t);
      }
      MomentKeepsUnobstructed(s.world, t, m, id);
      MomentKeepsRivalFree(s.world, t, m, id);
    }
  }

  lemma MomentKeepsRivalFree(w: World, t: Task, m: Moment, id: VideoId)
    requires Underway(w, t, id) && TargetFreeFor(w, t.spec, id) && Live(w, t, m).Some? && t.status != Completed
    ensures var n := Live(w, t, m).value;
      TargetFreeFor(n.0, t.spec, id) && n.1.spec == t.spec && (n.1.status == Completed ==> n.1.stage.Idle?)
  {
  }

  lemma BrowseKeepsInv(s: State, e: Event, id: VideoId)
    requires Inv(s, id) && !e.Migrate? && Step(s, e).Some?
    ensures Inv(Step(s, e).value, id)
  {
    var s' := Step(s, e).value;
    var t := s.task.value;
    if (e.Upsert? || e.Appear? || e.Vanish?) && !(t.status == Completed && t.stage.Idle?) {
      assert !Terminal(t.status);
      assert e.Upsert? ==> TakesForFree(s.browses[e.actor], e.p);
      assert AgreeAt(s.world, s'.world, t.spec.source) && AgreeAt(s.world, s'.world, t.spec.target);
      UnderwayIsLocal(s.world, s'.world, t, id);
    }
  }

  lemma UnderwayIsLocal(w: World, w': World, t: Task, id: VideoId)
    requires Underway(w, t, id) && AgreeAt(w, w', t.spec.source) && AgreeAt(w, w', t.spec.target)
    ensures Underway(w', t, id)
  {
    OkIsLocal(w, w', t);
    hide TaskOk;
  }

  lemma {:induction false} RunKeepsInv(s: State, es: seq<Event>, id: VideoId)
    requires Inv(s, id) && Run(s, es).Some?
    ensures Inv(Run(s, es).value, id)
    decreases |es|
  {
    if es != [] {
      hide Inv, Step;
      if es[0].Migrate? {
        MigrateKeepsInv(s, es[0].m, id);
      } else {
        BrowseKeepsInv(s, es[0], id);
      }
      RunKeepsInv(Step(s, es[0]).value, es[1..], id);
    }
  }

  // ---------------------------------------------------------------- main results

  /** No rival record stands at the target, and the write of the new path does not meet the unique index. */
  predicate Unclaimed(s: State, id: VideoId) {
    && s.task.Some?
    && TargetFreeFor(s.world, s.task.value.spec, id)
    && (s.task.value.stage.Running? && s.task.value.stage.pc.Moving? ==>
          TaskStep(s.world, s.task.value, Move).Some?)
  }

  ghost predicate NeverClaimed(s: State, id: VideoId) {
    forall es :: Run(s, es).Some? ==> Unclaimed(Run(s, es).value, id)
  }

  /**
   However browses and the migration interleave, and wherever the process dies, no rival record ever
   stands at the target; so the write of the new path never meets the unique index.
   */
  lemma BrowsingNeverClaimsTheTarget(s: State, spec: Spec, es: seq<Event>, id: VideoId)
    requires JustCreated(s, spec, id) && NothingStale(s, spec) && Run(s, es).Some?
    ensures Unclaimed(Run(s, es).value, id)
  {
    assert Inv(s, id);
    RunKeepsInv(s, es, id);
    InvIsUnclaimed(Run(s, es).value, id);
  }

  lemma InvIsUnclaimed(s: State, id: VideoId)
    requires Inv(s, id)
    ensures Unclaimed(s, id)
  {
  }

  /** The target is never claimed if and only if no browse in flight had either path reported free. */
  lemma NeverClaimedIff(s: State, spec: Spec, id: VideoId)
    requires JustCreated(s, spec, id)
    ensures NeverClaimed(s, id) <==> NothingStale(s, spec)
  {
    if NothingStale(s, spec) {
      forall es | Run(s, es).Some? ensures Unclaimed(Run(s, es).value, id) {
        BrowsingNeverClaimsTheTarget(s, spec, es, id);
      }
    } else {
      var es: seq<Event>;
      if !NoStaleAnswer(s, spec.target) {
        var b :| b in s.browses && TakesForFree(s.browses[b], spec.target);
        es := StaleAnswerClaimsTheTarget(s, spec, b, id);
      } else {
        var b :| b in s.browses && TakesForFree(s.browses[b], spec.source);
        es := StaleAnswerTakesTheSource(s, spec, b, id);
      }
      hide Run, Unclaimed;
      assert Run(s, es).Some? && !Unclaimed(Run(s, es).value, id);
    }
  }

  // ---------------------------------------------------------------- what browsing alone does

  /** Browses add records and never change one. */
  lemma BrowsesOnlyAdd(s: State, e: Event, p: Path)
    requires !e.Migrate? && Step(s, e).Some? && p in s.world.records
    ensures p in Step(s, e).value.world.records && Step(s, e).value.world.records[p] == s.world.records[p]
  {
  }

  /** A browse does not insert what it was told is locked, by whomever, nor what is catalogued already. */
  lemma HeldIsNotInserted(s: State, b: BrowseId, others: set<Path>, p: Path, es: seq<Event>, r: Record)
    requires Step(s, CheckLocks(b, others)).Some? && (p in others || Holds(s, p))
    requires Run(Step(s, CheckLocks(b, others)).value, es).Some? && Migrate(Die) !in es
    ensures Upsert(b, p, r) !in es
  {
    NotTakenNotInserted(Step(s, CheckLocks(b, others)).value, b, p, es, r);
  }

  lemma {:induction false} NotTakenNotInserted(s: State, b: BrowseId, p: Path, es: seq<Event>, r: Record)
    requires b in s.browses && !s.browses[b].Listed? && !TakesForFree(s.browses[b], p)
    requires Run(s, es).Some? && Migrate(Die) !in es
    ensures Upsert(b, p, r) !in es
    decreases |es|
  {
    if es != [] {
      assert es[0] in es && Migrate(Die) !in es[1..];
      NotTakenNotInserted(Step(s, es[0]).value, b, p, es[1..], r);
      assert es == [es[0]] + es[1..];
    }
  }

  /** It inserts each of its paths once. */
  lemma InsertedOnce(s: State, b: BrowseId, p: Path, r: Record, es: seq<Event>, again: Record)
    requires Step(s, Upsert(b, p, r)).Some?
    requires Run(Step(s, Upsert(b, p, r)).value, es).Some? && Migrate(Die) !in es
    ensures Upsert(b, p, again) !in es
  {
    NotTakenNotInserted(Step(s, Upsert(b, p, r)).value, b, p, es, again);
  }

  /** And it inserts nothing without having listed, so none outlives the process it was made in. */
  lemma NoneOutlivesTheProcess(s: State, b: BrowseId, es: seq<Event>, p: Path, r: Record)
    requires Step(s, Migrate(Die)).Some? && Run(Step(s, Migrate(Die)).value, es).Some?
    requires forall paths :: List(b, paths) !in es
    ensures Upsert(b, p, r) !in es
  {
    UnlistedInsertsNothing(Step(s, Migrate(Die)).value, b, es, p, r);
  }

  lemma {:induction false} UnlistedInsertsNothing(s: State, b: BrowseId, es: seq<Event>, p: Path, r: Record)
    requires b !in s.browses && Run(s, es).Some? && (forall paths :: List(b, paths) !in es)
    ensures Upsert(b, p, r) !in es
    decreases |es|
  {
    if es != [] {
      assert es == [es[0]] + es[1..] && es[0] in es;
      UnlistedInsertsNothing(Step(s, es[0]).value, b, es[1..], p, r);
    }
  }

  /** A browse lists files that are there; files come and go wherever the migration, while unsettled, has no path. */
  lemma ListedIff(s: State, b: BrowseId, paths: set<Path>, p: Path, content: Bytes)
    ensures Step(s, List(b, paths)).Some? <==> b !in s.browses && forall q :: q in paths ==> q in s.world.files
    ensures Step(s, Appear(p, content)).Some? <==>
      p !in s.world.files && (s.task.Some? && Touches(s.task.value.spec, p) ==> Terminal(s.task.value.status))
    ensures Step(s, Vanish(p)).Some? <==>
      (s.task.Some? && Touches(s.task.value.spec, p) ==> Terminal(s.task.value.status))
  {
  }

  /** The records a browse comes to insert: of the listed files, those without a record now and not held before. */
  lemma FoundAre(s: State, b: BrowseId, p: Path)
    requires b in s.browses && s.browses[b].Checked?
    ensures Step(s, FindRecords(b)).Some? && TakesForFree(Step(s, FindRecords(b)).value.browses[b], p) <==>
      TakesForFree(s.browses[b], p) && p !in s.world.records
  {
  }

  // ---------------------------------------------------------------- how a stale answer does it

  lemma {:induction false} RunAppend(s: State, es: seq<Event>, e: Event)
    requires Run(s, es).Some? && Step(Run(s, es).value, e).Some?
    ensures Run(s, es + [e]) == Step(Run(s, es).value, e)
    decreases |es|
  {
    hide Step;
    if es == [] {
      assert [] + [e] == [e] && [e][1..] == [];
      assert Run(Step(s, e).value, []) == Step(s, e);
    } else {
      assert (es + [e])[1..] == es[1..] + [e];
      RunAppend(Step(s, es[0]).value, es[1..], e);
    }
  }

  lemma Next(s0: State, es: seq<Event>, s: State, e: Event) returns (es': seq<Event>, s': State)
    requires Run(s0, es) == Some(s) && Step(s, e).Some?
    ensures Run(s0, es') == Some(s') && Step(s, e) == Some(s')
  {
    RunAppend(s0, es, e);
    es', s' := es + [e], Step(s, e).value;
  }

  /** A step of the migration, with the next state spelled out. */
  lemma Do(s0: State, es: seq<Event>, s: State, e: TaskEvent) returns (es': seq<Event>, s': State)
    requires Run(s0, es) == Some(s) && s.task.Some? && Live(s.world, s.task.value, On(e)).Some?
    ensures Run(s0, es') == Some(s')
    ensures var n := Live(s.world, s.task.value, On(e)).value; s' == State(n.0, Some(n.1), s.browses)
  {
    hide Live;
    es', s' := Next(s0, es, s, Migrate(On(e)));
  }

  /** Some other video. */
  function Rival(id: VideoId): Record {
    Record(id + 1, "elsewhere")
  }

  /** The browse goes on to insert a record at a path it takes for free. */
  lemma StaleInsert(s0: State, es: seq<Event>, s: State, b: BrowseId, p: Path, r: Record)
      returns (es': seq<Event>, s': State)
    requires Run(s0, es) == Some(s) && b in s.browses && TakesForFree(s.browses[b], p) && p !in s.world.records
    ensures Run(s0, es') == Some(s') && s'.task == s.task
    ensures s'.world == s.world.(records := s.world.records[p := r])
  {
    es', s' := es, s;
    if s.browses[b].Checked? {
      es', s' := Next(s0, es, s, FindRecords(b));
    }
    es', s' := Next(s0, es', s', Upsert(b, p, r));
  }

  /** An answer from before the migration was created lets a browse insert a rival at the target. */
  lemma StaleAnswerClaimsTheTarget(s: State, spec: Spec, b: BrowseId, id: VideoId) returns (es: seq<Event>)
    requires JustCreated(s, spec, id) && b in s.browses && TakesForFree(s.browses[b], spec.target)
    ensures Run(s, es).Some? && !Unclaimed(Run(s, es).value, id)
  {
    var n: State;
    es, n := StaleInsert(s, [], s, b, spec.target, Rival(id));
  }

  /** A new migration copies its file. */
  lemma CopyUndisturbed(s: State, spec: Spec, id: VideoId) returns (es: seq<Event>, n: State)
    requires JustCreated(s, spec, id)
    ensures Run(s, es) == Some(n) && n.browses == s.browses && n.world.records == s.world.records
    ensures n.task == Some(Task(spec, Processing, None, Running(Save(ProcessDone)), false))
    ensures SourceFull(n.world, spec)
  {
    hide Run, Step;
    es, n := OpenUndisturbed(s, spec, id);
    if spec.original != [] {
      es, n := Do(s, es, n, Chunk(|spec.original|));
    }
    es, n := Do(s, es, n, Finish);
  }

  lemma OpenUndisturbed(s: State, spec: Spec, id: VideoId) returns (es: seq<Event>, n: State)
    requires JustCreated(s, spec, id)
    ensures Run(s, es) == Some(n) && n.browses == s.browses && n.world.records == s.world.records
    ensures n.task == Some(Task(spec, Processing, None, Running(Copying(0)), false))
    ensures SourceFull(n.world, spec)
  {
    assert Run(s, []) == Some(s);
    hide Run, Step, CopyStep;
    es, n := Do(s, [], s, Submit);
    es, n := Do(s, es, n, Dispatch);
    es, n := Do(s, es, n, Persist);
    es, n := Do(s, es, n, Open);
  }

  /** It moves its record to the target; the source is free of records from then on. */
  lemma RepointUndisturbed(s: State, spec: Spec, id: VideoId) returns (es: seq<Event>, n: State)
    requires JustCreated(s, spec, id)
    ensures Run(s, es) == Some(n) && n.browses == s.browses
    ensures n.task == Some(Task(spec, UpdatingDb, None, Running(Save(DbUpdated)), false))
    ensures SourceFull(n.world, spec) && spec.source !in n.world.records
    ensures spec.target in n.world.records && n.world.records[spec.target].id == id
  {
    hide Run, Step, CopyStep, CompensateWorld;
    es, n := CopyUndisturbed(s, spec, id);
    es, n := Do(s, es, n, Persist);
    es, n := Do(s, es, n, Persist);
    es, n := Do(s, es, n, Find);
    if spec.overwrite {
      es, n := Do(s, es, n, Displace);
    }
    es, n := Do(s, es, n, Move);
  }

  lemma ThrownBack(s0: State, es: seq<Event>, s: State, spec: Spec) returns (es': seq<Event>, n: State)
    requires Run(s0, es) == Some(s) && s.task == Some(Task(spec, UpdatingDb, None, Running(Save(DbUpdated)), false))
    ensures Run(s0, es') == Some(n) && n.world == s.world
    ensures n.task == Some(Task(spec, Pending, None, Planned(UpdatingDb), false))
  {
    es', n := Next(s0, es, s, Migrate(Die));
    hide Run, Step, WorkerStep;
    es', n := Do(s0, es', n, Compensate(true));
    es', n := Do(s0, es', n, Plan);
  }

  /** The process dies before DB_UPDATED is saved; recovery sends the task to look its record up again. */
  lemma LookUpAgain(s0: State, es: seq<Event>, s: State, spec: Spec) returns (es': seq<Event>, n: State)
    requires Run(s0, es) == Some(s) && s.task == Some(Task(spec, UpdatingDb, None, Running(Save(DbUpdated)), false))
    ensures Run(s0, es') == Some(n) && n.world == s.world
    ensures n.task == Some(Task(spec, UpdatingDb, None, Running(Finding), false))
  {
    es', n := ThrownBack(s0, es, s, spec);
    hide Run, Step, CopyStep, MoveRecord, CompensateWorld;
    es', n := Do(s0, es', n, Submit);
    es', n := Do(s0, es', n, Dispatch);
    es', n := Do(s0, es', n, Persist);
  }

  /**
   An answer about the source does it too: once the record has moved, the browse registers the source file
   anew; after a crash the task finds that record, and moves it over its own or is refused.
   */
  lemma StaleAnswerTakesTheSource(s: State, spec: Spec, b: BrowseId, id: VideoId) returns (es: seq<Event>)
    requires JustCreated(s, spec, id) && b in s.browses && TakesForFree(s.browses[b], spec.source)
    ensures Run(s, es).Some? && !Unclaimed(Run(s, es).value, id)
  {
    hide Run, Step, CopyStep, CompensateWorld, AfterSave;
    var n: State;
    es, n := RepointUndisturbed(s, spec, id);
    es, n := StaleInsert(s, es, n, b, spec.source, Rival(id));
    es, n := LookUpAgain(s, es, n, spec);
    es, n := Do(s, es, n, Find);
    if spec.overwrite {
      es, n := Do(s, es, n, Displace);
      es, n := Do(s, es, n, Move);
    }
  }

  // ---------------------------------------------------------------- stale answers do come about

  /** Two files, nobody browsing, no migration; `b` is not in the catalogue yet. */
  predicate Quiet(s: State, a: Path, b: Path) {
    a != b && a in s.world.files && b in s.world.files && b !in s.world.records && s.task.None? && s.browses == map[]
  }

  function Mover(s: State, source: Path, target: Path): Spec
    requires source in s.world.files
  {
    Spec(source, target, "archive", false, false, s.world.files[source])
  }

  /** A browse has listed `b` and been told that nobody holds it. */
  lemma ToldFree(s: State, a: Path, b: Path) returns (es: seq<Event>, n: State)
    requires Quiet(s, a, b)
    ensures Run(s, es) == Some(n) && n == s.(browses := map[0 := Checked({b}, {})])
  {
    es, n := Next(s, [], s, List(0, {b}));
    hide Run;
    assert n == s.(browses := map[0 := Listed({b})]);
    assert forall p :: !Holds(n, p);
    es, n := Next(s, es, n, CheckLocks(0, {}));
    assert n.browses[0].locked == {};
    assert n.browses == map[0 := Checked({b}, {})];
  }

  /** The file vanishes and a migration to its path is created: the answer about the target is stale. */
  lemma StaleTargetIsReached(s: State, a: Path, b: Path, id: VideoId) returns (es: seq<Event>, n: State, spec: Spec)
    requires Quiet(s, a, b) && a in s.world.records && s.world.records[a].id == id
    ensures Run(s, es) == Some(n) && JustCreated(n, spec, id) && !NoStaleAnswer(n, spec.target)
  {
    es, n := ToldFree(s, a, b);
    es, n := Next(s, es, n, Vanish(b));
    spec := Mover(s, a, b);
    es, n := Next(s, es, n, Create(spec));
    assert TakesForFree(n.browses[0], b);
  }

  /** Another browse registers the file and a migration of it is created: the answer about the source is stale. */
  lemma StaleSourceIsReached(s: State, a: Path, b: Path, c: Path, r: Record)
      returns (es: seq<Event>, n: State, spec: Spec)
    requires Quiet(s, a, b) && b != c && c !in s.world.files && c !in s.world.records
    ensures Run(s, es) == Some(n) && JustCreated(n, spec, r.id) && !NoStaleAnswer(n, spec.source)
  {
    es, n := ToldFree(s, a, b);
    es, n := Next(s, es, n, List(1, {b}));
    es, n := Next(s, es, n, CheckLocks(1, {}));
    es, n := Next(s, es, n, FindRecords(1));
    es, n := Next(s, es, n, Upsert(1, b, r));
    spec := Mover(s, b, c);
    es, n := Next(s, es, n, Create(spec));
    assert TakesForFree(n.browses[0], b);
  }

  // ---------------------------------------------------------------- the code of the sync

  /** `PathLockRegistry`: every provider is asked; the answer is everything any of them holds. */
  class PathLockRegistry {
    var providers: map<string, set<Path>>

    constructor ()
      ensures providers == map[]
    {
      providers := map[];
    }

    method Register(key: string, held: set<Path>)
      modifies this
      ensures providers == old(providers)[key := held]
    {
      providers := providers[key := held];
    }

    /** Empty paths are ignored; of the others, exactly those some provider holds. */
    method LockedPaths(dbPaths: set<Path>) returns (locked: set<Path>)
      ensures forall p :: p in locked <==> p in dbPaths && p != "" && exists k :: k in providers && p in providers[k]
    {
      var wanted := set p | p in dbPaths && p != "";
      locked := {};
      if wanted == {} {
        return;
      }
      var keys := providers.Keys;
      while keys != {}
        invariant keys <= providers.Keys
        invariant forall p :: p in locked <==>
            p in wanted && exists k :: k in providers && k !in keys && p in providers[k]
      {
        var k :| k in keys;
        locked := locked + (providers[k] * wanted);
        keys := keys - {k};
      }
    }
  }

  /** `_sync_video_documents` as the service runs it, over the records it updates in place. */
  class BrowseFileService {
    var records: map<Path, Record>
    var nextId: VideoId

    /** Ids are given out in ascending order. */
    ghost predicate Valid()
      reads this
    {
      forall p :: p in records ==> records[p].id < nextId
    }

    constructor (known: map<Path, Record>, firstFree: VideoId)
      requires forall p :: p in known ==> known[p].id < firstFree
      ensures Valid() && records == known && nextId == firstFree
    {
      records, nextId := known, firstFree;
    }

    /** What the inserts leave: the old records, and a new one for each path, apart in id. */
    twostate predicate Inserted(category: Category, paths: set<Path>)
      reads this
    {
      && records.Keys == old(records).Keys + paths
      && (forall p :: p in old(records) ==> records[p] == old(records)[p])
      && (forall p :: p in records && p !in old(records) ==> records[p].category == category)
      && (forall p, q :: p in records && p !in old(records) && q in records && q != p ==>
            records[p].id != records[q].id)
    }

    /** The upserts: a path that has a record by now is left alone. */
    method UpsertAll(category: Category, paths: seq<Path>)
      requires Valid()
      modifies this
      ensures Valid() && Inserted(category, set p | p in paths)
    {
      for i := 0 to |paths|
        invariant Valid() && Inserted(category, set p | p in paths[..i])
      {
        assert paths[..i + 1] == paths[..i] + [paths[i]];
        if paths[i] !in records {
          records := records[paths[i] := Record(nextId, category)];
          nextId := nextId + 1;
        }
      }
      assert paths[..|paths|] == paths;
    }

    /** The listed files that are not catalogued, and not held by unfinished work. */
    method NewFiles(pending: seq<Path>, locked: set<Path>) returns (found: seq<Path>)
      ensures forall p :: p in found <==> p in pending && p !in records && p !in locked
    {
      found := [];
      for i := 0 to |pending|
        invariant forall p :: p in found <==> p in pending[..i] && p !in records && p !in locked
      {
        if pending[i] !in records && pending[i] !in locked {
          found := found + [pending[i]];
        }
      }
      assert pending[..|pending|] == pending;
    }

    /**
     The files of one directory, in listing order, and the paths reported locked.  Exactly the listed files that
     have no record and are not locked get one, each under an id of its own and in the category browsed; what is
     returned are the records of the listed files afterwards.
     */
    method SyncVideoDocuments(category: Category, pending: seq<Path>, locked: set<Path>)
        returns (documents: map<Path, Record>, hasNewFile: bool)
      requires Valid()
      modifies this
      ensures Valid()
      ensures Inserted(category, set p | p in pending && p !in old(records) && p !in locked)
      ensures hasNewFile <==> exists p :: p in pending && p !in old(records) && p !in locked
      ensures documents == map p | p in pending && p in records :: records[p]
    {
      documents := map p | p in pending && p in records :: records[p];
      var inserted := NewFiles(pending, locked);
      UpsertAll(category, inserted);
      for i := 0 to |inserted|
        invariant documents == map p | p in pending && (p in old(records) || p in inserted[..i]) :: records[p]
      {
        assert inserted[..i + 1] == inserted[..i] + [inserted[i]];
        documents := documents[inserted[i] := records[inserted[i]]];
      }
      assert inserted[..|inserted|] == inserted;
      hasNewFile := inserted != [];
      assert hasNewFile ==> inserted[0] in inserted;
    }
  }
}
