/**
 The background runner: a FIFO queue, a fixed pool of workers, and one bounded channel per observer.
 The atomic blocks are the stretches of code between two awaits; `Step` gives the effect of each,
 `Inv` is kept by all of them in every interleaving, and the classes below carry the blocks out.
 */
module TaskRunner {
  import opened Wrappers
  import opened MigrationModel

  type TaskId = nat
  type Frame = nat
  type WorkerId = nat
  type ObserverId = nat

  const CHANNEL_SIZE := 64

  /** A ticket in the job queue. */
  datatype Job = Job(taskId: TaskId, startFrom: Status)

  /** What travels through an observer's channel. */
  datatype Signal = Progress(frame: Frame) | End

  // ---------------------------------------------------------------- one channel

  /** `_broadcast`: a full channel loses its oldest entry, never the new one. */
  function PushFrame(items: seq<Signal>, f: Frame): seq<Signal> {
    (if |items| >= CHANNEL_SIZE then items[1..] else items) + [Progress(f)]
  }

  /** `_end_observer_streams`: a full channel does not get the marker. */
  function PushEnd(items: seq<Signal>): seq<Signal> {
    if |items| >= CHANNEL_SIZE then items else items + [End]
  }

  function Frames(fs: seq<Frame>): seq<Signal> {
    seq(|fs|, i requires 0 <= i < |fs| => Progress(fs[i]))
  }

  /** The channel holds the newest of the frames sent, in order. */
  predicate HoldsNewest(items: seq<Signal>, sent: seq<Frame>) {
    |items| <= |sent| && |items| <= CHANNEL_SIZE && items == Frames(sent[|sent| - |items|..])
  }

  // ---------------------------------------------------------------- the whole runner

  /**
   An observer: its task, its channel, and how far `observe` has come.  `sent` are the frames
   broadcast for the task since the observer attached, `settled` says that the task was let go of since
   then, and `endLost` that the last settlement found the channel full, with no marker in it from an earlier one.
   */
  datatype Observer = Observer(
    taskId: TaskId, items: seq<Signal>, waiting: bool,
    sent: seq<Frame>, settled: bool, endLost: bool)

  /**
   `workers` maps each busy worker to its job.  `accepted`, `dispatched` and `finished` are the history:
   tickets in the order they were queued, in the order they were taken, and how many are done.
   */
  datatype State = State(
    pool: nat,
    queue: seq<Job>, waiting: set<TaskId>, running: set<TaskId>, workers: map<WorkerId, Job>,
    observers: map<ObserverId, Observer>,
    accepted: seq<Job>, dispatched: seq<Job>, finished: nat)

  datatype Event =
    | Submit(job: Job)
    | Take(worker: WorkerId)
    | Emit(from: WorkerId, frame: Frame)
    | Settle(done: WorkerId)
    | Attach(o: ObserverId, taskId: TaskId)
    | CheckLive(who: ObserverId)
    | Receive(reader: ObserverId)
    | Detach(leaver: ObserverId)
    | Shutdown

  function PoolSize(maxConcurrent: int): (n: nat)
    ensures n >= 1 && n >= maxConcurrent && (n == 1 || n == maxConcurrent)
  {
    if maxConcurrent < 1 then 1 else maxConcurrent
  }

  function Initial(maxConcurrent: int): State {
    State(PoolSize(maxConcurrent), [], {}, {}, map[], map[], [], [], 0)
  }

  predicate Active(s: State, id: TaskId) {
    id in s.waiting || id in s.running
  }

  function SubmitJob(s: State, job: Job): State {
    if Active(s, job.taskId) then s
    else s.(waiting := s.waiting + {job.taskId}, queue := s.queue + [job], accepted := s.accepted + [job])
  }

  function TakeJob(s: State, w: WorkerId): State
    requires s.queue != []
  {
    var job := s.queue[0];
    s.(queue := s.queue[1..], waiting := s.waiting - {job.taskId}, running := s.running + {job.taskId},
       workers := s.workers[w := job], dispatched := s.dispatched + [job])
  }

  function Notify(os: map<ObserverId, Observer>, id: TaskId, f: Frame): map<ObserverId, Observer> {
    map o | o in os :: if os[o].taskId == id
                       then os[o].(items := PushFrame(os[o].items, f), sent := os[o].sent + [f])
                       else os[o]
  }

  function EndFor(x: Observer): Observer {
    x.(items := PushEnd(x.items), settled := true, endLost := |x.items| >= CHANNEL_SIZE && End !in x.items)
  }

  function EndStreams(os: map<ObserverId, Observer>, ids: set<TaskId>): map<ObserverId, Observer> {
    map o | o in os :: if os[o].taskId in ids then EndFor(os[o]) else os[o]
  }

  function Without<V>(m: map<nat, V>, k: nat): map<nat, V> {
    map i | i in m && i != k :: m[i]
  }

  function SettleJob(s: State, w: WorkerId): State
    requires w in s.workers
  {
    var id := s.workers[w].taskId;
    s.(running := s.running - {id}, workers := Without(s.workers, w), finished := s.finished + 1,
       observers := EndStreams(s.observers, {id}))
  }

  /** Every busy worker is cancelled and cleans up after itself; then every channel is told. */
  function StopAll(s: State): State {
    s.(running := {}, workers := map[], finished := s.finished + |s.workers|,
       observers := EndStreams(EndStreams(s.observers, s.running), set o | o in s.observers :: s.observers[o].taskId))
  }

  function Step(s: State, e: Event): Option<State> {
    match e
    case Submit(job) => Some(SubmitJob(s, job))
    case Take(w) => if w < s.pool && w !in s.workers && s.queue != [] then Some(TakeJob(s, w)) else None
    case Emit(w, f) =>
      if w in s.workers then Some(s.(observers := Notify(s.observers, s.workers[w].taskId, f))) else None
    case Settle(w) => if w in s.workers then Some(SettleJob(s, w)) else None
    case Attach(o, id) =>
      if o in s.observers then None
      else Some(s.(observers := s.observers[o := Observer(id, [], false, [], false, false)]))
    case CheckLive(o) =>
      if o !in s.observers || s.observers[o].waiting then None
      else if Active(s, s.observers[o].taskId) then
        Some(s.(observers := s.observers[o := s.observers[o].(waiting := true)]))
      else Some(s.(observers := Without(s.observers, o)))
    case Receive(o) =>
      if o !in s.observers || !s.observers[o].waiting || s.observers[o].items == [] then None
      else if s.observers[o].items[0].End? then Some(s.(observers := Without(s.observers, o)))
      else Some(s.(observers := s.observers[o := s.observers[o].(items := s.observers[o].items[1..])]))
    case Detach(o) => if o in s.observers then Some(s.(observers := Without(s.observers, o))) else None
    case Shutdown => Some(StopAll(s))
  }

  function Run(s: State, es: seq<Event>): Option<State>
    decreases |es|
  {
    if es == [] then Some(s)
    else match Step(s, es[0])
      case None => None
      case Some(n) => Run(n, es[1..])
  }

  // ---------------------------------------------------------------- exclusion and conservation

  predicate QueueIsWaiting(s: State) {
    && (forall i :: 0 <= i < |s.queue| ==> s.queue[i].taskId in s.waiting)
    && (forall id :: id in s.waiting ==> exists i :: 0 <= i < |s.queue| && s.queue[i].taskId == id)
    && (forall i, j :: 0 <= i < j < |s.queue| ==> s.queue[i].taskId != s.queue[j].taskId)
  }

  predicate WorkersAreRunning(s: State) {
    && (forall w :: w in s.workers ==> w < s.pool && s.workers[w].taskId in s.running)
    && (forall id :: id in s.running ==> exists w :: w in s.workers && s.workers[w].taskId == id)
    && (forall w, v :: w in s.workers && v in s.workers && w != v ==> s.workers[w].taskId != s.workers[v].taskId)
  }

  predicate Exclusive(s: State) {
    && QueueIsWaiting(s) && WorkersAreRunning(s)
    && s.waiting !! s.running
    && s.accepted == s.dispatched + s.queue
    && |s.dispatched| == |s.workers| + s.finished
  }

  /** The observer waits for frames that nobody will send, and for a marker that is not there. */
  predicate Stranded(s: State, o: ObserverId) {
    o in s.observers && s.observers[o].waiting && !Active(s, s.observers[o].taskId) && End !in s.observers[o].items
  }

  /** A waiting observer of a task let go of has been told, unless its channel was full and held no marker. */
  predicate NotAbandoned(s: State, o: ObserverId)
    requires o in s.observers
  {
    var x := s.observers[o];
    x.waiting && !Active(s, x.taskId) ==> x.settled && (End in x.items <==> !x.endLost)
  }

  predicate Served(s: State, o: ObserverId)
    requires o in s.observers
  {
    var x := s.observers[o];
    && NotAbandoned(s, o) && |x.items| <= CHANNEL_SIZE
    && (!x.settled ==> HoldsNewest(x.items, x.sent) && !x.endLost)
  }

  predicate ObserversServed(s: State) {
    forall o :: o in s.observers ==> Served(s, o)
  }

  predicate Inv(s: State) {
    Exclusive(s) && ObserversServed(s)
  }

  lemma InitialInv(maxConcurrent: int)
    ensures Inv(Initial(maxConcurrent))
  {
  }

  lemma SubmitKeepsExclusive(s: State, job: Job)
    requires Exclusive(s)
    ensures Exclusive(SubmitJob(s, job))
  {
    if !Active(s, job.taskId) {
      var s' := SubmitJob(s, job);
      forall id | id in s'.waiting ensures exists i :: 0 <= i < |s'.queue| && s'.queue[i].taskId == id {
        if id == job.taskId {
          assert s'.queue[|s.queue|].taskId == id;
        } else {
          var i :| 0 <= i < |s.queue| && s.queue[i].taskId == id;
          assert s'.queue[i].taskId == id;
        }
      }
      assert s'.accepted == s'.dispatched + s'.queue;
    }
  }

  lemma TakeKeepsQueue(s: State, w: WorkerId)
    requires QueueIsWaiting(s) && s.queue != []
    ensures QueueIsWaiting(TakeJob(s, w))
  {
    var s' := TakeJob(s, w);
    forall id | id in s'.waiting ensures exists i :: 0 <= i < |s'.queue| && s'.queue[i].taskId == id {
      var i :| 0 <= i < |s.queue| && s.queue[i].taskId == id;
      assert s'.queue[i - 1].taskId == id;
    }
  }

  lemma TakeKeepsWorkers(s: State, w: WorkerId)
    requires WorkersAreRunning(s) && s.queue != [] && w !in s.workers && w < s.pool
    requires s.queue[0].taskId !in s.running
    ensures WorkersAreRunning(TakeJob(s, w))
  {
    var s' := TakeJob(s, w);
    var job := s.queue[0];
    forall id | id in s'.running ensures exists v :: v in s'.workers && s'.workers[v].taskId == id {
      if id == job.taskId {
        assert s'.workers[w].taskId == id;
      } else {
        var v :| v in s.workers && s.workers[v].taskId == id;
        assert s'.workers[v].taskId == id;
      }
    }
  }

  lemma TakeKeepsExclusive(s: State, w: WorkerId)
    requires Exclusive(s) && s.queue != [] && w !in s.workers && w < s.pool
    ensures Exclusive(TakeJob(s, w))
  {
    hide QueueIsWaiting, WorkersAreRunning;
    HeadIsWaiting(s);
    TakeKeepsQueue(s, w);
    TakeKeepsWorkers(s, w);
    TakeKeepsCounts(s, w);
    assert s.waiting - {s.queue[0].taskId} !! s.running + {s.queue[0].taskId};
    hide TakeJob;
  }

  lemma TakeKeepsCounts(s: State, w: WorkerId)
    requires s.queue != [] && w !in s.workers
    requires s.accepted == s.dispatched + s.queue && |s.dispatched| == |s.workers| + s.finished
    ensures var s' := TakeJob(s, w);
      s'.accepted == s'.dispatched + s'.queue && |s'.dispatched| == |s'.workers| + s'.finished
  {
    MoveHead(s.dispatched, s.queue);
    OneMoreKey(s.workers, w, s.queue[0]);
  }

  lemma MoveHead<T>(done: seq<T>, queue: seq<T>)
    requires queue != []
    ensures done + queue == (done + [queue[0]]) + queue[1..]
  {
  }

  lemma OneMoreKey<V>(m: map<nat, V>, k: nat, v: V)
    requires k !in m
    ensures |m[k := v]| == |m| + 1
  {
    assert m[k := v].Keys == m.Keys + {k};
  }

  lemma HeadIsWaiting(s: State)
    requires QueueIsWaiting(s) && s.queue != []
    ensures s.queue[0].taskId in s.waiting
  {
  }

  lemma WithoutSize<V>(m: map<nat, V>, k: nat)
    requires k in m
    ensures |Without(m, k)| == |m| - 1
  {
    assert Without(m, k).Keys == m.Keys - {k};
  }

  lemma SettleKeepsExclusive(s: State, w: WorkerId)
    requires Exclusive(s) && w in s.workers
    ensures Exclusive(SettleJob(s, w))
  {
    var s' := SettleJob(s, w);
    WithoutSize(s.workers, w);
    forall id | id in s'.running ensures exists v :: v in s'.workers && s'.workers[v].taskId == id {
      var v :| v in s.workers && s.workers[v].taskId == id;
      assert s'.workers[v].taskId == id;
    }
  }

  lemma StepKeepsExclusive(s: State, e: Event)
    requires Exclusive(s) && Step(s, e).Some?
    ensures Exclusive(Step(s, e).value)
  {
    hide SubmitJob, TakeJob, SettleJob, Notify, Without, EndStreams, Exclusive;
    match e
    case Submit(job) => SubmitKeepsExclusive(s, job);
    case Take(w) => TakeKeepsExclusive(s, w);
    case Settle(w) => SettleKeepsExclusive(s, w);
    case Shutdown => StopKeepsExclusive(s);
    case _ => SameBooks(s, Step(s, e).value);
  }

  lemma StopKeepsExclusive(s: State)
    requires Exclusive(s)
    ensures Exclusive(StopAll(s))
  {
  }

  /** Only the observers differ. */
  lemma SameBooks(s: State, s': State)
    requires Exclusive(s) && s' == s.(observers := s'.observers)
    ensures Exclusive(s')
  {
  }

  // ---------------------------------------------------------------- observers

  /** Pushing a frame keeps the newest, newest last. */
  lemma PushKeepsNewest(items: seq<Signal>, sent: seq<Frame>, f: Frame)
    requires HoldsNewest(items, sent)
    ensures HoldsNewest(PushFrame(items, f), sent + [f])
    ensures PushFrame(items, f)[|PushFrame(items, f)| - 1] == Progress(f)
  {
    var items' := PushFrame(items, f);
    var all := sent + [f];
    forall i | 0 <= i < |items'| ensures items'[i] == Frames(all[|all| - |items'|..])[i] {
      assert all[|all| - |items'|..][i] == all[|all| - |items'| + i];
      if i < |items'| - 1 {
        var k := if |items| >= CHANNEL_SIZE then i + 1 else i;
        assert items[k] == Frames(sent[|sent| - |items|..])[k];
      }
    }
  }

  lemma PopKeepsNewest(items: seq<Signal>, sent: seq<Frame>)
    requires HoldsNewest(items, sent) && items != []
    ensures HoldsNewest(items[1..], sent)
  {
    forall i | 0 <= i < |items| - 1 ensures items[1..][i] == Frames(sent[|sent| - |items| + 1..])[i] {
      assert items[i + 1] == Frames(sent[|sent| - |items|..])[i + 1];
    }
  }

  lemma StepServesObservers(s: State, e: Event)
    requires Inv(s) && Step(s, e).Some?
    ensures ObserversServed(Step(s, e).value)
  {
    hide QueueIsWaiting, HoldsNewest, PushFrame;
    var s' := Step(s, e).value;
    forall o | o in s'.observers ensures Served(s', o) {
      match e
      case Emit(w, f) => EmitServes(s, w, f, o);
      case Receive(r) => ReceiveServes(s, r, o);
      case Settle(w) => SettleServes(s, w, o);
      case Shutdown => ShutdownServes(s, o);
      case Attach(a, id) => AttachServes(s, a, id, o);
      case _ =>
    }
  }

  lemma EmitServes(s: State, w: WorkerId, f: Frame, o: ObserverId)
    requires Inv(s) && w in s.workers && o in s.observers
    ensures Served(Step(s, Emit(w, f)).value, o)
  {
    hide QueueIsWaiting, HoldsNewest;
    var x := s.observers[o];
    if x.taskId == s.workers[w].taskId && !x.settled {
      PushKeepsNewest(x.items, x.sent, f);
    }
  }

  lemma PopKeepsEnd(items: seq<Signal>)
    requires items != [] && !items[0].End?
    ensures End in items[1..] <==> End in items
  {
    assert items == [items[0]] + items[1..];
  }

  lemma ReceiveServes(s: State, r: ObserverId, o: ObserverId)
    requires Inv(s) && Step(s, Receive(r)).Some? && o in Step(s, Receive(r)).value.observers
    ensures Served(Step(s, Receive(r)).value, o)
  {
    hide QueueIsWaiting, WorkersAreRunning, HoldsNewest;
    var x := s.observers[o];
    if r == o {
      PopKeepsEnd(x.items);
      if !x.settled {
        PopKeepsNewest(x.items, x.sent);
      }
    }
  }

  /** Letting go of a task tells its observers, or records that one could not be told. */
  lemma EndTells(x: Observer)
    requires |x.items| <= CHANNEL_SIZE
    ensures End in EndFor(x).items <==> !EndFor(x).endLost
    ensures |EndFor(x).items| <= CHANNEL_SIZE && EndFor(x).settled
  {
    if |x.items| < CHANNEL_SIZE {
      assert PushEnd(x.items)[|x.items|] == End;
    }
  }

  lemma SettleServes(s: State, w: WorkerId, o: ObserverId)
    requires Inv(s) && w in s.workers && o in s.observers
    ensures Served(SettleJob(s, w), o)
  {
    hide QueueIsWaiting, HoldsNewest, PushEnd;
    EndTells(s.observers[o]);
  }

  lemma ShutdownServes(s: State, o: ObserverId)
    requires Inv(s) && o in s.observers
    ensures Served(StopAll(s), o)
  {
    hide QueueIsWaiting, WorkersAreRunning, HoldsNewest, PushEnd;
    EndTells(s.observers[o]);
    EndTells(EndFor(s.observers[o]));
  }

  lemma AttachServes(s: State, a: ObserverId, id: TaskId, o: ObserverId)
    requires Inv(s) && Step(s, Attach(a, id)).Some? && o in Step(s, Attach(a, id)).value.observers
    ensures Served(Step(s, Attach(a, id)).value, o)
  {
    hide QueueIsWaiting, WorkersAreRunning;
  }

  lemma {:induction false} RunKeepsInv(s: State, es: seq<Event>)
    requires Inv(s) && Run(s, es).Some?
    ensures Inv(Run(s, es).value) && Run(s, es).value.pool == s.pool
    decreases |es|
  {
    hide QueueIsWaiting, WorkersAreRunning, ObserversServed;
    if es != [] {
      StepKeepsExclusive(s, es[0]);
      StepServesObservers(s, es[0]);
      RunKeepsInv(Step(s, es[0]).value, es[1..]);
    }
  }

  lemma InjectionBound(workers: map<WorkerId, Job>, ids: set<TaskId>, pool: nat)
    requires forall w :: w in workers ==> w < pool
    requires forall id :: id in ids ==> exists w :: w in workers && workers[w].taskId == id
    ensures |ids| <= |workers| <= pool
  {
    BelowBound(workers.Keys, pool);
    if ids != {} {
      var id :| id in ids;
      var w :| w in workers && workers[w].taskId == id;
      WithoutSize(workers, w);
      forall i | i in ids - {id} ensures exists v :: v in Without(workers, w) && Without(workers, w)[v].taskId == i {
        var v :| v in workers && workers[v].taskId == i;
        assert v in Without(workers, w);
      }
      InjectionBound(Without(workers, w), ids - {id}, pool);
    }
  }

  lemma BelowBound(ks: set<nat>, n: nat)
    requires forall k :: k in ks ==> k < n
    ensures |ks| <= n
  {
    if n > 0 {
      BelowBound(ks - {n - 1}, n - 1);
    } else {
      assert ks == {};
    }
  }

  /**
   Exclusion and conservation, in every interleaving: the waiting ids are exactly those in the queue, once
   each; no id both waits and runs; each running id is held by exactly one worker; no more run than the
   pool is wide; nothing accepted is lost; and tickets are taken in the order they were queued.
   */
  lemma ExclusionAndConservation(maxConcurrent: int, es: seq<Event>)
    requires Run(Initial(maxConcurrent), es).Some?
    ensures var s := Run(Initial(maxConcurrent), es).value;
      && QueueIsWaiting(s) && WorkersAreRunning(s) && s.waiting !! s.running
      && |s.running| <= PoolSize(maxConcurrent)
      && |s.accepted| == |s.queue| + |s.running| + s.finished
      && s.accepted == s.dispatched + s.queue
  {
    InitialInv(maxConcurrent);
    RunKeepsInv(Initial(maxConcurrent), es);
    var s := Run(Initial(maxConcurrent), es).value;
    InjectionBound(s.workers, s.running, s.pool);
    DistinctImages(s.workers, s.running);
  }

  lemma DistinctImages(workers: map<WorkerId, Job>, ids: set<TaskId>)
    requires forall w :: w in workers ==> workers[w].taskId in ids
    requires forall w, v :: w in workers && v in workers && w != v ==> workers[w].taskId != workers[v].taskId
    ensures |workers| <= |ids|
    decreases |workers|
  {
    if workers != map[] {
      var w :| w in workers;
      WithoutSize(workers, w);
      DistinctImages(Without(workers, w), ids - {workers[w].taskId});
    }
  }

  /**
   Observer safety, in every interleaving: an observer that waits has an active task, or was told; it is stranded
   exactly when the last settlement found its channel full and without a marker.  Until a settlement its channel
   holds the newest of the frames sent.
   */
  lemma ObserverSafety(maxConcurrent: int, es: seq<Event>, o: ObserverId)
    requires Run(Initial(maxConcurrent), es).Some? && o in Run(Initial(maxConcurrent), es).value.observers
    ensures var s := Run(Initial(maxConcurrent), es).value; var x := s.observers[o];
      && (Stranded(s, o) <==> x.waiting && !Active(s, x.taskId) && x.endLost)
      && (x.endLost ==> x.settled)
      && (!x.settled ==> HoldsNewest(x.items, x.sent))
  {
    InitialInv(maxConcurrent);
    RunKeepsInv(Initial(maxConcurrent), es);
    assert Served(Run(Initial(maxConcurrent), es).value, o);
  }

  /**
   When a task settles, what decides is its observer's channel at that moment: the marker is in it afterwards
   exactly when there was room or an earlier one, and otherwise a waiting observer is stranded.
   */
  lemma EndReachesObserverIff(s: State, w: WorkerId, o: ObserverId)
    requires Inv(s) && w in s.workers && o in s.observers && s.observers[o].taskId == s.workers[w].taskId
    ensures var x, s' := s.observers[o], Step(s, Settle(w)).value;
      && (End in s'.observers[o].items <==> |x.items| < CHANNEL_SIZE || End in x.items)
      && (Stranded(s', o) <==> x.waiting && |x.items| == CHANNEL_SIZE && End !in x.items)
  {
    var items := s.observers[o].items;
    if |items| < CHANNEL_SIZE {
      assert PushEnd(items)[|items|] == End;
    }
    assert Served(s, o) && Exclusive(s);
    assert s.workers[w].taskId in s.running && s.workers[w].taskId !in s.waiting;
  }

  /** A stranded observer stays so, however many frames it still reads, until its task is submitted again. */
  lemma StrandedStays(s: State, e: Event, o: ObserverId)
    requires Inv(s) && Stranded(s, o) && Step(s, e).Some?
    requires !e.Shutdown? && e != Detach(o) && !(e.Submit? && e.job.taskId == s.observers[o].taskId)
    ensures Stranded(Step(s, e).value, o)
  {
    hide HoldsNewest, PushFrame;
    assert Served(s, o) && Exclusive(s);
    if e == Receive(o) {
      PopKeepsEnd(s.observers[o].items);
    }
  }

  /** A shutdown stops every worker, and leaves the queue as it is. */
  lemma ShutdownStops(s: State)
    ensures var n := Step(s, Shutdown);
      && n.Some? && n.value.running == {} && n.value.workers == map[]
      && n.value.queue == s.queue && n.value.waiting == s.waiting
      && n.value.accepted == s.accepted && n.value.dispatched == s.dispatched
  {
  }

  /**
   A shutdown tells every observer, whatever has become of its job: queued, running or gone.  The marker is in the
   channel afterwards exactly when there was room or an earlier one.
   */
  lemma ShutdownTellsEverybody(maxConcurrent: int, es: seq<Event>, o: ObserverId)
    requires Run(Initial(maxConcurrent), es).Some? && o in Run(Initial(maxConcurrent), es).value.observers
    ensures var s := Run(Initial(maxConcurrent), es).value; var x := s.observers[o];
      var s' := Step(s, Shutdown);
      && s'.Some? && o in s'.value.observers && s'.value.observers[o].settled
      && s'.value.observers[o].waiting == x.waiting
      && (End in s'.value.observers[o].items <==> |x.items| < CHANNEL_SIZE || End in x.items)
  {
    InitialInv(maxConcurrent);
    RunKeepsInv(Initial(maxConcurrent), es);
    var s := Run(Initial(maxConcurrent), es).value;
    assert |s.observers[o].items| <= CHANNEL_SIZE by { assert Served(s, o); }
    hide *;
    ShutdownTells(s, o);
  }

  lemma ShutdownTells(s: State, o: ObserverId)
    requires o in s.observers && |s.observers[o].items| <= CHANNEL_SIZE
    ensures var x := s.observers[o]; var s' := Step(s, Shutdown);
      && s'.Some? && o in s'.value.observers && s'.value.observers[o].settled
      && s'.value.observers[o].waiting == x.waiting
      && (End in s'.value.observers[o].items <==> |x.items| < CHANNEL_SIZE || End in x.items)
  {
    hide PushEnd;
    var items := s.observers[o].items;
    EndPushed(items);
    EndPushed(PushEnd(items));
  }

  lemma EndPushed(items: seq<Signal>)
    requires |items| <= CHANNEL_SIZE
    ensures End in PushEnd(items) <==> |items| < CHANNEL_SIZE || End in items
    ensures |items| <= |PushEnd(items)| <= CHANNEL_SIZE
    ensures |items| == CHANNEL_SIZE ==> PushEnd(items) == items
  {
    if |items| < CHANNEL_SIZE {
      assert PushEnd(items)[|items|] == End;
    }
  }

  /** An observer leaves when it likes, on finding no active job as it attaches, or on reading the marker; only then. */
  lemma ObserverLeavesIff(s: State, e: Event, o: ObserverId)
    requires o in s.observers
    ensures Step(s, Detach(o)).Some? && (!s.observers[o].waiting ==> Step(s, CheckLive(o)).Some?)
    ensures Step(s, Receive(o)).Some? <==> s.observers[o].waiting && |s.observers[o].items| > 0
    ensures Step(s, e).Some? ==>
      (o !in Step(s, e).value.observers <==>
        || e == Detach(o)
        || (e == CheckLive(o) && s.observers[o].taskId !in s.waiting + s.running)
        || (e == Receive(o) && s.observers[o].items[..1] == [End]))
  {
  }

  /** An observer whose channel holds the marker is released by reading on. */
  lemma {:induction false} ReadsToTheEnd(s: State, o: ObserverId) returns (es: seq<Event>)
    requires o in s.observers && s.observers[o].waiting && End in s.observers[o].items
    ensures (forall e :: e in es ==> e == Receive(o)) && |es| <= |s.observers[o].items|
    ensures Run(s, es).Some? && o !in Run(s, es).value.observers
    decreases |s.observers[o].items|
  {
    var n := Step(s, Receive(o)).value;
    if s.observers[o].items[0].End? {
      es := [Receive(o)];
      assert Run(n, es[1..]) == Some(n);
    } else {
      PopKeepsEnd(s.observers[o].items);
      var rest := ReadsToTheEnd(n, o);
      es := [Receive(o)] + rest;
      assert es[1..] == rest;
    }
  }

  // ---------------------------------------------------------------- what an observer is shown

  /** The frames that workers emit for a task along a run. */
  function Emitted(s: State, es: seq<Event>, id: TaskId): seq<Frame>
    decreases |es|
  {
    if es == [] || Step(s, es[0]).None? then []
    else
      (if es[0].Emit? && s.workers[es[0].from].taskId == id then [es[0].frame] else [])
      + Emitted(Step(s, es[0]).value, es[1..], id)
  }

  /** A worker lets go of the task, or the runner shuts down. */
  predicate LetGo(s: State, es: seq<Event>, id: TaskId)
    decreases |es|
  {
    es != [] && Step(s, es[0]).Some?
    && (es[0].Shutdown? || (es[0].Settle? && s.workers[es[0].done].taskId == id)
        || LetGo(Step(s, es[0]).value, es[1..], id))
  }

  /** The observer is there all along. */
  predicate Stays(s: State, es: seq<Event>, o: ObserverId)
    decreases |es|
  {
    o in s.observers && (es != [] ==> Step(s, es[0]).Some? && Stays(Step(s, es[0]).value, es[1..], o))
  }

  /** What the observer reads along a run. */
  function Reads(s: State, es: seq<Event>, o: ObserverId): seq<Signal>
    requires Stays(s, es, o)
    decreases |es|
  {
    if es == [] then []
    else (if es[0] == Receive(o) then [s.observers[o].items[0]] else []) + Reads(Step(s, es[0]).value, es[1..], o)
  }

  lemma {:induction false} ShownIsEmitted(s: State, es: seq<Event>, o: ObserverId)
    requires Stays(s, es, o)
    ensures Run(s, es).Some? && o in Run(s, es).value.observers
    ensures var x, x' := s.observers[o], Run(s, es).value.observers[o];
      && x'.taskId == x.taskId && x'.sent == x.sent + Emitted(s, es, x.taskId)
      && (x'.settled <==> x.settled || LetGo(s, es, x.taskId))
    decreases |es|
  {
    if es != [] {
      hide Step;
      OneEventSent(s, es[0], o);
      ShownIsEmitted(Step(s, es[0]).value, es[1..], o);
    }
  }

  lemma OneEventSent(s: State, e: Event, o: ObserverId)
    requires o in s.observers && Step(s, e).Some? && o in Step(s, e).value.observers
    ensures var x, x' := s.observers[o], Step(s, e).value.observers[o];
      && x'.taskId == x.taskId
      && x'.sent == x.sent + (if e.Emit? && s.workers[e.from].taskId == x.taskId then [e.frame] else [])
      && (x'.settled <==> x.settled || e.Shutdown? || (e.Settle? && s.workers[e.done].taskId == x.taskId))
  {
    hide PushFrame, PushEnd;
  }

  /**
   From its attachment on, what the channel is offered are the frames emitted for its task, in order, and the task's
   being let go of is noticed; and as long as the channel has room for all of them, what has been read and what is
   still held are just these frames.
   */
  lemma ObserverSeesItsTask(s: State, o: ObserverId, id: TaskId, es: seq<Event>)
    requires Step(s, Attach(o, id)).Some? && Stays(Step(s, Attach(o, id)).value, es, o)
    ensures var n := Step(s, Attach(o, id)).value; Run(n, es).Some? && o in Run(n, es).value.observers
    ensures var n := Step(s, Attach(o, id)).value; var x := Run(n, es).value.observers[o];
      && x.taskId == id && x.sent == Emitted(n, es, id) && (x.settled <==> LetGo(n, es, id))
      && (!x.settled && |Emitted(n, es, id)| <= CHANNEL_SIZE ==>
            Reads(n, es, o) + x.items == Frames(Emitted(n, es, id)))
  {
    hide *;
    var n := Step(s, Attach(o, id)).value;
    Attached(s, o, id);
    ShownIsEmitted(n, es, o);
    assert [] + Emitted(n, es, id) == Emitted(n, es, id);
    if !LetGo(n, es, id) && |Emitted(n, es, id)| <= CHANNEL_SIZE {
      NothingIsLost(n, es, o);
      assert [] + Frames(Emitted(n, es, id)) == Frames(Emitted(n, es, id));
    }
  }

  lemma Attached(s: State, o: ObserverId, id: TaskId)
    requires Step(s, Attach(o, id)).Some?
    ensures var n := Step(s, Attach(o, id)).value;
      o in n.observers && n.observers[o] == Observer(id, [], false, [], false, false)
  {
  }

  lemma {:induction false} NothingIsLost(s: State, es: seq<Event>, o: ObserverId)
    requires Stays(s, es, o) && !LetGo(s, es, s.observers[o].taskId)
    requires |s.observers[o].items| + |Emitted(s, es, s.observers[o].taskId)| <= CHANNEL_SIZE
    ensures Run(s, es).Some? && o in Run(s, es).value.observers
    ensures Reads(s, es, o) + Run(s, es).value.observers[o].items
            == s.observers[o].items + Frames(Emitted(s, es, s.observers[o].taskId))
    decreases |es|
  {
    var x := s.observers[o];
    if es == [] {
      assert Frames([]) == [];
    } else {
      hide Step;
      var n := Step(s, es[0]).value;
      OneEventSent(s, es[0], o);
      OneEventShown(s, es[0], o);
      var own := if es[0].Emit? && s.workers[es[0].from].taskId == x.taskId then [es[0].frame] else [];
      FramesConcat(own, Emitted(n, es[1..], x.taskId));
      NothingIsLost(n, es[1..], o);
      var read := if es[0] == Receive(o) then [x.items[0]] else [];
      assert read + n.observers[o].items == x.items + Frames(own);
      Regrouped(read, Reads(n, es[1..], o), Run(n, es[1..]).value.observers[o].items,
                n.observers[o].items, Frames(Emitted(n, es[1..], x.taskId)), x.items, Frames(own));
    }
  }

  lemma FramesConcat(a: seq<Frame>, b: seq<Frame>)
    ensures Frames(a + b) == Frames(a) + Frames(b)
  {
  }

  lemma Regrouped<T>(read: seq<T>, later: seq<T>, last: seq<T>, next: seq<T>, more: seq<T>, first: seq<T>, own: seq<T>)
    requires later + last == next + more && read + next == first + own
    ensures (read + later) + last == first + (own + more)
  {
    assert (read + later) + last == read + (later + last) == (read + next) + more;
  }

  /** One event at an observer with room: it gets its own task's frame, and nothing else, at the end. */
  lemma OneEventShown(s: State, e: Event, o: ObserverId)
    requires o in s.observers && Step(s, e).Some? && o in Step(s, e).value.observers
    requires !e.Shutdown? && !(e.Settle? && s.workers[e.done].taskId == s.observers[o].taskId)
    requires var own := if e.Emit? && s.workers[e.from].taskId == s.observers[o].taskId then 1 else 0;
      |s.observers[o].items| + own <= CHANNEL_SIZE
    ensures var x := s.observers[o];
      (if e == Receive(o) then [x.items[0]] else []) + Step(s, e).value.observers[o].items
      == x.items + Frames(if e.Emit? && s.workers[e.from].taskId == x.taskId then [e.frame] else [])
  {
    var x := s.observers[o];
    assert Frames([]) == [] && (e.Emit? ==> Frames([e.frame]) == [Progress(e.frame)]);
    assert x.items + [] == x.items;
  }

  // ---------------------------------------------------------------- an observer that is never told

  lemma {:induction false} RunAppend(s: State, es: seq<Event>, e: Event)
    requires Run(s, es).Some? && Step(Run(s, es).value, e).Some?
    ensures Run(s, es + [e]) == Step(Run(s, es).value, e)
    decreases |es|
  {
    hide Step;
    if es == [] {
      assert [] + [e] == [e] && [e][1..] == [];
      assert Run(Step(s, e).value, []) == Step(s, e);
    } else {
      assert (es + [e])[1..] == es[1..] + [e];
      RunAppend(Step(s, es[0]).value, es[1..], e);
    }
  }

  /** One job running, with one observer waiting whose channel holds the given frames. */
  function Watched(maxConcurrent: int, job: Job, o: ObserverId, frames: seq<Frame>): State {
    State(PoolSize(maxConcurrent), [], {}, {job.taskId}, map[0 := job],
      map[o := Observer(job.taskId, Frames(frames), true, frames, false, false)], [job], [job], 0)
  }

  lemma WatchedIsReached(maxConcurrent: int, job: Job, o: ObserverId) returns (es: seq<Event>)
    ensures Run(Initial(maxConcurrent), es) == Some(Watched(maxConcurrent, job, o, []))
  {
    var s := Initial(maxConcurrent);
    var n := SubmitJob(s, job);
    assert Run(s, []) == Some(s);
    RunAppend(s, [], Event.Submit(job));
    es := [] + [Event.Submit(job)];
    RunAppend(s, es, Take(0));
    es := es + [Take(0)];
    hide Run;
    n := TakeJob(n, 0);
    assert n == State(PoolSize(maxConcurrent), [], {}, {job.taskId}, map[0 := job], map[], [job], [job], 0);
    RunAppend(s, es, Attach(o, job.taskId));
    es := es + [Attach(o, job.taskId)];
    RunAppend(s, es, CheckLive(o));
    es := es + [CheckLive(o)];
    assert Frames([]) == [];
    var x := Observer(job.taskId, [], true, [], false, false);
    assert n.(observers := n.observers[o := x.(waiting := false)][o := x]) == Watched(maxConcurrent, job, o, []);
  }

  /** Frames fill the channel while the observer does not read. */
  lemma {:induction false} FramesFill(maxConcurrent: int, job: Job, o: ObserverId, n: nat)
      returns (es: seq<Event>, frames: seq<Frame>)
    requires n <= CHANNEL_SIZE
    ensures |frames| == n && Run(Initial(maxConcurrent), es) == Some(Watched(maxConcurrent, job, o, frames))
  {
    if n == 0 {
      es := WatchedIsReached(maxConcurrent, job, o);
      frames := [];
    } else {
      var front: seq<Frame>;
      es, front := FramesFill(maxConcurrent, job, o, n - 1);
      frames := front + [n];
      RunAppend(Initial(maxConcurrent), es, Emit(0, n));
      es := es + [Emit(0, n)];
      hide Run;
      OneMoreFrame(maxConcurrent, job, o, front, n);
    }
  }

  lemma OneMoreFrame(maxConcurrent: int, job: Job, o: ObserverId, front: seq<Frame>, f: Frame)
    requires |front| < CHANNEL_SIZE
    ensures Step(Watched(maxConcurrent, job, o, front), Emit(0, f)) == Some(Watched(maxConcurrent, job, o, front + [f]))
  {
    assert Frames(front + [f]) == Frames(front) + [Progress(f)];
    var s := Watched(maxConcurrent, job, o, front);
    assert Notify(s.observers, job.taskId, f) == Watched(maxConcurrent, job, o, front + [f]).observers;
  }

  /** Submitted, taken, watched, 64 frames, settled: the observer waits, and will not hear of the end. */
  lemma WitnessStrandedObserver(maxConcurrent: int, job: Job, o: ObserverId) returns (es: seq<Event>)
    ensures Run(Initial(maxConcurrent), es).Some? && Stranded(Run(Initial(maxConcurrent), es).value, o)
  {
    var frames: seq<Frame>;
    es, frames := FramesFill(maxConcurrent, job, o, CHANNEL_SIZE);
    RunAppend(Initial(maxConcurrent), es, Settle(0));
    es := es + [Settle(0)];
    hide Run;
  }

  // ---------------------------------------------------------------- the code of the blocks

  /** One observer's bounded queue. */
  class Channel {
    var items: seq<Signal>

    constructor ()
      ensures items == []
    {
      items := [];
    }
  }

  /**
   The runner's own fields.  `state` is the transition system's view of them, history included; its
   observers are the channel objects here, so that part of it stays empty.
   */
  class Runner {
    var jobQueue: seq<Job>
    var waitingTaskIds: set<TaskId>
    var runningTaskIds: set<TaskId>
    var latestProgress: map<TaskId, Frame>
    var observerChannels: map<TaskId, set<Channel>>
    ghost var state: State

    ghost predicate Valid()
      reads this
    {
      && state.queue == jobQueue && state.waiting == waitingTaskIds && state.running == runningTaskIds
      && state.observers == map[] && Exclusive(state)
    }

    constructor (maxConcurrent: int)
      ensures Valid() && state == Initial(maxConcurrent) && observerChannels == map[]
    {
      jobQueue, waitingTaskIds, runningTaskIds := [], {}, {};
      latestProgress, observerChannels := map[], map[];
      state := Initial(maxConcurrent);
    }

    function ChannelsOf(taskId: TaskId): set<Channel>
      reads this
    {
      if taskId in observerChannels then observerChannels[taskId] else {}
    }

    predicate IsActive(taskId: TaskId)
      reads this
    {
      taskId in waitingTaskIds || taskId in runningTaskIds
    }

    /** A submission of an active task is ignored. */
    method Submit(job: Job)
      requires Valid()
      modifies this`jobQueue, this`waitingTaskIds, this`state
      ensures Valid() && state == SubmitJob(old(state), job)
    {
      if IsActive(job.taskId) {
        return;
      }
      SubmitKeepsExclusive(state, job);
      state := SubmitJob(state, job);
      waitingTaskIds := waitingTaskIds + {job.taskId};
      jobQueue := jobQueue + [job];
    }

    /** The head of the worker loop: an idle worker takes the oldest ticket. */
    method Take(ghost worker: WorkerId) returns (job: Job)
      requires Valid() && jobQueue != [] && worker < state.pool && worker !in state.workers
      modifies this`jobQueue, this`waitingTaskIds, this`runningTaskIds, this`state
      ensures Valid() && state == TakeJob(old(state), worker) && job == old(jobQueue)[0]
    {
      TakeKeepsExclusive(state, worker);
      state := TakeJob(state, worker);
      job := jobQueue[0];
      jobQueue := jobQueue[1..];
      waitingTaskIds := waitingTaskIds - {job.taskId};
      runningTaskIds := runningTaskIds + {job.taskId};
    }

    /** The `finally` of the worker loop: the task is let go of, and its observers are told. */
    method Finish(ghost worker: WorkerId, job: Job)
      requires Valid() && worker in state.workers && state.workers[worker] == job
      modifies this`runningTaskIds, this`state, ChannelsOf(job.taskId)
      ensures Valid() && state == SettleJob(old(state), worker)
      ensures forall c :: c in ChannelsOf(job.taskId) ==> c.items == PushEnd(old(c.items))
    {
      SettleKeepsExclusive(state, worker);
      assert EndStreams(state.observers, {job.taskId}) == map[];
      state := SettleJob(state, worker);
      runningTaskIds := runningTaskIds - {job.taskId};
      EndObserverStreams(job.taskId);
    }

    /** Every observer of the task gets the frame; one that lags behind loses its oldest instead. */
    method Broadcast(taskId: TaskId, frame: Frame)
      modifies this`latestProgress, ChannelsOf(taskId)
      ensures latestProgress == old(latestProgress)[taskId := frame]
      ensures forall c :: c in ChannelsOf(taskId) ==> c.items == PushFrame(old(c.items), frame)
    {
      latestProgress := latestProgress[taskId := frame];
      var left := ChannelsOf(taskId);
      while left != {}
        invariant left <= ChannelsOf(taskId)
        invariant forall c :: c in left ==> c.items == old(c.items)
        invariant forall c :: c in ChannelsOf(taskId) - left ==> c.items == PushFrame(old(c.items), frame)
        invariant latestProgress == old(latestProgress)[taskId := frame]
        decreases |left|
      {
        var c :| c in left;
        if |c.items| >= CHANNEL_SIZE {
          c.items := c.items[1..];
        }
        c.items := c.items + [Progress(frame)];
        left := left - {c};
      }
    }

    method EndObserverStreams(taskId: TaskId)
      modifies ChannelsOf(taskId)
      ensures forall c :: c in ChannelsOf(taskId) ==> c.items == PushEnd(old(c.items))
    {
      var left := ChannelsOf(taskId);
      while left != {}
        invariant left <= ChannelsOf(taskId)
        invariant forall c :: c in left ==> c.items == old(c.items)
        invariant forall c :: c in ChannelsOf(taskId) - left ==> c.items == PushEnd(old(c.items))
        decreases |left|
      {
        var c :| c in left;
        if |c.items| < CHANNEL_SIZE {
          c.items := c.items + [End];
        }
        left := left - {c};
      }
    }

    function AllChannels(): set<Channel>
      reads this
    {
      set id, c | id in observerChannels && c in observerChannels[id] :: c
    }

    /** No channel is registered for two tasks. */
    predicate ChannelsApart()
      reads this
    {
      forall a, b :: a in observerChannels && b in observerChannels && a != b ==>
        observerChannels[a] !! observerChannels[b]
    }

    /** The last part of `shutdown`: every observer is told, of whatever task. */
    method EndAllStreams()
      requires ChannelsApart()
      modifies AllChannels()
      ensures forall c :: c in AllChannels() ==> c.items == PushEnd(old(c.items))
    {
      hide PushEnd;
      var left := observerChannels.Keys;
      while left != {}
        invariant left <= observerChannels.Keys
        invariant forall id, c :: id in left && c in observerChannels[id] ==> c.items == old(c.items)
        invariant forall id, c :: id in observerChannels.Keys - left && c in observerChannels[id] ==>
            c.items == PushEnd(old(c.items))
        decreases |left|
      {
        var id :| id in left;
        assert ChannelsOf(id) <= AllChannels();
        EndObserverStreams(id);
        left := left - {id};
      }
    }

    /** The channel is registered before liveness is looked at. */
    method Attach(taskId: TaskId) returns (channel: Channel)
      modifies this`observerChannels
      ensures fresh(channel) && channel.items == [] && (old(ChannelsApart()) ==> ChannelsApart())
      ensures ChannelsOf(taskId) == old(ChannelsOf(taskId)) + {channel}
      ensures forall id :: id != taskId ==> ChannelsOf(id) == old(ChannelsOf(id))
    {
      channel := new Channel();
      observerChannels := observerChannels[taskId := ChannelsOf(taskId) + {channel}];
    }

    /** Detaching removes that observer's channel only, and a task with no observer leaves no entry. */
    method Detach(taskId: TaskId, channel: Channel)
      modifies this`observerChannels
      ensures ChannelsOf(taskId) == old(ChannelsOf(taskId)) - {channel}
      ensures taskId in observerChannels ==> observerChannels[taskId] != {}
      ensures old(ChannelsApart()) ==> ChannelsApart()
      ensures forall id :: id != taskId ==> ChannelsOf(id) == old(ChannelsOf(id))
    {
      if taskId in observerChannels {
        var rest := observerChannels[taskId] - {channel};
        if rest == {} {
          observerChannels := map id | id in observerChannels && id != taskId :: observerChannels[id];
        } else {
          observerChannels := observerChannels[taskId := rest];
        }
      }
    }
  }
}
