/** What holds in every run of the TCP loop, and what becomes of freed events. */
module TcpTheorems {
  import opened Sequences
  import opened TcpEvent
  import opened TcpInvariant
  import opened TcpOutcomes
  import opened TcpLoop
  import opened TcpSafety

  ghost predicate IsRun(w: World, steps: seq<Step>)
    decreases |steps|
  {
    steps == [] || (Enabled(w, steps[0]) && IsRun(Apply(w, steps[0]), steps[1..]))
  }

  ghost function After(w: World, steps: seq<Step>): World
    requires IsRun(w, steps)
    decreases |steps|
  {
    if steps == [] then w else After(Apply(w, steps[0]), steps[1..])
  }

  /** Steps that only move the loop to its next phase. */
  lemma PhaseStepKeeps(w: World, s: Step)
    requires Inv(w) && Enabled(w, s) && (s == BeginTurn || s == BeginWait || s == EndWait || s == EndTurn)
    ensures Inv(Apply(w, s))
  {
  }

  predicate IsCall(s: Step) {
    s.New? || s.StartCall? || s.ListenCall? || s.FreeCall?
  }

  lemma CallKeeps(w: World, s: Step)
    requires Inv(w) && Enabled(w, s) && IsCall(s)
    ensures Inv(Apply(w, s))
  {
    match s
    case New => NewKeeps(w, FRESH);
    case StartCall(id, k, args, e) => StartKeeps(w, id, k, args, e);
    case ListenCall(id, valid, socket, register, ready) => ListenKeeps(w, id, valid, socket, register, ready);
    case FreeCall(id) => FreeKeeps(w, id);
  }

  lemma StepKeeps(w: World, s: Step)
    requires Inv(w) && Enabled(w, s)
    ensures Inv(Apply(w, s))
  {
    if IsCall(s) {
      CallKeeps(w, s);
    } else {
      match s
      case TimeoutFires(id, d, u) => TimeoutKeeps(w, id, d, u);
      case Sweep => SweepKeeps(w);
      case DrainFake => DrainKeeps(w);
      case ReportReady(id, d, report) => ReportKeeps(w, id, d, report);
      case Dequeue(ev, status) => DequeueKeeps(w, ev, status);
      case Deliver(u, room) => DeliverKeeps(w, u, room);
      case _ => PhaseStepKeeps(w, s);
    }
  }

  lemma BackendIsFixed(w: World, s: Step)
    requires Enabled(w, s)
    ensures Apply(w, s).backend == w.backend
  {
  }

  lemma {:induction false} RunKeeps(w: World, steps: seq<Step>)
    requires Inv(w) && IsRun(w, steps)
    ensures Inv(After(w, steps)) && After(w, steps).backend == w.backend
    decreases |steps|
  {
    if steps == [] {
    } else {
      StepKeeps(w, steps[0]);
      BackendIsFixed(w, steps[0]);
      RunKeeps(Apply(w, steps[0]), steps[1..]);
    }
  }

  /** All completions under way for one direction of one event. */
  ghost function UnderWay(w: World, ev: Ev): nat {
    multiset(w.fake)[ev] + multiset(w.batch)[ev] + multiset(w.kernel)[ev]
  }

  lemma {:induction false} DistinctOnce<T>(s: seq<T>, x: T)
    requires Distinct(s)
    ensures multiset(s)[x] <= 1
  {
    if s == [] {
    } else {
      DistinctOnce(s[1..], x);
      assert s == [s[0]] + s[1..] && s[0] !in s[1..];
    }
  }

  /** In every run, at every moment: each direction of each event has at most one completion under way; it
      belongs to an event that is not released and whose flag is set. No completion ever reaches a
      released event or finds its flag cleared. */
  lemma CompletionsAreTracked(b: Backend, steps: seq<Step>, ev: Ev)
    requires IsRun(Init(b), steps)
    ensures var w := After(Init(b), steps);
      && !w.fault && UnderWay(w, ev) <= 1
      && (UnderWay(w, ev) > 0 ==> ev.id in w.objs && ev.id !in w.released && w.objs[ev.id].Flag(ev.dir))
      && (b == Iocp ==> (UnderWay(w, ev) > 0 <==> ev.id in w.objs && w.objs[ev.id].Flag(ev.dir)))
  {
    RunKeeps(Init(b), steps);
    var w := After(Init(b), steps);
    DistinctOnce(w.fake, ev);
    DistinctOnce(w.batch, ev);
    assert ev in w.fake || ev in w.batch || ev in w.kernel ==> Awaited(w.objs, ev);
    assert Ev(ev.id, ev.dir) == ev;
  }

  /** In every run: a callback runs at most once, whether by completion or by timeout; it is the callback
      of an accepted call on that event, run as the operation that call started and with the buffer it
      passed; and it never runs once the event is freed. */
  lemma CallbacksRunOnce(b: Backend, steps: seq<Step>, i: nat)
    requires IsRun(Init(b), steps) && i < |After(Init(b), steps).log|
    ensures var w := After(Init(b), steps); var e := w.log[i];
      && e.call.tok in w.ops && w.ops[e.call.tok] == Op(e.id, e.call.kind)
      && (e.call.kind == Reading || e.call.kind == Writing ==> e.call.buf == Of(e.call.tok))
      && (e.id in w.freed ==> i < w.freed[e.id])
      && forall j | 0 <= j < |w.log| && j != i :: w.log[j].call.tok != e.call.tok
  {
    RunKeeps(Init(b), steps);
    assert EntryOk(After(Init(b), steps).ops, After(Init(b), steps).freed, After(Init(b), steps).log[i], i);
  }

  /** What an event in order looks like from outside. */
  predicate InOrder(t: Tcp) {
    && !(t.connected && t.listening)
    && (forall d :: t.Armed(d) ==> t.Flag(d) && t.Callback(PendingKind(t, d)).Of?
                                   && (if d == Rd then t.opRead else t.opWrite) == For(PendingKind(t, d)))
    && (t.onRead.Of? ==> t.Buffer(Rd) == t.onRead) && (t.onWrite.Of? ==> t.Buffer(Wr) == t.onWrite)
    && (t.reading && t.listening ==> t.data.AcceptData?)
  }

  lemma OkIsInOrder(b: Backend, t: Tcp)
    requires TcpOk(b, t)
    ensures InOrder(t)
  {
  }

  /** In every run: no event is both connected and listening, an armed timeout belongs to the pending
      operation of its direction, and the union holds the view that operation will read. */
  lemma EventsAreInOrder(b: Backend, steps: seq<Step>, id: Id)
    requires IsRun(Init(b), steps) && id in After(Init(b), steps).objs
    ensures InOrder(After(Init(b), steps).objs[id])
  {
    RunKeeps(Init(b), steps);
    OkIsInOrder(b, After(Init(b), steps).objs[id]);
  }

  // ---------- what becomes of a freed event ----------

  ghost predicate IsUnderWay(w: World, ev: Ev) {
    ev in w.fake || ev in w.batch || ev in w.kernel
  }

  /** A freed event with a pending operation for which no completion is under way. */
  ghost predicate Stranded(w: World, id: Id, d: Dir) {
    w.backend == Reactor && id in w.objs && w.objs[id].deleted && w.objs[id].Flag(d) && !IsUnderWay(w, Ev(id, d))
  }

  lemma StrandedThroughHandler(w: World, r: Delivered, id: Id, d: Dir)
    requires Stranded(w, id, d) && w.batch != [] && w.batch[0].id in w.objs && w.batch[0] != Ev(id, d)
    requires Concludes(w.objs[w.batch[0].id], r, w.batch[0].dir, false)
    ensures Stranded(Handled(w, w.batch[0].id, r), id, d)
  {
    assert forall e | e in w.batch[1..] :: e in w.batch;
  }

  lemma StrandedThroughDelivery(w: World, u: bool, room: bool, id: Id, d: Dir)
    requires ObjsOk(w.backend, w.objs, w.nextId) && EventsOk(w.backend, w.objs, w.fake, w.kernel, w.batch)
    requires Enabled(w, Deliver(u, room)) && Stranded(w, id, d)
    ensures Stranded(ApplyDeliver(w, u, room), id, d)
  {
    var ev := w.batch[0];
    assert Deliverable(w.objs, ev) && ev != Ev(id, d);
    var r := Allocated(Complete(w.backend, w.objs[ev.id], ev.dir, u), room);
    CompleteKeepsOk(w.backend, w.objs[ev.id], ev.dir, u);
    StrandedThroughHandler(w, r, id, d);
    assert id < w.nextId;
  }

  /** A freed event is closed, has no timeout, and clients make no more calls on it. */
  ghost predicate StrandedClosed(w: World, id: Id, d: Dir) {
    && Stranded(w, id, d) && id < w.nextId && w.kernel == {}
    && !w.objs[id].open && !w.objs[id].armedRead && !w.objs[id].armedWrite
  }

  lemma StrandedThroughStart(w: World, other: Id, k: Kind, r: Started, id: Id, d: Dir)
    requires Stranded(w, id, d) && other != id
    ensures Stranded(ApplyStart(w, other, k, r), id, d)
  {
    assert forall ev | ev in w.fake + [Ev(other, DirOf(k))] :: ev in w.fake || ev == Ev(other, DirOf(k));
  }

  lemma StrandedThroughFree(w: World, other: Id, r: Remains, id: Id, d: Dir)
    requires Stranded(w, id, d) && other != id
    ensures Stranded(ApplyFree(w, other, r), id, d)
  {
  }

  lemma StrandedThroughCalls(w: World, s: Step, id: Id, d: Dir)
    requires Enabled(w, s) && IsCall(s) && StrandedClosed(w, id, d)
    ensures Stranded(Apply(w, s), id, d)
  {
    match s
    case StartCall(other, k, args, e) =>
      StrandedThroughStart(w, other, k, Start(w.backend, w.objs[other], k, args, w.nextTok, e), id, d);
    case FreeCall(other) => StrandedThroughFree(w, other, Free(w.objs[other]), id, d);
    case New =>
    case ListenCall(other, _, _, _, _) => assert other != id;
  }

  lemma StrandedThroughDrain(w: World, id: Id, d: Dir)
    requires Enabled(w, DrainFake) && Stranded(w, id, d)
    ensures Stranded(Apply(w, DrainFake), id, d)
  {
    var n := if |w.fake| > MAX_EVENTS then MAX_EVENTS else |w.fake|;
    assert forall ev | ev in w.fake[..n] || ev in w.fake[n..] :: ev in w.fake;
  }

  lemma StrandedThroughOthers(w: World, s: Step, id: Id, d: Dir)
    requires Enabled(w, s) && !IsCall(s) && !s.Deliver? && !s.DrainFake? && StrandedClosed(w, id, d)
    ensures Stranded(Apply(w, s), id, d)
  {
  }

  lemma StrandedStays(w: World, s: Step, id: Id, d: Dir)
    requires Inv(w) && Enabled(w, s) && Stranded(w, id, d)
    ensures Stranded(Apply(w, s), id, d)
  {
    assert TcpOk(w.backend, w.objs[id]);
    if s.Deliver? {
      StrandedThroughDelivery(w, s.unregister, s.room, id, d);
    } else if s.DrainFake? {
      StrandedThroughDrain(w, id, d);
    } else if IsCall(s) {
      StrandedThroughCalls(w, s, id, d);
    } else {
      StrandedThroughOthers(w, s, id, d);
    }
  }

  /** With readiness backends the memory of a stranded event is never given back while the loop lives. */
  lemma {:induction false} StrandedForever(w: World, steps: seq<Step>, id: Id, d: Dir)
    requires Inv(w) && IsRun(w, steps) && Stranded(w, id, d)
    ensures Stranded(After(w, steps), id, d) && id !in After(w, steps).released
    decreases |steps|
  {
    if steps == [] {
    } else {
      StepKeeps(w, steps[0]);
      StrandedStays(w, steps[0], id, d);
      StrandedForever(Apply(w, steps[0]), steps[1..], id, d);
    }
  }

  /** A freed event that waits only for completions that are under way. */
  ghost predicate Reclaimable(w: World, id: Id) {
    id in w.objs && w.objs[id].deleted && forall d | w.objs[id].Flag(d) :: IsUnderWay(w, Ev(id, d))
  }

  /** What the loop does next when nothing new is asked of it. */
  ghost function NextStep(w: World): Step {
    match w.phase
    case Outside => BeginTurn
    case Firing => Step.Sweep
    case Swept => if w.fake != [] then DrainFake else BeginWait
    case Collecting =>
      if w.batch == [] && w.kernel != {} then var ev :| ev in w.kernel; Dequeue(ev, 0) else EndWait
    case Dispatching => if w.batch != [] then Deliver(true, false) else BeginTurn
  }

  ghost function Total(w: World): nat {
    |w.fake| + |w.batch| + |w.kernel|
  }

  ghost function Rank(w: World): nat {
    match w.phase
    case Dispatching => if w.batch != [] then 1 else 8
    case Collecting => if w.batch != [] then 2 else if w.kernel != {} then 3 else 9
    case Swept => if w.fake != [] || w.kernel != {} then 4 else 10
    case Firing => 7
    case Outside => 8
  }

  lemma HandlerKeepsReclaimable(w: World, r: Delivered, id: Id)
    requires Reclaimable(w, id) && w.batch != [] && w.batch[0].id in w.objs
    requires Concludes(w.objs[w.batch[0].id], r, w.batch[0].dir, false)
    ensures Reclaimable(Handled(w, w.batch[0].id, r), id)
  {
    assert forall e | e in w.batch && e != w.batch[0] :: e in w.batch[1..];
  }

  lemma DeliveryKeepsReclaimable(w: World, id: Id)
    requires ObjsOk(w.backend, w.objs, w.nextId) && EventsOk(w.backend, w.objs, w.fake, w.kernel, w.batch)
    requires Reclaimable(w, id) && w.batch != []
    ensures Reclaimable(ApplyDeliver(w, true, false), id)
  {
    var ev := w.batch[0];
    assert Deliverable(w.objs, ev);
    CompleteKeepsOk(w.backend, w.objs[ev.id], ev.dir, true);
    HandlerKeepsReclaimable(w, Allocated(Complete(w.backend, w.objs[ev.id], ev.dir, true), false), id);
  }

  lemma DeliveryAdvances(w: World, id: Id)
    requires ObjsOk(w.backend, w.objs, w.nextId) && EventsOk(w.backend, w.objs, w.fake, w.kernel, w.batch)
    requires Reclaimable(w, id) && w.phase == Dispatching && w.batch != []
    ensures var w' := ApplyDeliver(w, true, false); Reclaimable(w', id) && Total(w') < Total(w)
  {
    DeliveryKeepsReclaimable(w, id);
  }

  lemma SweepAdvances(w: World, id: Id)
    requires EndgameOk(w.objs, w.endgame, w.freed, w.released, w.nextId) && PhaseOk(w)
    requires Reclaimable(w, id) && w.phase == Firing
    ensures var w' := ApplySweep(w);
      id in w'.released || (Reclaimable(w', id) && Total(w') == Total(w) && Rank(w') < Rank(w))
  {
    if id !in Idle(w) {
      var d :| w.objs[id].Flag(d);
      assert IsUnderWay(w, Ev(id, d));
    }
  }

  lemma DrainAdvances(w: World, id: Id)
    requires PhaseOk(w) && Reclaimable(w, id) && w.phase == Swept && w.fake != []
    ensures var w' := Apply(w, DrainFake); Reclaimable(w', id) && Total(w') == Total(w) && Rank(w') < Rank(w)
  {
    var n := if |w.fake| > MAX_EVENTS then MAX_EVENTS else |w.fake|;
    assert w.fake == w.fake[..n] + w.fake[n..];
  }

  lemma DequeueAdvances(w: World, id: Id, ev: Ev, status: int)
    requires PhaseOk(w) && Reclaimable(w, id) && Enabled(w, Dequeue(ev, status)) && w.batch == []
    requires ev.id in w.objs
    ensures var w' := Apply(w, Dequeue(ev, status)); Reclaimable(w', id) && Total(w') == Total(w) && Rank(w') < Rank(w)
  {
    var t, w' := w.objs[ev.id], Apply(w, Dequeue(ev, status));
    assert w'.objs == w.objs[ev.id := SetStatus(t, ev.dir, status)] && w'.batch == [ev];
    assert forall o :: SetStatus(t, ev.dir, status).Flag(o) == t.Flag(o);
  }

  lemma OthersAdvance(w: World, id: Id)
    requires PhaseOk(w) && EventsOk(w.backend, w.objs, w.fake, w.kernel, w.batch)
    requires Reclaimable(w, id) && w.phase != Firing && !(w.phase == Dispatching && w.batch != [])
    ensures var s := NextStep(w);
      Enabled(w, s) && var w' := Apply(w, s); Reclaimable(w', id) && Total(w') == Total(w) && Rank(w') < Rank(w)
  {
    if w.phase == Swept && w.fake != [] {
      DrainAdvances(w, id);
    } else if w.phase == Collecting && w.batch == [] && w.kernel != {} {
      assert Awaited(w.objs, NextStep(w).ev);
      DequeueAdvances(w, id, NextStep(w).ev, 0);
    }
  }

  /** Nearer to the release: fewer completions under way, or as many in a later phase. */
  ghost predicate Nearer(w': World, w: World) {
    Total(w') < Total(w) || (Total(w') == Total(w) && Rank(w') < Rank(w))
  }

  lemma NextAdvances(w: World, id: Id)
    requires Inv(w) && Reclaimable(w, id)
    ensures Enabled(w, NextStep(w)) && !IsCall(NextStep(w))
    ensures var w' := Apply(w, NextStep(w)); id in w'.released || (Reclaimable(w', id) && Nearer(w', w))
  {
    if w.phase == Firing {
      SweepAdvances(w, id);
    } else if w.phase == Dispatching && w.batch != [] {
      DeliveryAdvances(w, id);
    } else {
      OthersAdvance(w, id);
    }
  }

  /** The loop gives back a reclaimable event by itself. */
  lemma {:induction false} Reclaim(w: World, id: Id) returns (steps: seq<Step>)
    requires Inv(w) && Reclaimable(w, id)
    ensures IsRun(w, steps) && id in After(w, steps).released && forall s | s in steps :: !IsCall(s)
    decreases Total(w), Rank(w)
  {
    var s := NextStep(w);
    NextAdvances(w, id);
    StepKeeps(w, s);
    if id in Apply(w, s).released {
      steps := [s];
      assert IsRun(Apply(w, s), []);
    } else {
      var rest := Reclaim(Apply(w, s), id);
      steps := [s] + rest;
      assert steps[1..] == rest;
    }
  }

  /** The memory of a freed event is given back in some continuation of the run exactly when every
      pending operation of it has a completion under way (with completion ports: always). */
  lemma FreedEventIsReleasedIff(w: World, id: Id)
    requires Inv(w) && id in w.objs && w.objs[id].deleted
    ensures (exists steps :: IsRun(w, steps) && id in After(w, steps).released) <==> Reclaimable(w, id)
    ensures w.backend == Iocp ==> Reclaimable(w, id)
  {
    if Reclaimable(w, id) {
      var steps := Reclaim(w, id);
    } else {
      var d :| w.objs[id].Flag(d) && !IsUnderWay(w, Ev(id, d));
      forall steps | IsRun(w, steps) ensures id !in After(w, steps).released {
        StrandedForever(w, steps, id, d);
      }
    }
  }

  /** One round of the enforcing sweep. Releasing an event twice, or one that is gone, is a fault. */
  function FreeFirst(w: World): World
    requires w.endgame != []
  {
    var id := w.endgame[0];
    w.(objs := w.objs - {id}, released := w.released + {id}, endgame := w.endgame[1..],
       fault := w.fault || id in w.released || id !in w.objs)
  }

  /** `nanoev_loop_free`: the poller and its queue go, then the enforcing sweep frees what is left. Overlapped
      operations that were under way still are. */
  function LoopFree(w: World): World
    decreases |w.endgame|
  {
    if w.endgame == [] then w.(fake := []) else LoopFree(FreeFirst(w))
  }

  lemma {:induction false} LoopFreeSweeps(w: World)
    requires !w.fault && EndgameOk(w.objs, w.endgame, w.freed, w.released, w.nextId)
    ensures var w' := LoopFree(w);
      && !w'.fault && w'.endgame == [] && w'.kernel == w.kernel && w'.freed == w.freed
      && EndgameOk(w'.objs, [], w'.freed, w'.released, w'.nextId)
      && (forall id | id in w'.objs :: id in w.objs && w'.objs[id] == w.objs[id])
      && (forall id :: id in w'.released <==> id in w.released || id in w.endgame)
    decreases |w.endgame|
  {
    if w.endgame == [] {
    } else {
      var w1 := FreeFirst(w);
      assert forall id | id in w.endgame :: id == w.endgame[0] || id in w1.endgame;
      assert w.endgame[0] !in w1.endgame;
      LoopFreeSweeps(w1);
    }
  }

  /** In every run: freeing the loop gives back every freed event that is left, each once. Memory that the
      kernel still works on is given back exactly when some freed event has an overlapped operation pending. */
  lemma LoopFreeReleasesAllFreed(b: Backend, steps: seq<Step>)
    requires IsRun(Init(b), steps) && After(Init(b), steps).phase == Outside
    ensures var w := After(Init(b), steps); var w' := LoopFree(w);
      && !w'.fault && (forall id | id in w.freed :: id in w'.released && id !in w'.objs)
      && ((exists ev :: ev in w'.kernel && ev.id in w'.released) <==>
          b == Iocp && exists id, d :: id in w.freed && id in w.objs && w.objs[id].Flag(d))
  {
    RunKeeps(Init(b), steps);
    var w := After(Init(b), steps);
    LoopFreeSweeps(w);
    KernelHoldsFreedIff(w, LoopFree(w).released);
  }

  lemma KernelHoldsFreedIff(w: World, released: set<Id>)
    requires EventsOk(w.backend, w.objs, w.fake, w.kernel, [])
    requires EndgameOk(w.objs, w.endgame, w.freed, w.released, w.nextId)
    requires forall id :: id in released <==> id in w.released || id in w.endgame
    ensures (exists ev :: ev in w.kernel && ev.id in released) <==>
      w.backend == Iocp && exists id, d :: id in w.freed && id in w.objs && w.objs[id].Flag(d)
  {
    forall id, d | w.backend == Iocp && id in w.freed && id in w.objs && w.objs[id].Flag(d)
      ensures Ev(id, d) in w.kernel
    {
    }
    forall ev | ev in w.kernel && ev.id in released
      ensures ev.id in w.freed && ev.id in w.objs && w.objs[ev.id].Flag(ev.dir)
    {
      assert Awaited(w.objs, ev);
    }
  }

  /** Why completion ports need memory for the timeout: if arming fails after the operation was started, the
      call fails without leaving a flag, and freeing the event gives it back at once although the
      kernel still holds its operation. */
  lemma FailedTimerLeavesOrphan(w: World, id: Id)
    requires w.backend == Iocp && id in w.objs && w.objs[id] == FRESH
    ensures var r := Connect(Iocp, FRESH, Args(true, true), w.nextTok, Env(GoodSocket, InProgress, true, true, false));
      var w' := ApplyFree(ApplyStart(w, id, Connecting, r), id, Free(r.tcp));
      r.code == Fail && Ev(id, Wr) in w'.kernel && id !in w'.objs && id in w'.released
  {
  }

  /** A loop without events in which the kernel still holds an operation of the first one. */
  function Orphaned(phase: Phase): World {
    World(Iocp, phase, map[], 1, [], {Ev(0, Wr)}, [], {}, [], map[], 0, [], map[0 := 0], {0}, false)
  }

  /** It is reached by creating an event, connecting it without memory for the timeout, and freeing it. */
  lemma OrphanIsReached()
    ensures var w := Apply(Init(Iocp), New);
      var r := Connect(Iocp, FRESH, Args(true, true), 0, Env(GoodSocket, InProgress, true, true, false));
      0 in w.objs && w.objs[0] == FRESH && ApplyFree(ApplyStart(w, 0, Connecting, r), 0, Free(r.tcp)) ==
        Orphaned(Outside)
  {
  }

  lemma OrphanSweeps()
    ensures Apply(Orphaned(Firing), Step.Sweep) == Orphaned(Swept)
  {
    assert Idle(Orphaned(Firing)) == {};
  }

  /** The next turn of the loop then dequeues a completion that names a released event. */
  lemma OrphanFaults(status: int)
    ensures var steps := [BeginTurn, Step.Sweep, BeginWait, Dequeue(Ev(0, Wr), status)];
      IsRun(Orphaned(Outside), steps) && After(Orphaned(Outside), steps).fault
  {
    var last := Dequeue(Ev(0, Wr), status);
    OneMore(Orphaned(Collecting), last, []);
    OneMore(Orphaned(Swept), BeginWait, [last]);
    OrphanSweeps();
    OneMore(Orphaned(Firing), Step.Sweep, [BeginWait, last]);
    OneMore(Orphaned(Outside), BeginTurn, [Step.Sweep, BeginWait, last]);
  }

  lemma OneMore(w: World, s: Step, rest: seq<Step>)
    requires Enabled(w, s) && IsRun(Apply(w, s), rest)
    ensures IsRun(w, [s] + rest) && After(w, [s] + rest) == After(Apply(w, s), rest)
  {
    assert ([s] + rest)[1..] == rest;
  }
}
