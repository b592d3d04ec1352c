/** The order of completions that the loop queues itself, and the events that accepted connections get. */
module TcpOrder {
  import opened TcpEvent
  import opened TcpOutcomes
  import opened TcpInvariant
  import opened TcpLoop
  import opened TcpTheorems

  /** The completion queued by a step: that of an accepted call whose operation was over at once. */
  ghost function QueuedBy(w: World, s: Step): seq<Ev>
    requires Enabled(w, s)
  {
    if s.StartCall? && AtOnce(w.backend, s.kind, s.env) && Admitted(w.objs[s.id], s.kind, s.args)
       && Works(w.backend, w.objs[s.id], s.kind, s.args, s.env)
    then [Ev(s.id, DirOf(s.kind))] else []
  }

  /** The batch that a step takes from the queue. */
  ghost function TakenBy(w: World, s: Step): seq<Ev>
    requires Enabled(w, s)
  {
    if s == DrainFake then Apply(w, s).batch else []
  }

  lemma StartQueues(w: World, s: Step)
    requires ObjsOk(w.backend, w.objs, w.nextId) && Enabled(w, s) && s.StartCall?
    ensures Apply(w, s).fake == w.fake + QueuedBy(w, s)
  {
    StartKeepsOk(w.backend, w.objs[s.id], s.kind, s.args, w.nextTok, s.env);
  }

  /** A batch holds at most as many completions as the loop asks for, and all there are if they are fewer. */
  lemma StepKeepsOrder(w: World, s: Step)
    requires ObjsOk(w.backend, w.objs, w.nextId) && Enabled(w, s)
    ensures w.fake + QueuedBy(w, s) == TakenBy(w, s) + Apply(w, s).fake
    ensures |TakenBy(w, s)| <= MAX_EVENTS
    ensures s == DrainFake ==> Apply(w, s).fake == [] || |TakenBy(w, s)| == MAX_EVENTS
  {
    if s.StartCall? {
      StartQueues(w, s);
    }
  }

  ghost function Queued(w: World, steps: seq<Step>): seq<Ev>
    requires IsRun(w, steps)
    decreases |steps|
  {
    if steps == [] then [] else QueuedBy(w, steps[0]) + Queued(Apply(w, steps[0]), steps[1..])
  }

  ghost function Taken(w: World, steps: seq<Step>): seq<Ev>
    requires IsRun(w, steps)
    decreases |steps|
  {
    if steps == [] then [] else TakenBy(w, steps[0]) + Taken(Apply(w, steps[0]), steps[1..])
  }

  /** What comes in at the end and goes out at the front, twice. */
  lemma Chain<T>(a: seq<T>, in1: seq<T>, out1: seq<T>, b: seq<T>, in2: seq<T>, out2: seq<T>, c: seq<T>)
    requires a + in1 == out1 + b && b + in2 == out2 + c
    ensures a + (in1 + in2) == (out1 + out2) + c
  {
    assert a + (in1 + in2) == (a + in1) + in2 && (out1 + b) + in2 == out1 + (b + in2);
    assert out1 + (out2 + c) == (out1 + out2) + c;
  }

  lemma {:induction false} RunKeepsOrder(w: World, steps: seq<Step>)
    requires Inv(w) && IsRun(w, steps)
    ensures w.fake + Queued(w, steps) == Taken(w, steps) + After(w, steps).fake
    decreases |steps|
  {
    if steps == [] {
    } else {
      var s, w' := steps[0], Apply(w, steps[0]);
      StepKeeps(w, s);
      StepKeepsOrder(w, s);
      RunKeepsOrder(w', steps[1..]);
      Chain(w.fake, QueuedBy(w, s), TakenBy(w, s), w'.fake,
            Queued(w', steps[1..]), Taken(w', steps[1..]), After(w', steps[1..]).fake);
    }
  }

  /** In every run the completions queued for operations over at once are dispatched in the order of the calls, none
      lost and none twice. */
  lemma QueuedAreTakenInOrder(b: Backend, steps: seq<Step>)
    requires IsRun(Init(b), steps)
    ensures Queued(Init(b), steps) == Taken(Init(b), steps) + After(Init(b), steps).fake
  {
    RunKeepsOrder(Init(b), steps);
  }

  // ---------- batches ----------

  /** What a step adds to the batch: what it takes from the queue, an answer of the kernel while there is room, or a
      completion that the port hands out. */
  ghost function ArrivesBy(w: World, s: Step): seq<Ev>
    requires Enabled(w, s)
  {
    match s
    case DrainFake => TakenBy(w, s)
    case ReportReady(id, d, report) =>
      if |w.batch| < MAX_EVENTS && Answers(w.objs[id], d, report) then [Ev(id, d)] else []
    case Dequeue(ev, _) => [ev]
    case _ => []
  }

  /** The completion whose handler a step runs. */
  ghost function HandledBy(w: World, s: Step): seq<Ev>
    requires Enabled(w, s)
  {
    if s.Deliver? then [w.batch[0]] else []
  }

  lemma ReportArrives(w: World, s: Step)
    requires Enabled(w, s) && s.ReportReady?
    ensures Apply(w, s).batch == w.batch + ArrivesBy(w, s)
  {
    ReadyIs(w.objs[s.id], s.dir, s.report);
  }

  lemma CallLeavesBatch(w: World, s: Step)
    requires Enabled(w, s) && IsCall(s)
    ensures Apply(w, s).batch == w.batch
  {
    match s
    case New =>
    case StartCall(_, _, _, _) =>
    case ListenCall(_, _, _, _, _) =>
    case FreeCall(_) =>
  }

  lemma StepKeepsBatch(w: World, s: Step)
    requires PhaseOk(w) && Enabled(w, s)
    ensures w.batch + ArrivesBy(w, s) == HandledBy(w, s) + Apply(w, s).batch
  {
    if IsCall(s) {
      CallLeavesBatch(w, s);
    } else if s.ReportReady? {
      ReportArrives(w, s);
    }
  }

  ghost function Arrived(w: World, steps: seq<Step>): seq<Ev>
    requires IsRun(w, steps)
    decreases |steps|
  {
    if steps == [] then [] else ArrivesBy(w, steps[0]) + Arrived(Apply(w, steps[0]), steps[1..])
  }

  ghost function HandledIn(w: World, steps: seq<Step>): seq<Ev>
    requires IsRun(w, steps)
    decreases |steps|
  {
    if steps == [] then [] else HandledBy(w, steps[0]) + HandledIn(Apply(w, steps[0]), steps[1..])
  }

  lemma {:induction false} RunKeepsBatch(w: World, steps: seq<Step>)
    requires Inv(w) && IsRun(w, steps)
    ensures w.batch + Arrived(w, steps) == HandledIn(w, steps) + After(w, steps).batch
    decreases |steps|
  {
    if steps == [] {
    } else {
      var s, w' := steps[0], Apply(w, steps[0]);
      StepKeeps(w, s);
      StepKeepsBatch(w, s);
      RunKeepsBatch(w', steps[1..]);
      Chain(w.batch, ArrivesBy(w, s), HandledBy(w, s), w'.batch,
            Arrived(w', steps[1..]), HandledIn(w', steps[1..]), After(w', steps[1..]).batch);
    }
  }

  /** In every run what arrives for dispatch is handled in the order of its arrival, none lost and none twice. */
  lemma ArrivedAreHandledInOrder(b: Backend, steps: seq<Step>)
    requires IsRun(Init(b), steps)
    ensures Arrived(Init(b), steps) == HandledIn(Init(b), steps) + After(Init(b), steps).batch
  {
    RunKeepsBatch(Init(b), steps);
  }

  /** Every kernel wait can report every direction of every open event anew. */
  lemma WaitsReportAnew(w: World, id: Id, d: Dir, report: Report)
    requires w.backend == Reactor && Enabled(w, BeginWait) && id in w.objs && w.objs[id].open
    ensures Enabled(Apply(w, BeginWait), ReportReady(id, d, report))
  {
  }

  // ---------- events ----------

  /** The callbacks that were handed a connection. */
  ghost function Connections(log: seq<Entry>): nat {
    if log == [] then 0 else
      var e := log[|log| - 1];
      Connections(log[..|log| - 1]) + if e.call.kind == Accepting && e.call.status == 0 then 1 else 0
  }

  function BornBy(s: Step): nat {
    if s == New then 1 else 0
  }

  lemma ConnectionsNext(log: seq<Entry>, e: Entry)
    ensures Connections(log + [e]) == Connections(log) + if e.call.kind == Accepting && e.call.status == 0 then 1 else 0
  {
    assert (log + [e])[..|log|] == log;
  }

  lemma TimeoutHandsNothing(w: World, id: Id, d: Dir, u: bool)
    requires ObjsOk(w.backend, w.objs, w.nextId) && Enabled(w, TimeoutFires(id, d, u))
    ensures var w' := Apply(w, TimeoutFires(id, d, u));
      Connections(w'.log) == Connections(w.log) && w'.nextId == w.nextId
  {
    TimeoutKeepsOk(w.backend, w.objs[id], d, u);
    var c := Timeout(w.backend, w.objs[id], d, u).call;
    ConnectionsNext(w.log, Entry(id, c.call));
  }

  lemma DeliverHandsOne(w: World, u: bool, room: bool)
    requires w.batch != []
    ensures var w' := ApplyDeliver(w, u, room);
      w'.nextId - w.nextId == Connections(w'.log) - Connections(w.log)
  {
    var ev := w.batch[0];
    if ev.id in w.objs {
      var c := Allocated(Complete(w.backend, w.objs[ev.id], ev.dir, u), room).call;
      if c.Runs? {
        ConnectionsNext(w.log, Entry(ev.id, c.call));
      }
    }
  }

  lemma CallHandsNothing(w: World, s: Step)
    requires Enabled(w, s) && IsCall(s)
    ensures Apply(w, s).log == w.log && Apply(w, s).nextId == w.nextId + BornBy(s)
  {
    match s
    case New =>
    case StartCall(id, k, args, e) =>
    case ListenCall(_, _, _, _, _) =>
    case FreeCall(id) =>
  }

  lemma StepKeepsBirths(w: World, s: Step)
    requires ObjsOk(w.backend, w.objs, w.nextId) && Enabled(w, s)
    ensures Apply(w, s).nextId - Connections(Apply(w, s).log) == w.nextId - Connections(w.log) + BornBy(s)
  {
    if IsCall(s) {
      CallHandsNothing(w, s);
    } else {
      match s
      case TimeoutFires(id, d, u) => TimeoutHandsNothing(w, id, d, u);
      case Deliver(u, room) => DeliverHandsOne(w, u, room);
      case _ =>
    }
  }

  ghost function Born(steps: seq<Step>): nat {
    if steps == [] then 0 else BornBy(steps[0]) + Born(steps[1..])
  }

  lemma {:induction false} RunKeepsBirths(w: World, steps: seq<Step>)
    requires Inv(w) && IsRun(w, steps)
    ensures After(w, steps).nextId - Connections(After(w, steps).log) == w.nextId - Connections(w.log) + Born(steps)
    decreases |steps|
  {
    if steps == [] {
    } else {
      StepKeeps(w, steps[0]);
      StepKeepsBirths(w, steps[0]);
      RunKeepsBirths(Apply(w, steps[0]), steps[1..]);
    }
  }

  /** In every run there are exactly as many events as clients created and accept callbacks were handed. */
  lemma EachConnectionGetsOneEvent(b: Backend, steps: seq<Step>)
    requires IsRun(Init(b), steps)
    ensures After(Init(b), steps).nextId == Born(steps) + Connections(After(Init(b), steps).log)
  {
    RunKeepsBirths(Init(b), steps);
  }

  /** The event of an accepted connection can be read and written at once; a new one can be connected. */
  lemma NewEventsAreUsable(w: World, u: bool, room: bool, args: Args)
    requires Inv(w) && w.batch != [] && args.valid
    ensures Admitted(WithNew(w, FRESH).objs[w.nextId], Connecting, args) && MayOpen(FRESH)
    ensures var w' := ApplyDeliver(w, u, room);
      w'.nextId > w.nextId ==>
        w.nextId in w'.objs && forall k | k == Reading || k == Writing :: Admitted(w'.objs[w.nextId], k, args)
  {
  }

  // ---------- leaving the loop ----------

  lemma {:induction false} RunsOn(w: World, steps1: seq<Step>, steps2: seq<Step>)
    requires IsRun(w, steps1) && IsRun(After(w, steps1), steps2)
    ensures IsRun(w, steps1 + steps2) && After(w, steps1 + steps2) == After(After(w, steps1), steps2)
    decreases |steps1|
  {
    if steps1 == [] {
      assert steps1 + steps2 == steps2;
    } else {
      RunsOn(Apply(w, steps1[0]), steps1[1..], steps2);
      assert (steps1 + steps2)[1..] == steps1[1..] + steps2;
    }
  }

  lemma OneStep(w: World, s: Step)
    requires Enabled(w, s)
    ensures IsRun(w, [s]) && After(w, [s]) == Apply(w, s)
  {
    assert [s][1..] == [] && IsRun(Apply(w, s), []);
  }

  /** The rest of the batch is dispatched. */
  lemma DispatchesAll(w: World) returns (steps: seq<Step>)
    requires w.phase == Dispatching
    ensures IsRun(w, steps) && After(w, steps).phase == Dispatching && After(w, steps).batch == []
    decreases |w.batch|
  {
    if w.batch == [] {
      steps := [];
    } else {
      var s := Deliver(true, true);
      var rest := DispatchesAll(Apply(w, s));
      OneStep(w, s);
      RunsOn(w, [s], rest);
      steps := [s] + rest;
    }
  }

  /** Wherever the loop thread is, it can finish the turn and leave the loop, with everything that arrived handled. */
  lemma LoopCanReturn(w: World) returns (steps: seq<Step>)
    requires PhaseOk(w)
    ensures IsRun(w, steps) && After(w, steps).phase == Outside && After(w, steps).batch == []
  {
    match w.phase
    case Outside =>
      steps := [];
    case Firing =>
      OneStep(w, Step.Sweep);
      OneStep(Apply(w, Step.Sweep), EndTurn);
      RunsOn(w, [Step.Sweep], [EndTurn]);
      steps := [Step.Sweep] + [EndTurn];
    case Swept =>
      OneStep(w, EndTurn);
      steps := [EndTurn];
    case Dispatching =>
      steps := FinishesTurn(w);
    case Collecting =>
      OneStep(w, EndWait);
      var rest := FinishesTurn(Apply(w, EndWait));
      RunsOn(w, [EndWait], rest);
      steps := [EndWait] + rest;
  }

  lemma FinishesTurn(w: World) returns (steps: seq<Step>)
    requires w.phase == Dispatching
    ensures IsRun(w, steps) && After(w, steps).phase == Outside && After(w, steps).batch == []
  {
    var rest := DispatchesAll(w);
    OneStep(After(w, rest), EndTurn);
    RunsOn(w, rest, [EndTurn]);
    steps := rest + [EndTurn];
  }
}
