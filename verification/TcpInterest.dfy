/** The assertion of `nanoev_tcp_write` that no write interest is registered: when it holds, over whole runs. */
module TcpInterest {
  import opened TcpEvent
  import opened TcpInvariant
  import opened TcpOutcomes
  import opened TcpLoop
  import opened TcpTheorems

  /** The step dispatches a write or connect completion of an event with write interest, so that the code tries
      to drop the interest. */
  ghost predicate TriesToDrop(w: World, s: Step) {
    && w.backend == Reactor && s.Deliver? && w.batch != [] && w.batch[0].dir == Wr
    && w.batch[0].id in w.objs && w.objs[w.batch[0].id].evWrite
  }

  /** History: the events whose latest attempt to drop write interest failed. */
  ghost function StuckStep(w: World, s: Step, stuck: set<Id>): set<Id> {
    if !TriesToDrop(w, s) then stuck
    else if s.unregister then stuck - {w.batch[0].id} else stuck + {w.batch[0].id}
  }

  ghost function Stuck(w: World, steps: seq<Step>, stuck: set<Id>): set<Id>
    requires IsRun(w, steps)
    decreases |steps|
  {
    if steps == [] then stuck else Stuck(Apply(w, steps[0]), steps[1..], StuckStep(w, steps[0], stuck))
  }

  /** On an event in use, interest without a pending write is what a failed attempt left, and that stays until
      an attempt succeeds. */
  predicate InterestOk(t: Tcp, stuck: bool) {
    !t.error && !t.deleted ==> (stuck ==> t.evWrite) && (!t.writing && t.evWrite ==> stuck)
  }

  ghost predicate InterestsOk(objs: Objs, nextId: nat, stuck: set<Id>) {
    && (forall id | id in objs :: InterestOk(objs[id], id in stuck))
    && (forall id | id in stuck :: id < nextId)
  }

  lemma PutKeepsInterests(objs: Objs, nextId: nat, stuck: set<Id>, id: Id, t: Tcp)
    requires InterestsOk(objs, nextId, stuck) && InterestOk(t, id in stuck)
    ensures InterestsOk(objs[id := t], nextId, stuck)
  {
  }

  lemma NewKeepsInterests(objs: Objs, nextId: nat, stuck: set<Id>, t: Tcp)
    requires InterestsOk(objs, nextId, stuck) && !t.evWrite
    ensures InterestsOk(objs[nextId := t], nextId + 1, stuck)
  {
    assert nextId !in stuck;
  }

  lemma RemoveKeepsInterests(objs: Objs, nextId: nat, stuck: set<Id>, gone: set<Id>)
    requires InterestsOk(objs, nextId, stuck)
    ensures InterestsOk(objs - gone, nextId, stuck)
  {
  }

  lemma StartKeepsInterest(t: Tcp, k: Kind, args: Args, tok: Token, e: Env, stuck: bool)
    requires TcpOk(Reactor, t) && MayStart(Reactor, t, k, e) && InterestOk(t, stuck)
    ensures InterestOk(Start(Reactor, t, k, args, tok, e).tcp, stuck)
  {
    match k
    case Connecting =>
    case Accepting =>
    case Reading =>
    case Writing =>
  }

  /** A completion in direction `d`: the attempt, if there is one, decides. */
  lemma CompleteKeepsInterest(t: Tcp, d: Dir, unregister: bool, stuck: bool)
    requires TcpOk(Reactor, t) && t.Flag(d) && InterestOk(t, stuck)
    ensures InterestOk(Complete(Reactor, t, d, unregister).tcp, if d == Wr && t.evWrite then !unregister else stuck)
  {
    CompleteKeepsOk(Reactor, t, d, unregister);
  }

  /** The event's record and its entry in the history change together. */
  lemma AttemptKeepsInterests(objs: Objs, nextId: nat, stuck: set<Id>, id: Id, t: Tcp, stays: bool)
    requires InterestsOk(objs, nextId, stuck) && id < nextId && InterestOk(t, stays)
    ensures InterestsOk(objs[id := t], nextId, if stays then stuck + {id} else stuck - {id})
  {
  }

  lemma HandledKeepsInterests(w: World, u: bool, room: bool, stuck: set<Id>)
    requires ObjsOk(Reactor, w.objs, w.nextId) && EventsOk(Reactor, w.objs, w.fake, w.kernel, w.batch)
    requires w.backend == Reactor && Enabled(w, Deliver(u, room)) && InterestsOk(w.objs, w.nextId, stuck)
    ensures var ev := w.batch[0]; ev.id in w.objs && var r := Complete(Reactor, w.objs[ev.id], ev.dir, u);
      InterestsOk(w.objs[ev.id := r.tcp], w.nextId, StuckStep(w, Deliver(u, room), stuck))
  {
    var ev := w.batch[0];
    assert Deliverable(w.objs, ev) && ev.id < w.nextId;
    CompleteKeepsInterest(w.objs[ev.id], ev.dir, u, ev.id in stuck);
    var t := Complete(Reactor, w.objs[ev.id], ev.dir, u).tcp;
    if TriesToDrop(w, Deliver(u, room)) {
      AttemptKeepsInterests(w.objs, w.nextId, stuck, ev.id, t, !u);
    } else {
      PutKeepsInterests(w.objs, w.nextId, stuck, ev.id, t);
    }
  }

  /** What a dispatched completion does to the events: its own, and perhaps a new one. */
  lemma DeliveryChanges(w: World, u: bool, room: bool)
    requires w.batch != [] && w.batch[0].id in w.objs
    ensures var w', ev := ApplyDeliver(w, u, room), w.batch[0];
      var objs' := w.objs[ev.id := Complete(w.backend, w.objs[ev.id], ev.dir, u).tcp];
      || (w'.objs == objs' && w'.nextId == w.nextId)
      || (w'.objs == objs'[w.nextId := CLIENT] && w'.nextId == w.nextId + 1)
  {
  }

  lemma DeliverKeepsInterests(w: World, u: bool, room: bool, stuck: set<Id>)
    requires ObjsOk(Reactor, w.objs, w.nextId) && EventsOk(Reactor, w.objs, w.fake, w.kernel, w.batch)
    requires w.backend == Reactor && Enabled(w, Deliver(u, room)) && InterestsOk(w.objs, w.nextId, stuck)
    ensures var w' := ApplyDeliver(w, u, room); InterestsOk(w'.objs, w'.nextId, StuckStep(w, Deliver(u, room), stuck))
  {
    HandledKeepsInterests(w, u, room, stuck);
    DeliveryChanges(w, u, room);
    var ev := w.batch[0];
    var objs' := w.objs[ev.id := Complete(Reactor, w.objs[ev.id], ev.dir, u).tcp];
    NewKeepsInterests(objs', w.nextId, StuckStep(w, Deliver(u, room), stuck), CLIENT);
  }

  lemma TimeoutKeepsInterest(t: Tcp, d: Dir, unregister: bool, stuck: bool)
    requires TcpOk(Reactor, t) && t.Armed(d)
    ensures InterestOk(Timeout(Reactor, t, d, unregister).tcp, stuck)
  {
    TimeoutKeepsOk(Reactor, t, d, unregister);
  }

  lemma StartCallKeepsInterests(w: World, id: Id, k: Kind, args: Args, e: Env, stuck: set<Id>)
    requires ObjsOk(Reactor, w.objs, w.nextId) && w.backend == Reactor && InterestsOk(w.objs, w.nextId, stuck)
    requires id in w.objs && MayStart(Reactor, w.objs[id], k, e)
    ensures InterestsOk(ApplyStart(w, id, k, Start(Reactor, w.objs[id], k, args, w.nextTok, e)).objs, w.nextId, stuck)
  {
    StartKeepsInterest(w.objs[id], k, args, w.nextTok, e, id in stuck);
    PutKeepsInterests(w.objs, w.nextId, stuck, id, Start(Reactor, w.objs[id], k, args, w.nextTok, e).tcp);
  }

  lemma FreeCallKeepsInterests(w: World, id: Id, stuck: set<Id>)
    requires id in w.objs && InterestsOk(w.objs, w.nextId, stuck)
    ensures InterestsOk(ApplyFree(w, id, Free(w.objs[id])).objs, w.nextId, stuck)
  {
    RemoveKeepsInterests(w.objs, w.nextId, stuck, {id});
    if Free(w.objs[id]).Kept? {
      PutKeepsInterests(w.objs, w.nextId, stuck, id, Free(w.objs[id]).tcp);
    }
  }

  lemma CallKeepsInterests(w: World, s: Step, stuck: set<Id>)
    requires ObjsOk(Reactor, w.objs, w.nextId) && w.backend == Reactor && Enabled(w, s) && IsCall(s)
    requires InterestsOk(w.objs, w.nextId, stuck)
    ensures var w' := Apply(w, s); InterestsOk(w'.objs, w'.nextId, stuck)
  {
    match s
    case New => NewKeepsInterests(w.objs, w.nextId, stuck, FRESH);
    case StartCall(id, k, args, e) => StartCallKeepsInterests(w, id, k, args, e, stuck);
    case ListenCall(id, valid, socket, register, ready) =>
      PutKeepsInterests(w.objs, w.nextId, stuck, id, Listen(w.objs[id], valid, socket, register, ready).tcp);
    case FreeCall(id) => FreeCallKeepsInterests(w, id, stuck);
  }

  lemma ReadyKeepsInterests(objs: Objs, nextId: nat, stuck: set<Id>, id: Id, d: Dir, report: Report)
    requires InterestsOk(objs, nextId, stuck) && id in objs && Ready(objs[id], d, report).Filled?
    ensures InterestsOk(objs[id := Ready(objs[id], d, report).tcp], nextId, stuck)
  {
    PutKeepsInterests(objs, nextId, stuck, id, Ready(objs[id], d, report).tcp);
  }

  lemma TimeoutKeepsInterests(objs: Objs, nextId: nat, stuck: set<Id>, id: Id, d: Dir, unregister: bool)
    requires ObjsOk(Reactor, objs, nextId) && InterestsOk(objs, nextId, stuck) && id in objs && objs[id].Armed(d)
    ensures InterestsOk(objs[id := Timeout(Reactor, objs[id], d, unregister).tcp], nextId, stuck)
  {
    TimeoutKeepsInterest(objs[id], d, unregister, id in stuck);
    PutKeepsInterests(objs, nextId, stuck, id, Timeout(Reactor, objs[id], d, unregister).tcp);
  }

  lemma LoopStepKeepsInterests(w: World, s: Step, stuck: set<Id>)
    requires ObjsOk(Reactor, w.objs, w.nextId) && w.backend == Reactor && Enabled(w, s) && !IsCall(s) && !s.Deliver?
    requires InterestsOk(w.objs, w.nextId, stuck)
    ensures var w' := Apply(w, s); InterestsOk(w'.objs, w'.nextId, stuck)
  {
    match s
    case TimeoutFires(id, d, u) => TimeoutKeepsInterests(w.objs, w.nextId, stuck, id, d, u);
    case Sweep => RemoveKeepsInterests(w.objs, w.nextId, stuck, Idle(w));
    case ReportReady(id, d, report) =>
      if Ready(w.objs[id], d, report).Filled? {
        ReadyKeepsInterests(w.objs, w.nextId, stuck, id, d, report);
      }
    case _ =>
  }

  lemma StepKeepsInterests(w: World, s: Step, stuck: set<Id>)
    requires Inv(w) && w.backend == Reactor && Enabled(w, s) && InterestsOk(w.objs, w.nextId, stuck)
    ensures var w' := Apply(w, s); InterestsOk(w'.objs, w'.nextId, StuckStep(w, s, stuck))
  {
    if s.Deliver? {
      DeliverKeepsInterests(w, s.unregister, s.room, stuck);
    } else if IsCall(s) {
      CallKeepsInterests(w, s, stuck);
    } else {
      LoopStepKeepsInterests(w, s, stuck);
    }
  }

  lemma {:induction false} RunKeepsInterests(w: World, steps: seq<Step>, stuck: set<Id>)
    requires Inv(w) && w.backend == Reactor && IsRun(w, steps) && InterestsOk(w.objs, w.nextId, stuck)
    ensures var w' := After(w, steps); InterestsOk(w'.objs, w'.nextId, Stuck(w, steps, stuck))
    decreases |steps|
  {
    if steps == [] {
    } else {
      StepKeeps(w, steps[0]);
      BackendIsFixed(w, steps[0]);
      StepKeepsInterests(w, steps[0], stuck);
      RunKeepsInterests(Apply(w, steps[0]), steps[1..], StuckStep(w, steps[0], stuck));
    }
  }

  /** In every run, for every event: a write that passes its checks meets its assertion exactly when the latest
      attempt to drop the event's write interest, if any, succeeded. A connection attempt always meets its own. */
  lemma WriteAssertionHoldsIff(steps: seq<Step>, id: Id, args: Args)
    requires IsRun(Init(Reactor), steps) && id in After(Init(Reactor), steps).objs
    ensures var t := After(Init(Reactor), steps).objs[id];
      && (Admitted(t, Writing, args) ==> (!t.evWrite <==> id !in Stuck(Init(Reactor), steps, {})))
      && (Admitted(t, Connecting, args) && MayOpen(t) ==> !t.evWrite)
  {
    RunKeeps(Init(Reactor), steps);
    RunKeepsInterests(Init(Reactor), steps, {});
  }
}
