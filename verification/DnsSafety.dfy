/** Safety of every run of the name resolution pool. */
module DnsSafety {
  import opened Dns

  type Objs = map<Id, Dns>
  type Workers = map<Wid, Worker>

  lemma PutInFlight(objs: Objs, d: Id, x: Dns)
    ensures InFlight(objs[d := x]) == if InFlightPlace(x.place) then InFlight(objs) + {d} else InFlight(objs) - {d}
  {
  }

  lemma PutKeepsObjs(objs: Objs, nextId: nat, d: Id, x: Dns)
    requires ObjsOk(objs, nextId) && d < nextId && DnsOk(x)
    ensures ObjsOk(objs[d := x], nextId)
  {
  }

  /** A change of one event that no queue and no worker has in hand, before or after. */
  lemma PutAside(objs: Objs, queue: seq<Id>, ws: Workers, d: Id, x: Dns)
    requires QueueOk(objs, queue) && WorkersOk(objs, ws)
    requires d in objs ==> !objs[d].place.InQueue? && !objs[d].place.With? && !objs[d].place.Reporting?
    requires !x.place.InQueue? && !x.place.With? && !x.place.Reporting?
    ensures QueueOk(objs[d := x], queue) && WorkersOk(objs[d := x], ws)
  {
  }

  lemma RemoveAside(objs: Objs, queue: seq<Id>, ws: Workers, d: Id)
    requires QueueOk(objs, queue) && WorkersOk(objs, ws) && d in objs && objs[d].place == Nowhere
    ensures QueueOk(objs - {d}, queue) && WorkersOk(objs - {d}, ws) && InFlight(objs - {d}) == InFlight(objs)
  {
  }

  lemma NewKeeps(p: Pool)
    requires Inv(p)
    ensures Inv(Apply(p, New))
  {
    PutInFlight(p.objs, p.nextId, FRESH);
    PutAside(p.objs, p.queue, p.workers, p.nextId, FRESH);
  }

  lemma BeginResolveKeeps(p: Pool, d: Id)
    requires Inv(p) && Enabled(p, BeginResolve(d))
    ensures Inv(Apply(p, BeginResolve(d)))
  {
    var x := p.objs[d].(pending := true, completed := false, place := Preparing);
    PutInFlight(p.objs, d, x);
    if !p.objs[d].pending {
      PutAside(p.objs, p.queue, p.workers, d, x);
    }
  }

  /** Marking an event as freed leaves its request where it is. */
  lemma MarkKeepsHands(objs: Objs, queue: seq<Id>, ws: Workers, d: Id)
    requires QueueOk(objs, queue) && WorkersOk(objs, ws) && d in objs
    ensures var objs' := objs[d := objs[d].(deleted := true)];
      QueueOk(objs', queue) && WorkersOk(objs', ws) && InFlight(objs') == InFlight(objs)
  {
  }

  lemma FreeKeeps(p: Pool, d: Id)
    requires Inv(p) && Enabled(p, FreeCall(d))
    ensures Inv(Apply(p, FreeCall(d)))
  {
    if p.objs[d].pending {
      PutKeepsObjs(p.objs, p.nextId, d, p.objs[d].(deleted := true));
      MarkKeepsHands(p.objs, p.queue, p.workers, d);
    } else {
      RemoveAside(p.objs, p.queue, p.workers, d);
    }
  }

  /** The notification always finds a completed request; a freed event is destroyed with no notification
      outstanding and in nobody's hands. */
  lemma OnAsyncKeeps(p: Pool, d: Id)
    requires Inv(p) && Enabled(p, OnAsync(d))
    ensures p.objs[d].completed && Inv(Apply(p, OnAsync(d)))
  {
    var x := p.objs[d].(notified := false, pending := false, completed := false, place := Nowhere);
    PutInFlight(p.objs, d, x);
    PutAside(p.objs, p.queue, p.workers, d, x);
    if p.objs[d].deleted {
      RemoveAside(p.objs[d := x], p.queue, p.workers, d);
      assert p.objs[d := x] - {d} == p.objs - {d};
    }
    assert d in InFlight(p.objs);
  }

  /** Waking a sleeping worker that holds nothing. */
  lemma WakeKeeps(objs: Objs, ws: Workers, w: Wid)
    requires WorkersOk(objs, ws) && w in ws && ws[w].Blocked?
    ensures WorkersOk(objs, ws[w := Signalled])
    ensures |SignalledSet(ws[w := Signalled])| == |SignalledSet(ws)| + 1
  {
    assert SignalledSet(ws[w := Signalled]) == SignalledSet(ws) + {w};
  }

  lemma EnqueueKeepsHands(objs: Objs, queue: seq<Id>, ws: Workers, d: Id, wake: Wid)
    requires QueueOk(objs, queue) && WorkersOk(objs, ws) && d in objs && objs[d].place == Preparing
    ensures var objs' := objs[d := objs[d].(place := InQueue)];
      QueueOk(objs', queue + [d]) && WorkersOk(objs', WakeOne(ws, wake))
  {
    assert d !in queue;
    var objs' := objs[d := objs[d].(place := InQueue)];
    assert WorkersOk(objs', ws);
    if wake in ws && ws[wake].Blocked? {
      WakeKeeps(objs', ws, wake);
    }
  }

  lemma EnqueueKeepsWakeups(mode: Mode, ws: Workers, queue: seq<Id>, d: Id, wake: Wid)
    requires WakeupsOk(ws, queue) && ModeOk(mode, ws, queue) && mode == Running && ws != map[]
    requires (exists w | w in ws :: ws[w].Blocked?) ==> wake in ws && ws[wake].Blocked?
    ensures WakeupsOk(WakeOne(ws, wake), queue + [d]) && ModeOk(mode, WakeOne(ws, wake), queue + [d])
  {
    if wake in ws && ws[wake].Blocked? {
      assert SignalledSet(ws[wake := Signalled]) == SignalledSet(ws) + {wake};
      assert wake in ws[wake := Signalled];
    }
  }

  lemma EnqueueRefusedKeeps(p: Pool, d: Id, wake: Wid)
    requires Inv(p) && Enabled(p, Enqueue(d, wake)) && p.mode != Running
    ensures Inv(ApplyEnqueue(p, d, wake))
  {
    var x := p.objs[d].(pending := false, place := Nowhere);
    PutKeepsObjs(p.objs, p.nextId, d, x);
    PutInFlight(p.objs, d, x);
    PutAside(p.objs, p.queue, p.workers, d, x);
  }

  /** The request is in flight from now on. */
  lemma EnqueueKeepsCounts(objs: Objs, nextId: nat, d: Id)
    requires ObjsOk(objs, nextId) && d in objs && objs[d].place == Preparing
    ensures var objs' := objs[d := objs[d].(place := InQueue)];
      ObjsOk(objs', nextId) && |InFlight(objs')| == |InFlight(objs)| + 1
  {
    var x := objs[d].(place := InQueue);
    PutKeepsObjs(objs, nextId, d, x);
    assert InFlight(objs[d := x]) == InFlight(objs) + {d} && d !in InFlight(objs);
  }

  lemma EnqueueAcceptedKeeps(p: Pool, d: Id, wake: Wid)
    requires Inv(p) && Enabled(p, Enqueue(d, wake)) && p.mode == Running
    ensures Inv(ApplyEnqueue(p, d, wake))
  {
    EnqueueKeepsCounts(p.objs, p.nextId, d);
    EnqueueKeepsHands(p.objs, p.queue, p.workers, d, wake);
    EnqueueKeepsWakeups(p.mode, p.workers, p.queue, d, wake);
    assert p.takenEver + (p.queue + [d]) == p.queuedEver + [d];
  }

  // ---------- workers ----------

  lemma TakeKeepsHands(objs: Objs, queue: seq<Id>, ws: Workers, w: Wid)
    requires QueueOk(objs, queue) && WorkersOk(objs, ws) && queue != [] && w in ws && (ws[w].Ready? || ws[w].Signalled?)
    ensures queue[0] in objs
    ensures var d := queue[0]; var objs' := objs[d := objs[d].(place := With(w))];
      QueueOk(objs', queue[1..]) && WorkersOk(objs', ws[w := Resolving(d)])
  {
    assert queue[0] !in queue[1..] && forall d | d in queue :: d == queue[0] || d in queue[1..];
  }

  lemma TakeKeepsWakeups(mode: Mode, ws: Workers, queue: seq<Id>, w: Wid)
    requires WakeupsOk(ws, queue) && ModeOk(mode, ws, queue) && queue != [] && w in ws
    requires ws[w].Ready? || ws[w].Signalled?
    ensures var ws' := ws[w := Resolving(queue[0])]; WakeupsOk(ws', queue[1..]) && ModeOk(mode, ws', queue[1..])
  {
    assert SignalledSet(ws[w := Resolving(queue[0])]) == SignalledSet(ws) - {w};
    assert w in ws[w := Resolving(queue[0])];
  }

  /** A worker without a request changes its state. */
  lemma MoveIdleKeepsHands(objs: Objs, ws: Workers, w: Wid, x: Worker)
    requires WorkersOk(objs, ws) && w in ws && !ws[w].Resolving? && !ws[w].Notifying? && !x.Resolving? && !x.Notifying?
    ensures WorkersOk(objs, ws[w := x])
  {
  }

  /** The oldest request changes hands; it stays in flight. */
  lemma TakeKeepsCounts(objs: Objs, nextId: nat, d: Id, w: Wid)
    requires ObjsOk(objs, nextId) && d in objs && objs[d].place == InQueue
    ensures var objs' := objs[d := objs[d].(place := With(w))];
      ObjsOk(objs', nextId) && InFlight(objs') == InFlight(objs)
  {
  }

  lemma LookTakes(p: Pool, w: Wid)
    requires Inv(p) && Enabled(p, Look(w)) && p.queue != []
    ensures Inv(ApplyLook(p, w))
  {
    TakeKeepsHands(p.objs, p.queue, p.workers, w);
    TakeKeepsWakeups(p.mode, p.workers, p.queue, w);
    TakeKeepsCounts(p.objs, p.nextId, p.queue[0], w);
    TakeKeepsOrder(p.queuedEver, p.takenEver, p.queue);
  }

  lemma TakeKeepsOrder(queued: seq<Id>, taken: seq<Id>, queue: seq<Id>)
    requires queued == taken + queue && queue != []
    ensures queued == taken + [queue[0]] + queue[1..]
  {
    assert queue == [queue[0]] + queue[1..];
  }

  /** Nothing is queued: the worker goes to sleep, or leaves when stopping. */
  lemma IdleKeepsWakeups(mode: Mode, ws: Workers, w: Wid)
    requires WakeupsOk(ws, []) && ModeOk(mode, ws, []) && w in ws
    ensures var ws' := ws[w := if mode == Running then Blocked else Exited]; WakeupsOk(ws', []) && ModeOk(mode, ws', [])
  {
  }

  lemma LookIdles(p: Pool, w: Wid)
    requires Inv(p) && Enabled(p, Look(w)) && p.queue == []
    ensures Inv(ApplyLook(p, w))
  {
    MoveIdleKeepsHands(p.objs, p.workers, w, if p.mode == Running then Blocked else Exited);
    IdleKeepsWakeups(p.mode, p.workers, w);
  }

  lemma LookKeeps(p: Pool, w: Wid)
    requires Inv(p) && Enabled(p, Look(w))
    ensures Inv(ApplyLook(p, w))
  {
    if p.queue == [] {
      LookIdles(p, w);
    } else {
      LookTakes(p, w);
    }
  }

  /** A busy worker moves on; neither sleep nor wakeups are concerned. */
  lemma MoveBusyKeepsWakeups(mode: Mode, ws: Workers, queue: seq<Id>, w: Wid, x: Worker)
    requires WakeupsOk(ws, queue) && ModeOk(mode, ws, queue) && w in ws && (ws[w].Resolving? || ws[w].Notifying?)
    requires x.Notifying? || x.Ready?
    ensures WakeupsOk(ws[w := x], queue) && ModeOk(mode, ws[w := x], queue)
  {
    assert SignalledSet(ws[w := x]) == SignalledSet(ws);
    assert w in ws[w := x];
  }

  lemma CompleteKeepsHands(objs: Objs, queue: seq<Id>, ws: Workers, w: Wid)
    requires QueueOk(objs, queue) && WorkersOk(objs, ws) && w in ws && ws[w].Resolving?
    ensures var d := ws[w].d; var objs' := objs[d := objs[d].(completed := true, place := Reporting(w))];
      QueueOk(objs', queue) && WorkersOk(objs', ws[w := Notifying(d)]) && InFlight(objs') == InFlight(objs)
  {
  }

  lemma CompleteKeeps(p: Pool, w: Wid)
    requires Inv(p) && Enabled(p, Complete(w))
    ensures Inv(ApplyComplete(p, w, p.workers[w].d))
  {
    var d := p.workers[w].d;
    CompleteKeepsHands(p.objs, p.queue, p.workers, w);
    PutKeepsObjs(p.objs, p.nextId, d, p.objs[d].(completed := true, place := Reporting(w)));
    MoveBusyKeepsWakeups(p.mode, p.workers, p.queue, w, Notifying(d));
  }

  lemma NotifyKeepsHands(objs: Objs, queue: seq<Id>, ws: Workers, w: Wid, x: Dns)
    requires QueueOk(objs, queue) && WorkersOk(objs, ws) && w in ws && ws[w].Notifying?
    requires x.place.Outstanding? || x.place.Lost?
    ensures var objs' := objs[ws[w].d := x];
      QueueOk(objs', queue) && WorkersOk(objs', ws[w := Ready]) && InFlight(objs') == InFlight(objs)
  {
  }

  lemma NotifyKeeps(p: Pool, w: Wid, written: bool)
    requires Inv(p) && Enabled(p, Notify(w, written))
    ensures Inv(ApplyNotify(p, w, p.workers[w].d, written))
  {
    var d := p.workers[w].d;
    assert !p.objs[d].notified;
    var x := if written then p.objs[d].(notified := true, place := Outstanding) else p.objs[d].(place := Lost);
    NotifyKeepsHands(p.objs, p.queue, p.workers, w, x);
    PutKeepsObjs(p.objs, p.nextId, d, x);
    MoveBusyKeepsWakeups(p.mode, p.workers, p.queue, w, Ready);
  }

  // ---------- starting and stopping ----------

  /** Threads without a request come or go as a whole. */
  lemma SwapIdleWorkers(objs: Objs, ws: Workers, ws': Workers)
    requires WorkersOk(objs, ws)
    requires forall w | w in ws :: !ws[w].Resolving? && !ws[w].Notifying?
    requires forall w | w in ws' :: !ws'[w].Resolving? && !ws'[w].Notifying?
    ensures WorkersOk(objs, ws')
  {
  }

  lemma WakeAllKeeps(objs: Objs, ws: Workers)
    requires WorkersOk(objs, ws)
    ensures WorkersOk(objs, WakeAll(ws))
  {
  }

  lemma WakeOneKeeps(p: Pool, w: Wid)
    requires Inv(p) && Enabled(p, Wake(w))
    ensures Inv(Apply(p, Wake(w)))
  {
    WakeKeeps(p.objs, p.workers, w);
    assert w in p.workers[w := Signalled];
  }

  lemma ModeStepKeeps(p: Pool, s: Step)
    requires Inv(p) && Enabled(p, s)
    requires s.StartWorkers? || s.StartFails? || s.AbortReturns? || s.Term? || s.TermReturns?
    ensures Inv(Apply(p, s))
  {
    match s
    case StartWorkers(n) => SwapIdleWorkers(p.objs, p.workers, Threads(n));
    case StartFails(n) => SwapIdleWorkers(p.objs, p.workers, Threads(n));
    case AbortReturns => SwapIdleWorkers(p.objs, p.workers, map[]);
    case Term =>
      WakeAllKeeps(p.objs, p.workers);
      assert p.queue != [] ==> exists w | w in p.workers :: w in WakeAll(p.workers);
    case TermReturns =>
      if p.queue != [] {
        var w :| w in p.workers;
      }
  }

  lemma StepKeeps(p: Pool, s: Step)
    requires Inv(p) && Enabled(p, s)
    ensures Inv(Apply(p, s))
  {
    match s
    case New => NewKeeps(p);
    case BeginResolve(d) => BeginResolveKeeps(p, d);
    case Enqueue(d, wake) =>
      if p.mode == Running { EnqueueAcceptedKeeps(p, d, wake); } else { EnqueueRefusedKeeps(p, d, wake); }
    case FreeCall(d) => FreeKeeps(p, d);
    case OnAsync(d) => OnAsyncKeeps(p, d);
    case Look(w) => LookKeeps(p, w);
    case Complete(w) => CompleteKeeps(p, w);
    case Notify(w, written) => NotifyKeeps(p, w, written);
    case Wake(w) => WakeOneKeeps(p, w);
    case _ => ModeStepKeeps(p, s);
  }

  ghost predicate IsRun(p: Pool, run: seq<Step>)
    decreases |run|
  {
    run == [] || (Enabled(p, run[0]) && IsRun(Apply(p, run[0]), run[1..]))
  }

  ghost function After(p: Pool, run: seq<Step>): Pool
    requires IsRun(p, run)
    decreases |run|
  {
    if run == [] then p else After(Apply(p, run[0]), run[1..])
  }

  lemma {:induction false} RunKeeps(p: Pool, run: seq<Step>)
    requires Inv(p) && IsRun(p, run)
    ensures Inv(After(p, run))
    decreases |run|
  {
    if run == [] {
    } else {
      StepKeeps(p, run[0]);
      RunKeeps(Apply(p, run[0]), run[1..]);
    }
  }

  /** Under every interleaving: accepted resolves are those whose callback ran, those cancelled by freeing
      the event, and those in flight. No event is used after its destruction or destroyed with a
      notification outstanding: whatever the queue, a worker or a notification names exists. */
  lemma RequestsAreConserved(run: seq<Step>)
    requires IsRun(INIT, run)
    ensures var p := After(INIT, run);
      && |p.queuedEver| == |p.called| + |p.cancelled| + |InFlight(p.objs)| && !p.fault
      && (forall d | d in p.queue :: d in p.objs && p.objs[d].pending)
      && (forall w | w in p.workers && (p.workers[w].Resolving? || p.workers[w].Notifying?) ::
            p.workers[w].d in p.objs && p.objs[p.workers[w].d].pending && !p.objs[p.workers[w].d].notified)
      && (forall d | d in p.objs && p.objs[d].notified :: p.objs[d].pending && p.objs[d].completed && d !in p.queue)
  {
    assert InFlight(INIT.objs) == {} && SignalledSet(INIT.workers) == {};
    RunKeeps(INIT, run);
  }

  /** Under every interleaving, for any number of workers: while one sleeps, there are at least as many
      workers awake and still to look as there are queued requests. */
  lemma NoWakeupIsLost(run: seq<Step>, w: Wid)
    requires IsRun(INIT, run) && w in After(INIT, run).workers && After(INIT, run).workers[w].Blocked?
    ensures var p := After(INIT, run);
      && |p.queue| <= |SignalledSet(p.workers)|
      && (p.queue != [] ==> exists v :: v in p.workers && p.workers[v].Signalled?)
  {
    RunKeeps(INIT, run);
    var p := After(INIT, run);
    if p.queue != [] {
      assert SignalledSet(p.workers) != {};
      var v :| v in SignalledSet(p.workers);
      assert p.workers[v].Signalled?;
    }
  }

  /** Requests are taken in the order they were queued, and `dns_term` returns only when all were taken. */
  lemma TermDrainsTheQueue(run: seq<Step>)
    requires IsRun(INIT, run)
    ensures var p := After(INIT, run);
      && p.takenEver <= p.queuedEver && p.queuedEver == p.takenEver + p.queue
      && (p.mode == Terminated ==> p.queue == [] && p.takenEver == p.queuedEver)
  {
    RunKeeps(INIT, run);
  }
}
