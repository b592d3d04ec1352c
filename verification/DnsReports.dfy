/** Which resolves run their callback and which are dropped, over whole runs of the name resolution pool. */
module DnsReports {
  import opened Sequences
  import opened Dns
  import opened DnsSafety

  /** How often `d` occurs. */
  ghost function Times(s: seq<Id>, d: Id): nat {
    multiset(s)[d]
  }

  lemma TimesAppend(s: seq<Id>, x: Id, d: Id)
    ensures Times(s + [x], d) == Times(s, d) + if x == d then 1 else 0
    ensures d in s <==> Times(s, d) > 0
  {
  }

  /** Each accepted resolve of an event has run its callback, was dropped, or is in flight. */
  ghost predicate Accounted(objs: Objs, queued: seq<Id>, called: seq<Id>, cancelled: seq<Id>) {
    forall d :: Times(queued, d) == Times(called, d) + Times(cancelled, d) + if d in InFlight(objs) then 1 else 0
  }

  /** No callback runs once its event is freed. */
  ghost predicate CallsOk(called: seq<Id>, freed: map<Id, Freeing>) {
    forall i | 0 <= i < |called| && called[i] in freed :: i < freed[called[i]].calls
  }

  /** An event freed with a request pending stays, marked, until the notification is dispatched and the request dropped;
      any other freed event is gone. Nothing else is dropped. */
  ghost predicate FreedOk(objs: Objs, nextId: nat, cancelled: seq<Id>, freed: map<Id, Freeing>) {
    && (forall d | d in objs :: objs[d].deleted <==> d in freed)
    && (forall d | d in freed :: d < nextId && (d in objs ==> freed[d].pending))
    && (forall d | d in freed && freed[d].pending :: d in objs <==> d !in cancelled)
    && (forall d | d in cancelled :: d in freed && freed[d].pending)
    && Distinct(cancelled)
  }

  ghost predicate ReportsOk(p: Pool) {
    && Accounted(p.objs, p.queuedEver, p.called, p.cancelled)
    && CallsOk(p.called, p.freed) && FreedOk(p.objs, p.nextId, p.cancelled, p.freed)
  }

  /** An event changes, and stays in flight or out of it. */
  lemma PutKeepsReports(p: Pool, d: Id, x: Dns)
    requires ReportsOk(p) && d in p.objs && x.deleted == p.objs[d].deleted
    requires InFlightPlace(x.place) == InFlightPlace(p.objs[d].place)
    ensures ReportsOk(SetDns(p, d, x))
  {
    assert InFlight(p.objs[d := x]) == InFlight(p.objs);
  }

  lemma NewKeepsReports(p: Pool)
    requires ReportsOk(p) && p.nextId !in p.objs
    ensures ReportsOk(Apply(p, New))
  {
    assert InFlight(p.objs[p.nextId := FRESH]) == InFlight(p.objs);
    assert p.nextId !in p.freed;
  }

  lemma EnqueueKeepsReports(p: Pool, d: Id, wake: Wid)
    requires ReportsOk(p) && Enabled(p, Enqueue(d, wake))
    ensures ReportsOk(ApplyEnqueue(p, d, wake))
  {
    if p.mode != Running {
      PutKeepsReports(p, d, p.objs[d].(pending := false, place := Nowhere));
    } else {
      var x := p.objs[d].(place := InQueue);
      assert InFlight(p.objs[d := x]) == InFlight(p.objs) + {d} && d !in InFlight(p.objs);
      forall c ensures Times(p.queuedEver + [d], c) == Times(p.queuedEver, c) + if c == d then 1 else 0 {
        TimesAppend(p.queuedEver, d, c);
      }
    }
  }

  /** A pending event is marked. */
  lemma MarkKeepsFreed(objs: Objs, nextId: nat, cancelled: seq<Id>, freed: map<Id, Freeing>, d: Id, calls: nat)
    requires FreedOk(objs, nextId, cancelled, freed) && d in objs && d < nextId && d !in freed
    ensures FreedOk(objs[d := objs[d].(deleted := true)], nextId, cancelled, freed[d := Freeing(calls, true)])
  {
  }

  /** An idle one is destroyed. */
  lemma DestroyKeepsFreed(objs: Objs, nextId: nat, cancelled: seq<Id>, freed: map<Id, Freeing>, d: Id, calls: nat)
    requires FreedOk(objs, nextId, cancelled, freed) && d in objs && d < nextId && d !in freed
    ensures FreedOk(objs - {d}, nextId, cancelled, freed[d := Freeing(calls, false)])
  {
  }

  lemma MarkKeepsReports(p: Pool, d: Id)
    requires ObjsOk(p.objs, p.nextId) && ReportsOk(p) && Enabled(p, FreeCall(d)) && p.objs[d].pending
    ensures ReportsOk(ApplyFree(p, d))
  {
    assert InFlight(p.objs[d := p.objs[d].(deleted := true)]) == InFlight(p.objs);
    MarkKeepsFreed(p.objs, p.nextId, p.cancelled, p.freed, d, |p.called|);
  }

  lemma DestroyKeepsReports(p: Pool, d: Id)
    requires ObjsOk(p.objs, p.nextId) && ReportsOk(p) && Enabled(p, FreeCall(d)) && !p.objs[d].pending
    ensures ReportsOk(ApplyFree(p, d))
  {
    assert InFlight(p.objs - {d}) == InFlight(p.objs);
    DestroyKeepsFreed(p.objs, p.nextId, p.cancelled, p.freed, d, |p.called|);
  }

  lemma FreeKeepsReports(p: Pool, d: Id)
    requires Inv(p) && ReportsOk(p) && Enabled(p, FreeCall(d))
    ensures ReportsOk(ApplyFree(p, d))
  {
    if p.objs[d].pending {
      MarkKeepsReports(p, d);
    } else {
      DestroyKeepsReports(p, d);
    }
  }

  /** The request is in flight no more. */
  lemma EndKeepsAccount(objs: Objs, objs': Objs, queued: seq<Id>, called: seq<Id>, cancelled: seq<Id>, d: Id)
    requires Accounted(objs, queued, called, cancelled)
    requires d in InFlight(objs) && InFlight(objs') == InFlight(objs) - {d}
    ensures Accounted(objs', queued, called + [d], cancelled) && Accounted(objs', queued, called, cancelled + [d])
  {
    forall c ensures Times(called + [d], c) == Times(called, c) + if c == d then 1 else 0 {
      TimesAppend(called, d, c);
    }
    forall c ensures Times(cancelled + [d], c) == Times(cancelled, c) + if c == d then 1 else 0 {
      TimesAppend(cancelled, d, c);
    }
  }

  /** The dispatched notification of a live event runs the callback. */
  lemma CallKeepsReports(p: Pool, d: Id)
    requires Inv(p) && ReportsOk(p) && Enabled(p, OnAsync(d)) && !p.objs[d].deleted
    ensures ReportsOk(ApplyOnAsync(p, d)) && ApplyOnAsync(p, d).called == p.called + [d]
  {
    var x := p.objs[d].(notified := false, pending := false, completed := false, place := Nowhere);
    EndKeepsAccount(p.objs, p.objs[d := x], p.queuedEver, p.called, p.cancelled, d);
  }

  lemma CancelKeepsFreed(objs: Objs, nextId: nat, cancelled: seq<Id>, freed: map<Id, Freeing>, d: Id)
    requires FreedOk(objs, nextId, cancelled, freed) && d in objs && d in freed
    ensures FreedOk(objs - {d}, nextId, cancelled + [d], freed)
  {
    assert d !in cancelled;
    forall c ensures c in cancelled + [d] <==> c in cancelled || c == d {
    }
  }

  /** That of a freed event drops the request. */
  lemma CancelKeepsReports(p: Pool, d: Id)
    requires Inv(p) && ReportsOk(p) && Enabled(p, OnAsync(d)) && p.objs[d].deleted
    ensures ReportsOk(ApplyOnAsync(p, d)) && ApplyOnAsync(p, d).cancelled == p.cancelled + [d]
  {
    var x := p.objs[d].(notified := false, pending := false, completed := false, place := Nowhere);
    assert p.objs[d := x] - {d} == p.objs - {d};
    EndKeepsAccount(p.objs, p.objs - {d}, p.queuedEver, p.called, p.cancelled, d);
    CancelKeepsFreed(p.objs, p.nextId, p.cancelled, p.freed, d);
  }

  lemma WorkerKeepsReports(p: Pool, s: Step)
    requires Inv(p) && ReportsOk(p) && Enabled(p, s) && (s.Look? || s.Complete? || s.Notify?)
    ensures ReportsOk(Apply(p, s))
  {
    match s
    case Look(w) =>
      if p.queue != [] {
        var d := p.queue[0];
        assert d in p.queue;
        PutKeepsReports(p, d, p.objs[d].(place := With(w)));
      }
    case Complete(w) =>
      var d := p.workers[w].d;
      PutKeepsReports(p, d, p.objs[d].(completed := true, place := Reporting(w)));
    case Notify(w, written) =>
      var d := p.workers[w].d;
      PutKeepsReports(p, d, p.objs[d].(notified := true, place := Outstanding));
      PutKeepsReports(p, d, p.objs[d].(place := Lost));
  }

  lemma StepKeepsReports(p: Pool, s: Step)
    requires Inv(p) && ReportsOk(p) && Enabled(p, s)
    ensures ReportsOk(Apply(p, s))
  {
    match s
    case New => NewKeepsReports(p);
    case BeginResolve(d) =>
      if !p.objs[d].pending {
        PutKeepsReports(p, d, p.objs[d].(pending := true, completed := false, place := Preparing));
      }
    case Enqueue(d, wake) => EnqueueKeepsReports(p, d, wake);
    case FreeCall(d) => FreeKeepsReports(p, d);
    case OnAsync(d) => if p.objs[d].deleted { CancelKeepsReports(p, d); } else { CallKeepsReports(p, d); }
    case Look(_) => WorkerKeepsReports(p, s);
    case Complete(_) => WorkerKeepsReports(p, s);
    case Notify(_, _) => WorkerKeepsReports(p, s);
    case _ =>
  }

  lemma {:induction false} RunKeepsReports(p: Pool, run: seq<Step>)
    requires Inv(p) && ReportsOk(p) && IsRun(p, run)
    ensures ReportsOk(After(p, run))
    decreases |run|
  {
    if run == [] {
    } else {
      StepKeeps(p, run[0]);
      StepKeepsReports(p, run[0]);
      RunKeepsReports(Apply(p, run[0]), run[1..]);
    }
  }

  lemma InitOk()
    ensures Inv(INIT) && ReportsOk(INIT)
  {
    assert InFlight(INIT.objs) == {} && SignalledSet(INIT.workers) == {};
  }

  /** Under every interleaving, event by event: each accepted resolve has run its callback once, was dropped once, or is
      in flight; and no callback runs for an event that is freed. */
  lemma EachResolveIsAccounted(run: seq<Step>, d: Id, i: nat)
    requires IsRun(INIT, run)
    ensures var p := After(INIT, run);
      && Times(p.queuedEver, d) ==
         Times(p.called, d) + Times(p.cancelled, d) + (if d in InFlight(p.objs) then 1 else 0)
      && (i < |p.called| && p.called[i] in p.freed ==> i < p.freed[p.called[i]].calls)
  {
    InitOk();
    RunKeepsReports(INIT, run);
  }

  /** Under every interleaving the dropped resolves are those that were pending when their event was freed and whose
      notification has been dispatched since, each once. An event freed while idle is gone at once; one freed with
      a request pending stays, marked, exactly until then. */
  lemma DroppedAreFreedPending(run: seq<Step>, d: Id)
    requires IsRun(INIT, run)
    ensures var p := After(INIT, run);
      && Times(p.cancelled, d) <= 1
      && (d in p.cancelled <==> d in p.freed && p.freed[d].pending && d !in p.objs)
      && (d in p.freed && !p.freed[d].pending ==> d !in p.objs)
      && (d in p.objs ==> (p.objs[d].deleted <==> d in p.freed))
  {
    InitOk();
    RunKeepsReports(INIT, run);
    DistinctTimes(After(INIT, run).cancelled, d);
  }

  lemma {:induction false} DistinctTimes(s: seq<Id>, d: Id)
    requires Distinct(s)
    ensures Times(s, d) <= 1
  {
    if s == [] {
    } else {
      DistinctTimes(s[1..], d);
      assert s == [s[0]] + s[1..] && s[0] !in s[1..];
    }
  }

  /** The notifications dispatched for an event. */
  ghost function Dispatched(run: seq<Step>, d: Id): nat {
    if run == [] then 0 else (if run[0] == OnAsync(d) then 1 else 0) + Dispatched(run[1..], d)
  }

  lemma DispatchAnswers(p: Pool, x: Id, d: Id)
    requires Inv(p) && Enabled(p, OnAsync(x))
    ensures var p' := Apply(p, OnAsync(x));
      Times(p'.called, d) + Times(p'.cancelled, d) ==
      Times(p.called, d) + Times(p.cancelled, d) + if x == d then 1 else 0
  {
    TimesAppend(p.called, x, d);
    TimesAppend(p.cancelled, x, d);
  }

  lemma WorkersAnswerNothing(p: Pool, s: Step)
    requires Enabled(p, s) && (s.Look? || s.Complete? || s.Notify?)
    ensures Apply(p, s).called == p.called && Apply(p, s).cancelled == p.cancelled
  {
  }

  lemma OthersAnswerNothing(p: Pool, s: Step)
    requires Enabled(p, s) && !s.OnAsync?
    ensures Apply(p, s).called == p.called && Apply(p, s).cancelled == p.cancelled
  {
    match s
    case Look(w) => WorkersAnswerNothing(p, s);
    case Complete(w) => WorkersAnswerNothing(p, s);
    case Notify(w, _) => WorkersAnswerNothing(p, s);
    case _ =>
  }

  lemma StepAnswersDispatch(p: Pool, s: Step, d: Id)
    requires Inv(p) && Enabled(p, s)
    ensures var p' := Apply(p, s);
      Times(p'.called, d) + Times(p'.cancelled, d) ==
      Times(p.called, d) + Times(p.cancelled, d) + if s == OnAsync(d) then 1 else 0
  {
    if s.OnAsync? {
      DispatchAnswers(p, s.d, d);
    } else {
      OthersAnswerNothing(p, s);
    }
  }

  lemma {:induction false} RunAnswersDispatches(p: Pool, run: seq<Step>, d: Id)
    requires Inv(p) && IsRun(p, run)
    ensures var p' := After(p, run);
      Times(p'.called, d) + Times(p'.cancelled, d) ==
      Times(p.called, d) + Times(p.cancelled, d) + Dispatched(run, d)
    decreases |run|
  {
    if run == [] {
    } else {
      StepKeeps(p, run[0]);
      StepAnswersDispatch(p, run[0], d);
      RunAnswersDispatches(Apply(p, run[0]), run[1..], d);
    }
  }

  /** Under every interleaving: an event that is not freed has had its callback run once for each notification
      dispatched, and nothing dropped. */
  lemma LiveEventsAreCalled(run: seq<Step>, d: Id)
    requires IsRun(INIT, run) && d !in After(INIT, run).freed
    ensures Times(After(INIT, run).called, d) == Dispatched(run, d) && d !in After(INIT, run).cancelled
  {
    InitOk();
    RunKeepsReports(INIT, run);
    RunAnswersDispatches(INIT, run, d);
    TimesAppend(After(INIT, run).cancelled, 0, d);
  }

  /** A resolve is taken up exactly when the event is idle, and then queued exactly when the pool is running; if it is
      not, the event is idle again. */
  lemma ResolveIsQueuedIff(p: Pool, d: Id)
    requires Inv(p) && Enabled(p, BeginResolve(d))
    ensures var p' := Apply(p, BeginResolve(d));
      && p'.objs[d].pending && (p'.objs[d].place == Preparing <==> !p.objs[d].pending || p.objs[d].place == Preparing)
      && (p.objs[d].pending ==> p' == p)
      && forall wake | Enabled(p', Enqueue(d, wake)) ::
           var p'' := Apply(p', Enqueue(d, wake));
           && (p''.queuedEver == p.queuedEver + [d] <==> p.mode == Running)
           && (p.mode == Running ==> p''.objs[d].pending && p''.queue == p.queue + [d])
           && (p.mode != Running ==> !p''.objs[d].pending && p''.queue == p.queue)
  {
    assert |p.queuedEver + [d]| == |p.queuedEver| + 1;
  }
}
