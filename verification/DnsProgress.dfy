/** Every accepted resolve can be brought to its end: workers and the loop thread alone get there. */
module DnsProgress {
  import opened Dns
  import opened DnsSafety
  import opened DnsReports

  /** A request on its way, with `i` its position in the queue while it is there and `w` a worker to go on with. */
  ghost predicate OnItsWay(p: Pool, d: Id, w: Wid, i: nat) {
    && d in p.objs && InFlightPlace(p.objs[d].place) && !p.objs[d].place.Lost?
    && (p.objs[d].place.InQueue? ==> w in p.workers && i < |p.queue| && p.queue[i] == d)
  }

  ghost function WorkerRank(x: Worker): nat {
    match x
    case Resolving(_) => 2
    case Notifying(_) => 1
    case Blocked => 1
    case _ => 0
  }

  ghost function Rank(p: Pool, d: Id, w: Wid, i: nat): nat
    requires OnItsWay(p, d, w, i)
  {
    match p.objs[d].place
    case InQueue => 4 + 4 * i + WorkerRank(p.workers[w])
    case With(_) => 3
    case Reporting(_) => 2
    case _ => 1
  }

  /** What to do next. */
  ghost function Next(p: Pool, d: Id, w: Wid, i: nat): Step
    requires OnItsWay(p, d, w, i)
  {
    match p.objs[d].place
    case InQueue =>
      (match p.workers[w]
       case Resolving(_) => Complete(w)
       case Notifying(_) => Notify(w, true)
       case Blocked => Wake(w)
       case _ => Look(w))
    case With(v) => Complete(v)
    case Reporting(v) => Notify(v, true)
    case _ => OnAsync(d)
  }

  /** Steps of workers and of the loop's dispatch of the event's own notification. */
  predicate Internal(s: Step, d: Id) {
    s.Look? || s.Complete? || s.Wake? || (s.Notify? && s.written) || s == OnAsync(d)
  }

  /** The step has brought the request nearer to its end. */
  ghost predicate Nearer(p: Pool, d: Id, w: Wid, i: nat, p': Pool, i': nat)
    requires OnItsWay(p, d, w, i)
  {
    && OnItsWay(p', d, w, i') && Rank(p', d, w, i') < Rank(p, d, w, i)
    && p'.objs[d].deleted == p.objs[d].deleted && p'.called == p.called && p'.cancelled == p.cancelled
  }

  lemma LookAdvances(p: Pool, d: Id, w: Wid, i: nat)
    requires Inv(p) && OnItsWay(p, d, w, i) && p.objs[d].place.InQueue? && Next(p, d, w, i) == Look(w)
    ensures Enabled(p, Look(w)) && Nearer(p, d, w, i, Apply(p, Look(w)), if i > 0 then i - 1 else i)
  {
    assert !p.workers[w].Exited? && p.queue[0] in p.queue;
  }

  lemma QueueAdvances(p: Pool, d: Id, w: Wid, i: nat)
    requires Inv(p) && OnItsWay(p, d, w, i) && p.objs[d].place.InQueue?
    ensures var s := Next(p, d, w, i);
      && Enabled(p, s) && Internal(s, d)
      && Nearer(p, d, w, i, Apply(p, s), if s.Look? && i > 0 then i - 1 else i)
  {
    if Next(p, d, w, i) == Look(w) {
      LookAdvances(p, d, w, i);
    }
  }

  lemma HandsAdvance(p: Pool, d: Id, w: Wid, i: nat)
    requires Inv(p) && OnItsWay(p, d, w, i) && (p.objs[d].place.With? || p.objs[d].place.Reporting?)
    ensures var s := Next(p, d, w, i); Enabled(p, s) && Internal(s, d) && Nearer(p, d, w, i, Apply(p, s), i)
  {
  }

  /** The notification is dispatched: the callback runs, or the request of a freed event is dropped. */
  lemma DispatchEnds(p: Pool, d: Id)
    requires Inv(p) && d in p.objs && p.objs[d].place.Outstanding?
    ensures Enabled(p, OnAsync(d))
    ensures var p' := Apply(p, OnAsync(d));
      if p.objs[d].deleted then p'.cancelled == p.cancelled + [d] && p'.called == p.called
      else p'.called == p.called + [d] && p'.cancelled == p.cancelled
  {
  }

  /** From every state that can be reached, for every accepted resolve whose notification was not lost: some steps of
      workers and one dispatch, and no call of a client, end it; the callback has then run once more, unless the event
      was freed. */
  lemma EndsSomehow(p: Pool, d: Id, w: Wid, i: nat) returns (run: seq<Step>)
    requires Inv(p) && OnItsWay(p, d, w, i)
    ensures IsRun(p, run) && forall s | s in run :: Internal(s, d)
    ensures var p' := After(p, run);
      if p.objs[d].deleted then p'.cancelled == p.cancelled + [d] && p'.called == p.called
      else p'.called == p.called + [d] && p'.cancelled == p.cancelled
    decreases Rank(p, d, w, i)
  {
    var s := Next(p, d, w, i);
    if p.objs[d].place.Outstanding? {
      DispatchEnds(p, d);
      run := [s];
      assert run[1..] == [] && IsRun(Apply(p, s), []);
    } else {
      var i' := i;
      if p.objs[d].place.InQueue? {
        QueueAdvances(p, d, w, i);
        i' := if s.Look? && i > 0 then i - 1 else i;
      } else {
        HandsAdvance(p, d, w, i);
      }
      StepKeeps(p, s);
      var rest := EndsSomehow(Apply(p, s), d, w, i');
      run := [s] + rest;
      assert run[1..] == rest;
    }
  }

  /** A queued request has its place in the queue, and there is a worker. */
  lemma IsOnItsWay(p: Pool, d: Id) returns (w: Wid, i: nat)
    requires Inv(p) && d in InFlight(p.objs) && !p.objs[d].place.Lost?
    ensures OnItsWay(p, d, w, i)
  {
    w, i := 0, 0;
    if p.objs[d].place.InQueue? {
      assert d in p.queue;
      i :| 0 <= i < |p.queue| && p.queue[i] == d;
      w :| w in p.workers;
    }
  }

  lemma EveryResolveCanEnd(run0: seq<Step>, d: Id) returns (run: seq<Step>)
    requires IsRun(INIT, run0) && d in InFlight(After(INIT, run0).objs) && !After(INIT, run0).objs[d].place.Lost?
    ensures var p := After(INIT, run0);
      && IsRun(p, run) && (forall s | s in run :: Internal(s, d))
      && var p' := After(p, run);
         if p.objs[d].deleted then p'.cancelled == p.cancelled + [d] && p'.called == p.called
         else p'.called == p.called + [d] && p'.cancelled == p.cancelled
  {
    InitOk();
    RunKeeps(INIT, run0);
    var w, i := IsOnItsWay(After(INIT, run0), d);
    run := EndsSomehow(After(INIT, run0), d, w, i);
  }

  // ---------- a resolve from the start ----------

  lemma {:induction false} RunsOn(p: Pool, run1: seq<Step>, run2: seq<Step>)
    requires IsRun(p, run1) && IsRun(After(p, run1), run2)
    ensures IsRun(p, run1 + run2) && After(p, run1 + run2) == After(After(p, run1), run2)
    decreases |run1|
  {
    if run1 == [] {
      assert run1 + run2 == run2;
    } else {
      RunsOn(Apply(p, run1[0]), run1[1..], run2);
      assert (run1 + run2)[1..] == run1[1..] + run2;
    }
  }

  lemma OneStep(p: Pool, s: Step)
    requires Enabled(p, s)
    ensures IsRun(p, [s]) && After(p, [s]) == Apply(p, s)
  {
    assert [s][1..] == [] && IsRun(Apply(p, s), []);
  }

  /** Workers are started if there are none. */
  lemma HasWorkers(p: Pool) returns (run: seq<Step>, w: Wid)
    requires Inv(p) && p.mode == Running
    ensures IsRun(p, run) && Inv(After(p, run)) && w in After(p, run).workers
    ensures After(p, run) == p.(workers := After(p, run).workers)
  {
    if p.workers == map[] {
      OneStep(p, StartWorkers(1));
      StepKeeps(p, StartWorkers(1));
      run, w := [StartWorkers(1)], 0;
    } else {
      run := [];
      w :| w in p.workers;
    }
  }

  /** The worker that `cond_signal` wakes, if one sleeps. */
  lemma Wakeable(p: Pool) returns (wake: Wid)
    ensures (exists w | w in p.workers :: p.workers[w].Blocked?) ==> wake in p.workers && p.workers[wake].Blocked?
  {
    wake := 0;
    if w :| w in p.workers && p.workers[w].Blocked? {
      wake := w;
    }
  }

  /** From every state that can be reached with the pool running: a resolve of an idle event is accepted, and its
      callback can be brought about. */
  lemma ResolveLeadsToCallback(p: Pool, d: Id) returns (run: seq<Step>)
    requires Inv(p) && p.mode == Running && d in p.objs && !p.objs[d].pending
    ensures IsRun(p, run) && BeginResolve(d) in run
    ensures After(p, run).queuedEver == p.queuedEver + [d] && After(p, run).called == p.called + [d]
  {
    var run0, w := HasWorkers(p);
    var p1 := After(p, run0);
    ResolveIsQueuedIff(p1, d);
    OneStep(p1, BeginResolve(d));
    StepKeeps(p1, BeginResolve(d));
    var p2 := Apply(p1, BeginResolve(d));
    var wake := Wakeable(p2);
    OneStep(p2, Enqueue(d, wake));
    StepKeeps(p2, Enqueue(d, wake));
    var p3 := Apply(p2, Enqueue(d, wake));
    var rest := EndsQueued(p3, d, w, |p.queue|);
    RunsOn(p2, [Enqueue(d, wake)], rest);
    RunsOn(p1, [BeginResolve(d)], [Enqueue(d, wake)] + rest);
    RunsOn(p, run0, [BeginResolve(d)] + ([Enqueue(d, wake)] + rest));
    run := run0 + ([BeginResolve(d)] + ([Enqueue(d, wake)] + rest));
    assert ([BeginResolve(d)] + ([Enqueue(d, wake)] + rest))[0] in run;
  }

  /** Nothing is queued on the way. */
  lemma EndsQueued(p: Pool, d: Id, w: Wid, i: nat) returns (run: seq<Step>)
    requires Inv(p) && OnItsWay(p, d, w, i) && !p.objs[d].deleted
    ensures IsRun(p, run) && After(p, run).called == p.called + [d] && After(p, run).queuedEver == p.queuedEver
  {
    run := EndsSomehow(p, d, w, i);
    InternalQueuesNothing(p, d, run);
  }

  lemma {:induction false} InternalQueuesNothing(p: Pool, d: Id, run: seq<Step>)
    requires IsRun(p, run) && forall s | s in run :: Internal(s, d)
    ensures After(p, run).queuedEver == p.queuedEver
    decreases |run|
  {
    if run == [] {
    } else {
      assert run[0] in run && forall s | s in run[1..] :: s in run;
      InternalQueuesNothing(Apply(p, run[0]), d, run[1..]);
    }
  }

  // ---------- stopping ----------

  ghost function Active(ws: Workers): set<Wid> {
    set w | w in ws && !ws[w].Exited?
  }

  /** What a worker of a pool that is stopping does next. */
  function Onwards(w: Wid, x: Worker): Step {
    match x
    case Resolving(_) => Complete(w)
    case Notifying(_) => Notify(w, true)
    case _ => Look(w)
  }

  ghost predicate Leaving(p: Pool) {
    Inv(p) && (p.mode == Stopping || p.mode == Aborting)
  }

  /** The queue gets shorter, or a worker returns, or it gets nearer to looking at the queue. */
  ghost predicate MovedOn(p: Pool, w: Wid, p': Pool)
    requires w in p.workers
  {
    && p'.mode == p.mode && p'.queuedEver == p.queuedEver && w in p'.workers
    && (|p'.queue| < |p.queue| || (p'.queue == p.queue && (
          || (w !in Active(p'.workers) && Active(p'.workers) == Active(p.workers) - {w})
          || (Active(p'.workers) == Active(p.workers) && WorkerRank(p'.workers[w]) < WorkerRank(p.workers[w])))))
  }

  lemma LookMovesOn(p: Pool, w: Wid)
    requires Leaving(p) && w in Active(p.workers) && Onwards(w, p.workers[w]) == Look(w)
    ensures Enabled(p, Look(w)) && MovedOn(p, w, Apply(p, Look(w)))
  {
    if p.queue == [] {
      assert Active(p.workers[w := Exited]) == Active(p.workers) - {w};
    }
  }

  lemma CompleteMovesOn(p: Pool, w: Wid)
    requires Leaving(p) && w in p.workers && p.workers[w].Resolving?
    ensures Enabled(p, Complete(w)) && MovedOn(p, w, Apply(p, Complete(w)))
  {
    assert Active(p.workers[w := Notifying(p.workers[w].d)]) == Active(p.workers);
  }

  lemma NotifyMovesOn(p: Pool, w: Wid)
    requires Leaving(p) && w in p.workers && p.workers[w].Notifying?
    ensures Enabled(p, Notify(w, true)) && MovedOn(p, w, Apply(p, Notify(w, true)))
  {
    assert Active(p.workers[w := Ready]) == Active(p.workers);
  }

  lemma WorkerMovesOn(p: Pool, w: Wid)
    requires Leaving(p) && w in Active(p.workers)
    ensures var s := Onwards(w, p.workers[w]); Enabled(p, s) && MovedOn(p, w, Apply(p, s))
  {
    match p.workers[w]
    case Resolving(_) => CompleteMovesOn(p, w);
    case Notifying(_) => NotifyMovesOn(p, w);
    case _ => LookMovesOn(p, w);
  }

  /** All workers of a pool that is stopping can return, and then no request is left behind. */
  lemma WorkersReturn(p: Pool, w: Wid) returns (run: seq<Step>)
    requires Leaving(p) && (Active(p.workers) != {} ==> w in Active(p.workers))
    ensures IsRun(p, run)
    ensures var p' := After(p, run);
      Leaving(p') && p'.mode == p.mode && p'.queuedEver == p.queuedEver && p'.queue == [] && Active(p'.workers) == {}
    decreases |p.queue|, |Active(p.workers)|, if w in p.workers then WorkerRank(p.workers[w]) else 0
  {
    if Active(p.workers) == {} {
      run := [];
      assert p.queue != [] ==> exists v | v in p.workers :: v in Active(p.workers);
    } else {
      var s := Onwards(w, p.workers[w]);
      WorkerMovesOn(p, w);
      StepKeeps(p, s);
      var p' := Apply(p, s);
      var v := w;
      if Active(p'.workers) != {} && w !in Active(p'.workers) {
        v :| v in Active(p'.workers);
      }
      var rest := WorkersReturn(p', v);
      run := [s] + rest;
      assert run[1..] == rest;
    }
  }

  lemma AnyActive(p: Pool) returns (w: Wid)
    ensures Active(p.workers) != {} ==> w in Active(p.workers)
  {
    w := 0;
    if Active(p.workers) != {} {
      w :| w in Active(p.workers);
    }
  }

  /** From every state that can be reached, `dns_term` can return, and then every accepted request was taken. */
  lemma TermCanReturn(p: Pool) returns (run: seq<Step>)
    requires Inv(p) && (p.mode == Running || p.mode == Stopping)
    ensures IsRun(p, run)
    ensures var p' := After(p, run);
      p'.mode == Terminated && p'.queuedEver == p.queuedEver && p'.takenEver == p.queuedEver
  {
    var first := if p.mode == Running then [Term] else [];
    if p.mode == Running {
      OneStep(p, Term);
      StepKeeps(p, Term);
    }
    var p1 := After(p, first);
    var w := AnyActive(p1);
    var rest := WorkersReturn(p1, w);
    var p2 := After(p1, rest);
    assert forall v | v in p2.workers :: v !in Active(p2.workers);
    OneStep(p2, TermReturns);
    RunsOn(p1, rest, [TermReturns]);
    RunsOn(p, first, rest + [TermReturns]);
    run := first + (rest + [TermReturns]);
  }

  /** A start that failed can be taken back: the pool runs again, without workers, and accepts resolves. */
  lemma FailedStartIsTakenBack(p: Pool, n: nat) returns (run: seq<Step>)
    requires Inv(p) && Enabled(p, StartFails(n))
    ensures IsRun(p, run) && run != [] && run[0] == StartFails(n)
    ensures Apply(p, StartFails(n)).mode != Running
    ensures After(p, run).mode == Running && After(p, run).workers == map[] && Inv(After(p, run))
  {
    OneStep(p, StartFails(n));
    StepKeeps(p, StartFails(n));
    var p1 := Apply(p, StartFails(n));
    var w := AnyActive(p1);
    var rest := WorkersReturn(p1, w);
    var p2 := After(p1, rest);
    assert forall v | v in p2.workers :: v !in Active(p2.workers);
    OneStep(p2, AbortReturns);
    StepKeeps(p2, AbortReturns);
    RunsOn(p1, rest, [AbortReturns]);
    RunsOn(p, [StartFails(n)], rest + [AbortReturns]);
    run := [StartFails(n)] + (rest + [AbortReturns]);
  }
}
