/** What callbacks are told and when an event is in error, over whole runs of the TCP loop. */
module TcpReports {
  import opened TcpEvent
  import opened TcpOutcomes
  import opened TcpInvariant
  import opened TcpLoop
  import opened TcpTheorems

  /** History, told from the steps: the latest outcome of the operations of each event and direction, as the kernel
      gave it or 0 for what was over at once; the statuses the callbacks are to be told, in order; and the events on
      which a call, an operation or a timeout has failed. */
  datatype History = History(outcomes: map<Ev, int>, told: seq<int>, failed: set<Id>)

  const NOTHING := History(map[], [], {})

  /** A call that passes its checks and does not get what it needs. */
  predicate CallFails(b: Backend, t: Tcp, k: Kind, args: Args, e: Env) {
    Admitted(t, k, args) && !Works(b, t, k, args, e)
  }

  ghost function Marked(failed: set<Id>, id: Id, fails: bool): set<Id> {
    if fails then failed + {id} else failed
  }

  ghost function AfterStart(w: World, id: Id, k: Kind, args: Args, e: Env, h: History): History
    requires id in w.objs
  {
    var t := w.objs[id];
    if CallFails(w.backend, t, k, args, e) then h.(failed := Marked(h.failed, id, true))
    else if Admitted(t, k, args) && AtOnce(w.backend, k, e) then h.(outcomes := h.outcomes[Ev(id, DirOf(k)) := 0])
    else h
  }

  ghost function AfterListen(w: World, s: Step, h: History): History
    requires s.ListenCall? && s.id in w.objs
  {
    if s.valid && !w.objs[s.id].open && !(s.socket == GoodSocket && s.register && s.ready)
    then h.(failed := h.failed + {s.id}) else h
  }

  /** The callback of the operation that the completion `ev` ends is still to run. */
  predicate HasCallback(t: Tcp, d: Dir) {
    t.Callback(PendingKind(t, d)).Of? && !t.deleted
  }

  /** A completion with this outcome is dispatched for direction `d` of event `id`. */
  ghost function AfterOutcome(t: Tcp, id: Id, d: Dir, status: int, room: bool, h: History): History {
    var told := if PendingKind(t, d) == Accepting && status == 0 && !room then NO_MEMORY else status;
    h.(told := if HasCallback(t, d) then h.told + [told] else h.told, failed := Marked(h.failed, id, status != 0))
  }

  ghost function AfterDeliver(w: World, room: bool, h: History): History
    requires w.batch != []
  {
    var ev := w.batch[0];
    if ev.id in w.objs && ev in h.outcomes then AfterOutcome(w.objs[ev.id], ev.id, ev.dir, h.outcomes[ev], room, h)
    else h
  }

  ghost function HistoryStep(w: World, s: Step, h: History): History
    requires Enabled(w, s)
  {
    match s
    case StartCall(id, k, args, e) => AfterStart(w, id, k, args, e, h)
    case ListenCall(_, _, _, _, _) => AfterListen(w, s, h)
    case TimeoutFires(id, _, _) => h.(told := h.told + [TIMED_OUT], failed := h.failed + {id})
    case ReportReady(id, d, report) =>
      if |w.batch| < MAX_EVENTS && Answers(w.objs[id], d, report)
      then h.(outcomes := h.outcomes[Ev(id, d) := Answer(report)]) else h
    case Dequeue(ev, status) => h.(outcomes := h.outcomes[ev := status])
    case Deliver(_, room) => AfterDeliver(w, room, h)
    case _ => h
  }

  ghost function HistoryOf(w: World, steps: seq<Step>, h: History): History
    requires IsRun(w, steps)
    decreases |steps|
  {
    if steps == [] then h else HistoryOf(Apply(w, steps[0]), steps[1..], HistoryStep(w, steps[0], h))
  }

  /** The completion carries the outcome of its operation. */
  ghost predicate Carries(objs: Objs, outcomes: map<Ev, int>, ev: Ev) {
    ev.id in objs && ev in outcomes && Context(objs[ev.id], ev.dir) == outcomes[ev]
  }

  ghost predicate CarriedOk(objs: Objs, fake: seq<Ev>, batch: seq<Ev>, outcomes: map<Ev, int>) {
    && (forall ev | ev in fake :: Carries(objs, outcomes, ev))
    && (forall ev | ev in batch :: Carries(objs, outcomes, ev))
  }

  ghost predicate ToldOk(log: seq<Entry>, told: seq<int>) {
    |log| == |told| && forall i | 0 <= i < |log| :: log[i].call.status == told[i]
  }

  ghost predicate ErrorsOk(objs: Objs, nextId: nat, failed: set<Id>) {
    && (forall id | id in objs :: objs[id].error <==> id in failed)
    && (forall id | id in failed :: id < nextId)
  }

  /** The user was told of a failure of the event, and not only that an accepted connection got no event. */
  predicate TellsFailure(c: Call) {
    c.status != 0 && !(c.kind == Accepting && c.status == NO_MEMORY)
  }

  ghost predicate FailuresOk(log: seq<Entry>, failed: set<Id>) {
    forall i | 0 <= i < |log| && TellsFailure(log[i].call) :: log[i].id in failed
  }

  ghost predicate HistoryOk(w: World, h: History) {
    && CarriedOk(w.objs, w.fake, w.batch, h.outcomes) && ToldOk(w.log, h.told)
    && ErrorsOk(w.objs, w.nextId, h.failed) && FailuresOk(w.log, h.failed)
  }

  // ---------- one event changes ----------

  lemma PutKeepsErrors(objs: Objs, nextId: nat, failed: set<Id>, id: Id, t: Tcp, fails: bool)
    requires ErrorsOk(objs, nextId, failed) && id in objs && id < nextId && (t.error <==> objs[id].error || fails)
    ensures ErrorsOk(objs[id := t], nextId, Marked(failed, id, fails))
  {
  }

  lemma NewKeepsErrors(objs: Objs, nextId: nat, failed: set<Id>, t: Tcp)
    requires ErrorsOk(objs, nextId, failed) && !t.error
    ensures ErrorsOk(objs[nextId := t], nextId + 1, failed)
  {
    assert nextId !in failed;
  }

  /** The event keeps the status of every completion under way. */
  lemma PutKeepsCarried(objs: Objs, fake: seq<Ev>, batch: seq<Ev>, outcomes: map<Ev, int>, id: Id, t: Tcp)
    requires CarriedOk(objs, fake, batch, outcomes) && id in objs
    requires forall d :: Ev(id, d) in fake || Ev(id, d) in batch ==> Context(t, d) == Context(objs[id], d)
    ensures CarriedOk(objs[id := t], fake, batch, outcomes)
  {
    forall ev | ev in fake || ev in batch ensures Carries(objs[id := t], outcomes, ev) {
      assert Carries(objs, outcomes, ev) && ev == Ev(ev.id, ev.dir);
    }
  }

  lemma NewKeepsCarried(objs: Objs, fake: seq<Ev>, batch: seq<Ev>, outcomes: map<Ev, int>, id: Id, t: Tcp)
    requires CarriedOk(objs, fake, batch, outcomes) && id !in objs
    ensures CarriedOk(objs[id := t], fake, batch, outcomes)
  {
    forall ev | ev in fake || ev in batch ensures Carries(objs[id := t], outcomes, ev) {
      assert Carries(objs, outcomes, ev);
    }
  }

  lemma RemoveKeepsCarried(objs: Objs, fake: seq<Ev>, batch: seq<Ev>, outcomes: map<Ev, int>, gone: set<Id>)
    requires CarriedOk(objs, fake, batch, outcomes)
    requires forall ev | ev in fake || ev in batch :: ev.id !in gone
    ensures CarriedOk(objs - gone, fake, batch, outcomes)
  {
    forall ev | ev in fake || ev in batch ensures Carries(objs - gone, outcomes, ev) {
      assert Carries(objs, outcomes, ev);
    }
  }

  // ---------- calls ----------

  /** What the call adds to the history, by its result. */
  lemma StartHistory(w: World, id: Id, k: Kind, args: Args, e: Env, h: History)
    requires ObjsOk(w.backend, w.objs, w.nextId) && Enabled(w, StartCall(id, k, args, e))
    ensures var r, ev := Start(w.backend, w.objs[id], k, args, w.nextTok, e), Ev(id, DirOf(k));
      && AfterStart(w, id, k, args, e, h).told == h.told
      && AfterStart(w, id, k, args, e, h).failed == Marked(h.failed, id, r.code == Fail)
      && AfterStart(w, id, k, args, e, h).outcomes ==
         (if r.queued && w.backend == Reactor then h.outcomes[ev := 0] else h.outcomes)
      && (r.queued && w.backend == Reactor ==> Context(r.tcp, DirOf(k)) == 0)
      && StartsOnly(w.backend, w.objs[id], r, k, w.nextTok)
  {
    StartKeepsOk(w.backend, w.objs[id], k, args, w.nextTok, e);
  }

  lemma StartKeepsCarried(b: Backend, objs: Objs, fake: seq<Ev>, batch: seq<Ev>, outcomes: map<Ev, int>, id: Id,
                          k: Kind, r: Started, tok: Token)
    requires CarriedOk(objs, fake, batch, outcomes) && forall ev | ev in fake || ev in batch :: Awaited(objs, ev)
    requires id in objs && StartsOnly(b, objs[id], r, k, tok)
    requires r.queued && b == Reactor ==> Context(r.tcp, DirOf(k)) == 0
    ensures var ev := Ev(id, DirOf(k));
      if r.queued && b == Reactor
      then CarriedOk(objs[id := r.tcp], fake + [ev], batch, outcomes[ev := 0])
      else CarriedOk(objs[id := r.tcp], fake, batch, outcomes)
  {
    var ev := Ev(id, DirOf(k));
    forall d | Ev(id, d) in fake || Ev(id, d) in batch ensures Context(r.tcp, d) == Context(objs[id], d) {
      assert Awaited(objs, Ev(id, d));
    }
    PutKeepsCarried(objs, fake, batch, outcomes, id, r.tcp);
    if r.queued && b == Reactor {
      forall x | x in fake || x in batch ensures x != ev {
        assert Awaited(objs, x);
      }
      forall x | x in fake + [ev] || x in batch ensures Carries(objs[id := r.tcp], outcomes[ev := 0], x) {
        assert x != ev ==> Carries(objs[id := r.tcp], outcomes, x);
      }
    }
  }

  lemma StartKeepsHistory(w: World, id: Id, k: Kind, args: Args, e: Env, h: History)
    requires Inv(w) && Enabled(w, StartCall(id, k, args, e)) && HistoryOk(w, h)
    ensures HistoryOk(Apply(w, StartCall(id, k, args, e)), AfterStart(w, id, k, args, e, h))
  {
    var r := Start(w.backend, w.objs[id], k, args, w.nextTok, e);
    StartHistory(w, id, k, args, e, h);
    assert forall ev | ev in w.fake || ev in w.batch :: Awaited(w.objs, ev);
    StartKeepsCarried(w.backend, w.objs, w.fake, w.batch, h.outcomes, id, k, r, w.nextTok);
    PutKeepsErrors(w.objs, w.nextId, h.failed, id, r.tcp, r.code == Fail);
  }

  lemma ListenHistory(w: World, s: Step, h: History)
    requires s.ListenCall? && s.id in w.objs
    ensures var r := Listen(w.objs[s.id], s.valid, s.socket, s.register, s.ready);
      && AfterListen(w, s, h) == h.(failed := Marked(h.failed, s.id, r.code == Fail))
      && (r.tcp.error <==> w.objs[s.id].error || r.code == Fail)
      && forall d :: Context(r.tcp, d) == Context(w.objs[s.id], d)
  {
    ListenIs(w.objs[s.id], s.valid, s.socket, s.register, s.ready);
  }

  lemma ListenKeepsHistory(w: World, s: Step, h: History)
    requires ObjsOk(w.backend, w.objs, w.nextId) && HistoryOk(w, h) && s.ListenCall? && Enabled(w, s)
    ensures HistoryOk(Apply(w, s), AfterListen(w, s, h))
  {
    ListenHistory(w, s, h);
    var r := Listen(w.objs[s.id], s.valid, s.socket, s.register, s.ready);
    PutKeepsErrors(w.objs, w.nextId, h.failed, s.id, r.tcp, r.code == Fail);
    PutKeepsCarried(w.objs, w.fake, w.batch, h.outcomes, s.id, r.tcp);
  }

  lemma FreeKeepsHistory(w: World, id: Id, h: History)
    requires Inv(w) && HistoryOk(w, h) && Enabled(w, FreeCall(id))
    ensures HistoryOk(Apply(w, FreeCall(id)), h)
  {
    var t := w.objs[id];
    FreeKeepsOk(w.backend, t);
    if Free(t).Kept? {
      PutKeepsErrors(w.objs, w.nextId, h.failed, id, Free(t).tcp, false);
      PutKeepsCarried(w.objs, w.fake, w.batch, h.outcomes, id, Free(t).tcp);
    } else {
      forall ev | ev in w.fake || ev in w.batch ensures ev.id != id {
        assert Awaited(w.objs, ev);
      }
      RemoveKeepsCarried(w.objs, w.fake, w.batch, h.outcomes, {id});
    }
  }

  lemma CallKeepsHistory(w: World, s: Step, h: History)
    requires Inv(w) && HistoryOk(w, h) && Enabled(w, s) && IsCall(s)
    ensures HistoryOk(Apply(w, s), HistoryStep(w, s, h))
  {
    match s
    case New => BirthKeepsHistory(w, FRESH, h);
    case StartCall(id, k, args, e) => StartKeepsHistory(w, id, k, args, e, h);
    case ListenCall(_, _, _, _, _) => ListenKeepsHistory(w, s, h);
    case FreeCall(id) => FreeKeepsHistory(w, id, h);
  }

  // ---------- the loop ----------

  lemma TimeoutHistory(b: Backend, t: Tcp, d: Dir, u: bool)
    requires TcpOk(b, t) && t.Armed(d)
    ensures var r := Timeout(b, t, d, u);
      && r.call.Runs? && r.call.call.status == TIMED_OUT && r.tcp.error
      && Context(r.tcp, Rd) == t.ctxRead && Context(r.tcp, Wr) == t.ctxWrite
  {
    TimeoutKeepsOk(b, t, d, u);
    TimeoutLeaves(b, t, d, u);
  }

  lemma ExpiryKeepsHistory(w: World, id: Id, r: Delivered, h: History)
    requires HistoryOk(w, h) && id in w.objs && id < w.nextId
    requires r.call.Runs? && r.call.call.status == TIMED_OUT && r.tcp.error
    requires Context(r.tcp, Rd) == w.objs[id].ctxRead && Context(r.tcp, Wr) == w.objs[id].ctxWrite
    ensures HistoryOk(w.(objs := w.objs[id := r.tcp], log := Logged(w.log, id, r.call)),
                      h.(told := h.told + [TIMED_OUT], failed := h.failed + {id}))
  {
    PutKeepsErrors(w.objs, w.nextId, h.failed, id, r.tcp, true);
    PutKeepsCarried(w.objs, w.fake, w.batch, h.outcomes, id, r.tcp);
  }

  lemma TimeoutKeepsHistory(w: World, id: Id, d: Dir, u: bool, h: History)
    requires Inv(w) && HistoryOk(w, h) && Enabled(w, TimeoutFires(id, d, u))
    ensures HistoryOk(Apply(w, TimeoutFires(id, d, u)), HistoryStep(w, TimeoutFires(id, d, u), h))
  {
    var r := Timeout(w.backend, w.objs[id], d, u);
    TimeoutHistory(w.backend, w.objs[id], d, u);
    ExpiryKeepsHistory(w, id, r, h);
  }

  lemma SweepKeepsHistory(w: World, h: History)
    requires Inv(w) && HistoryOk(w, h) && Enabled(w, Step.Sweep)
    ensures HistoryOk(ApplySweep(w), h)
  {
    forall ev | ev in w.fake || ev in w.batch ensures ev.id !in Idle(w) {
      assert Awaited(w.objs, ev);
    }
    RemoveKeepsCarried(w.objs, w.fake, w.batch, h.outcomes, Idle(w));
  }

  lemma DrainKeepsHistory(w: World, h: History)
    requires HistoryOk(w, h) && Enabled(w, DrainFake)
    ensures HistoryOk(Apply(w, DrainFake), h)
  {
    var n := if |w.fake| > MAX_EVENTS then MAX_EVENTS else |w.fake|;
    assert forall ev | ev in w.fake[..n] || ev in w.fake[n..] :: ev in w.fake;
  }

  /** An outcome arrives for a direction that has no completion under way. */
  lemma ArrivalKeepsCarried(objs: Objs, batch: seq<Ev>, outcomes: map<Ev, int>, ev: Ev, t: Tcp, status: int)
    requires CarriedOk(objs, [], batch, outcomes) && ev.id in objs && ev !in batch
    requires Context(t, ev.dir) == status && Context(t, Other(ev.dir)) == Context(objs[ev.id], Other(ev.dir))
    ensures CarriedOk(objs[ev.id := t], [], batch + [ev], outcomes[ev := status])
  {
    forall x | x in batch + [ev] ensures Carries(objs[ev.id := t], outcomes[ev := status], x) {
      assert x != ev ==> Carries(objs, outcomes, x) && (x.id == ev.id ==> x.dir == Other(ev.dir));
    }
  }

  lemma ReportKeepsHistory(w: World, id: Id, d: Dir, report: Report, h: History)
    requires Inv(w) && HistoryOk(w, h) && Enabled(w, ReportReady(id, d, report))
    ensures HistoryOk(Apply(w, ReportReady(id, d, report)), HistoryStep(w, ReportReady(id, d, report), h))
  {
    ReadyIs(w.objs[id], d, report);
    if |w.batch| < MAX_EVENTS && Answers(w.objs[id], d, report) {
      var t := Ready(w.objs[id], d, report).tcp;
      PutKeepsErrors(w.objs, w.nextId, h.failed, id, t, false);
      ArrivalKeepsCarried(w.objs, w.batch, h.outcomes, Ev(id, d), t, Answer(report));
    }
  }

  lemma DequeueKeepsHistory(w: World, ev: Ev, status: int, h: History)
    requires Inv(w) && HistoryOk(w, h) && Enabled(w, Dequeue(ev, status))
    ensures HistoryOk(Apply(w, Dequeue(ev, status)), HistoryStep(w, Dequeue(ev, status), h))
  {
    assert Awaited(w.objs, ev);
    var t := SetStatus(w.objs[ev.id], ev.dir, status);
    PutKeepsErrors(w.objs, w.nextId, h.failed, ev.id, t, false);
    ArrivalKeepsCarried(w.objs, w.batch, h.outcomes, ev, t, status);
  }

  /** What a completion adds to the history, by what its handler does. */
  lemma OutcomeHistory(b: Backend, t: Tcp, id: Id, d: Dir, u: bool, room: bool, log: seq<Entry>, h: History)
    requires TcpOk(b, t) && t.Flag(d) && ToldOk(log, h.told)
    ensures var r := Allocated(Complete(b, t, d, u), room);
      && ToldOk(Logged(log, id, r.call), AfterOutcome(t, id, d, Context(t, d), room, h).told)
      && (r.call.Runs? && TellsFailure(r.call.call) ==> Context(t, d) != 0)
      && (r.tcp.error <==> t.error || Context(t, d) != 0)
      && Context(r.tcp, Rd) == t.ctxRead && Context(r.tcp, Wr) == t.ctxWrite
  {
    CompleteKeepsOk(b, t, d, u);
  }

  lemma FirstIsAwaited(w: World, h: History)
    requires Inv(w) && HistoryOk(w, h) && w.batch != []
    ensures Awaited(w.objs, w.batch[0]) && Carries(w.objs, h.outcomes, w.batch[0])
    ensures TcpOk(w.backend, w.objs[w.batch[0].id]) && w.batch[0].id < w.nextId
  {
    assert w.batch[0] in w.batch && Deliverable(w.objs, w.batch[0]);
  }

  lemma HandledKeepsHistory(w: World, r: Delivered, h: History, h': History)
    requires HistoryOk(w, h) && w.batch != [] && w.batch[0].id in w.objs && w.batch[0].id < w.nextId
    requires var id := w.batch[0].id;
      && ToldOk(Logged(w.log, id, r.call), h'.told) && h'.outcomes == h.outcomes
      && (r.call.Runs? && TellsFailure(r.call.call) ==> id in h'.failed)
      && (exists fails :: h'.failed == Marked(h.failed, id, fails) && (r.tcp.error <==> w.objs[id].error || fails))
      && Context(r.tcp, Rd) == w.objs[id].ctxRead && Context(r.tcp, Wr) == w.objs[id].ctxWrite
    ensures HistoryOk(Handled(w, w.batch[0].id, r), h')
  {
    var id := w.batch[0].id;
    var fails :| h'.failed == Marked(h.failed, id, fails) && (r.tcp.error <==> w.objs[id].error || fails);
    PutKeepsErrors(w.objs, w.nextId, h.failed, id, r.tcp, fails);
    PutKeepsCarried(w.objs, w.fake, w.batch, h.outcomes, id, r.tcp);
    assert forall x | x in w.batch[1..] :: x in w.batch;
  }

  lemma BirthKeepsHistory(w: World, t: Tcp, h: History)
    requires w.nextId !in w.objs && HistoryOk(w, h) && !t.error
    ensures HistoryOk(WithNew(w, t), h)
  {
    NewKeepsErrors(w.objs, w.nextId, h.failed, t);
    NewKeepsCarried(w.objs, w.fake, w.batch, h.outcomes, w.nextId, t);
  }

  lemma HandlerKeepsHistory(w: World, u: bool, room: bool, h: History)
    requires Inv(w) && HistoryOk(w, h) && w.batch != []
    ensures var ev := w.batch[0];
      && ev.id in w.objs && w.nextId !in w.objs && w.nextId != ev.id
      && HistoryOk(Handled(w, ev.id, Allocated(Complete(w.backend, w.objs[ev.id], ev.dir, u), room)),
                   AfterDeliver(w, room, h))
  {
    FirstIsAwaited(w, h);
    var ev := w.batch[0];
    var t := w.objs[ev.id];
    OutcomeHistory(w.backend, t, ev.id, ev.dir, u, room, w.log, h);
    assert AfterDeliver(w, room, h).failed == Marked(h.failed, ev.id, Context(t, ev.dir) != 0);
    HandledKeepsHistory(w, Allocated(Complete(w.backend, t, ev.dir, u), room), h, AfterDeliver(w, room, h));
  }

  lemma DeliverKeepsHistory(w: World, u: bool, room: bool, h: History)
    requires Inv(w) && HistoryOk(w, h) && Enabled(w, Deliver(u, room))
    ensures HistoryOk(ApplyDeliver(w, u, room), AfterDeliver(w, room, h))
  {
    HandlerKeepsHistory(w, u, room, h);
    var ev := w.batch[0];
    var r := Allocated(Complete(w.backend, w.objs[ev.id], ev.dir, u), room);
    BirthKeepsHistory(Handled(w, ev.id, r), CLIENT, AfterDeliver(w, room, h));
  }

  lemma StepKeepsHistory(w: World, s: Step, h: History)
    requires Inv(w) && HistoryOk(w, h) && Enabled(w, s)
    ensures HistoryOk(Apply(w, s), HistoryStep(w, s, h))
  {
    if IsCall(s) {
      CallKeepsHistory(w, s, h);
    } else {
      match s
      case TimeoutFires(id, d, u) => TimeoutKeepsHistory(w, id, d, u, h);
      case Sweep => SweepKeepsHistory(w, h);
      case DrainFake => DrainKeepsHistory(w, h);
      case ReportReady(id, d, report) => ReportKeepsHistory(w, id, d, report, h);
      case Dequeue(ev, status) => DequeueKeepsHistory(w, ev, status, h);
      case Deliver(u, room) => DeliverKeepsHistory(w, u, room, h);
      case _ =>
    }
  }

  lemma {:induction false} RunKeepsHistory(w: World, steps: seq<Step>, h: History)
    requires Inv(w) && HistoryOk(w, h) && IsRun(w, steps)
    ensures HistoryOk(After(w, steps), HistoryOf(w, steps, h))
    decreases |steps|
  {
    if steps == [] {
    } else {
      StepKeeps(w, steps[0]);
      StepKeepsHistory(w, steps[0], h);
      RunKeepsHistory(Apply(w, steps[0]), steps[1..], HistoryStep(w, steps[0], h));
    }
  }

  /** In every run: each callback is told the outcome of its own operation, as the kernel gave it last, 0 for an
      operation over at once, the timeout if that ended it, or that an accepted connection got no event. */
  lemma CallbacksAreToldOutcomes(b: Backend, steps: seq<Step>)
    requires IsRun(Init(b), steps)
    ensures ToldOk(After(Init(b), steps).log, HistoryOf(Init(b), steps, NOTHING).told)
  {
    RunKeepsHistory(Init(b), steps, NOTHING);
  }

  /** In every run: an event is in error exactly when a call on it failed, one of its operations completed with a
      nonzero status, or one timed out. */
  lemma ErrorIffFailed(b: Backend, steps: seq<Step>, id: Id)
    requires IsRun(Init(b), steps) && id in After(Init(b), steps).objs
    ensures After(Init(b), steps).objs[id].error <==> id in HistoryOf(Init(b), steps, NOTHING).failed
  {
    RunKeepsHistory(Init(b), steps, NOTHING);
  }

  /** In every run: once a callback was told of a failure of its event, no call to accept, read or write is accepted on
      that event any more. */
  lemma FailedEventRefuses(b: Backend, steps: seq<Step>, i: nat, k: Kind, args: Args, tok: Token, e: Env)
    requires IsRun(Init(b), steps) && i < |After(Init(b), steps).log| && k != Connecting
    requires var entry := After(Init(b), steps).log[i];
      TellsFailure(entry.call) && entry.id in After(Init(b), steps).objs
    ensures var w := After(Init(b), steps);
      Start(b, w.objs[w.log[i].id], k, args, tok, e).code == if args.valid then AccessDenied else InvalidArg
  {
    RunKeepsHistory(Init(b), steps, NOTHING);
    var w := After(Init(b), steps);
    CallIs(b, w.objs[w.log[i].id], k, args, tok, e);
  }

  /** An accepted connection that gets no event leaves its listener ready for the next accept. */
  lemma NoRoomKeepsListener(b: Backend, t: Tcp, unregister: bool, args: Args)
    requires TcpOk(b, t) && t.listening && t.reading && t.ctxRead == 0 && t.open && !t.error && !t.deleted && args.valid
    ensures Admitted(Allocated(Complete(b, t, Rd, unregister), false).tcp, Accepting, args)
  {
    CompleteKeepsOk(b, t, Rd, unregister);
    NoRoomIs(b, t, Rd, unregister);
  }
}
