/** Name resolution: loop threads, a shared queue, any number of workers, and the way back. */
module Dns {
  import opened Sequences

  type Id = nat
  type Wid = nat

  /** Bookkeeping: whose hands a request is in. `Preparing` is inside `nanoev_dns_resolve` before the
      queue, `Lost` is after a notification that could not be written. */
  datatype Place = Nowhere | Preparing | InQueue | With(w: Wid) | Reporting(w: Wid) | Outstanding | Lost

  /** `pending`, `completed` and `deleted` are the fields guarded by the event's lock; `notified` is the
      flag of its inner notification. */
  datatype Dns = Dns(pending: bool, completed: bool, deleted: bool, notified: bool, place: Place)

  const FRESH := Dns(false, false, false, false, Nowhere)

  /** A worker about to take the pool's lock, asleep on the condition, awake again but still to look at
      the queue, resolving, about to notify, or returned. */
  datatype Worker = Ready | Blocked | Signalled | Resolving(d: Id) | Notifying(d: Id) | Exited

  /** `Aborting` is `dns_start_workers_locked` taking back a failed start; `Stopping` is `dns_term`. */
  datatype Mode = Running | Aborting | Stopping | Terminated

  /** When an event was freed: the number of callbacks run before, and whether a request was pending. */
  datatype Freeing = Freeing(calls: nat, pending: bool)

  /** History: `queuedEver`/`takenEver` are all requests in the order of queueing and taking, named by their events;
      `called` those whose callback has run, `cancelled` those dropped when their notification was dispatched, and
      `freed` the events freed. `fault`: an event was used after its destruction, or destroyed with a notification
      outstanding. */
  datatype Pool = Pool(mode: Mode, workers: map<Wid, Worker>, queue: seq<Id>, objs: map<Id, Dns>, nextId: nat,
                       queuedEver: seq<Id>, takenEver: seq<Id>, called: seq<Id>, cancelled: seq<Id>,
                       freed: map<Id, Freeing>, fault: bool)

  const INIT := Pool(Running, map[], [], map[], 0, [], [], [], [], map[], false)

  datatype Step =
    | New
    | BeginResolve(d: Id)
    | StartWorkers(count: nat)
    | StartFails(count: nat)
    | AbortReturns
    | Enqueue(d: Id, wake: Wid)
    | FreeCall(d: Id)
    | OnAsync(d: Id)
    | Look(w: Wid)
    | Complete(w: Wid)
    | Notify(w: Wid, written: bool)
    | Wake(w: Wid)
    | Term
    | TermReturns

  /** When a step can happen. An event is not used once it is freed, nor freed inside its own resolve call;
      `cond_signal` wakes a sleeping worker when there is one; a thread can be joined once it returned;
      resolution is not terminated while a failed start is being taken back. */
  predicate Enabled(p: Pool, s: Step) {
    match s
    case New => true
    case BeginResolve(d) => d in p.objs && !p.objs[d].deleted
    case StartWorkers(n) => p.mode == Running && p.workers == map[] && n > 0
    case StartFails(n) => p.mode == Running && p.workers == map[]
    case AbortReturns => p.mode == Aborting && forall w | w in p.workers :: p.workers[w].Exited?
    case Enqueue(d, wake) =>
      && d in p.objs && p.objs[d].place == Preparing && (p.mode == Running ==> p.workers != map[])
      && ((exists w | w in p.workers :: p.workers[w].Blocked?) ==> wake in p.workers && p.workers[wake].Blocked?)
    case FreeCall(d) => d in p.objs && !p.objs[d].deleted && p.objs[d].place != Preparing
    case OnAsync(d) => d in p.objs && p.objs[d].notified
    case Look(w) => w in p.workers && (p.workers[w].Ready? || p.workers[w].Signalled?)
    case Complete(w) => w in p.workers && p.workers[w].Resolving?
    case Notify(w, _) => w in p.workers && p.workers[w].Notifying?
    case Wake(w) => w in p.workers && p.workers[w].Blocked?
    case Term => p.mode == Running
    case TermReturns => p.mode == Stopping && forall w | w in p.workers :: p.workers[w].Exited?
  }

  function SetDns(p: Pool, d: Id, x: Dns): Pool {
    p.(objs := p.objs[d := x])
  }

  function SetWorker(p: Pool, w: Wid, x: Worker): Pool {
    p.(workers := p.workers[w := x])
  }

  /** `dns_destroy`. */
  function Destroy(p: Pool, d: Id): Pool {
    p.(objs := p.objs - {d}, fault := p.fault || (d in p.objs && p.objs[d].notified))
  }

  /** `cond_signal`. */
  function WakeOne(ws: map<Wid, Worker>, wake: Wid): map<Wid, Worker> {
    if wake in ws && ws[wake].Blocked? then ws[wake := Signalled] else ws
  }

  /** `cond_broadcast`. */
  function WakeAll(ws: map<Wid, Worker>): map<Wid, Worker> {
    map w | w in ws :: if ws[w].Blocked? then Signalled else ws[w]
  }

  function Threads(n: nat): (ws: map<Wid, Worker>)
    ensures forall w | w in ws :: ws[w] == Ready
    ensures n > 0 ==> 0 in ws
  {
    if n == 0 then map[] else Threads(n - 1)[n - 1 := Ready]
  }

  /** `dns_enqueue` once workers exist, and the cleanup in `nanoev_dns_resolve` when it refuses. */
  function ApplyEnqueue(p: Pool, d: Id, wake: Wid): Pool
    requires d in p.objs
  {
    if p.mode != Running then SetDns(p, d, p.objs[d].(pending := false, place := Nowhere))
    else
      p.(objs := p.objs[d := p.objs[d].(place := InQueue)], queue := p.queue + [d], workers := WakeOne(p.workers, wake),
         queuedEver := p.queuedEver + [d])
  }

  /** `dns_on_async`: the callback runs unless the event was freed, which then ends its life. */
  function ApplyOnAsync(p: Pool, d: Id): Pool
    requires d in p.objs
  {
    var x := p.objs[d].(notified := false);
    if !x.completed then SetDns(p, d, x)
    else
      var p := SetDns(p, d, x.(pending := false, completed := false, place := Nowhere));
      if x.deleted then Destroy(p, d).(cancelled := p.cancelled + [d]) else p.(called := p.called + [d])
  }

  /** `dns_free`. */
  function ApplyFree(p: Pool, d: Id): Pool
    requires d in p.objs
  {
    var p := p.(freed := p.freed[d := Freeing(|p.called|, p.objs[d].pending)]);
    if p.objs[d].pending then SetDns(p, d, p.objs[d].(deleted := true)) else Destroy(p, d)
  }

  /** The part of `dns_worker` under the pool's lock. */
  function ApplyLook(p: Pool, w: Wid): Pool {
    if p.queue != [] then
      var d := p.queue[0];
      var p := SetWorker(p, w, Resolving(d)).(queue := p.queue[1..], takenEver := p.takenEver + [d]);
      if d in p.objs then SetDns(p, d, p.objs[d].(place := With(w))) else p.(fault := true)
    else SetWorker(p, w, if p.mode == Running then Blocked else Exited)
  }

  /** `dns_worker` storing its result under the event's lock. */
  function ApplyComplete(p: Pool, w: Wid, d: Id): Pool {
    var p := SetWorker(p, w, Notifying(d));
    if d in p.objs then SetDns(p, d, p.objs[d].(completed := true, place := Reporting(w))) else p.(fault := true)
  }

  /** `nanoev_async_send` by the worker; a byte that cannot be written loses the request. */
  function ApplyNotify(p: Pool, w: Wid, d: Id, written: bool): Pool {
    var p := SetWorker(p, w, Ready);
    if d !in p.objs then p.(fault := true)
    else if p.objs[d].notified || written then SetDns(p, d, p.objs[d].(notified := true, place := Outstanding))
    else SetDns(p, d, p.objs[d].(place := Lost))
  }

  function Apply(p: Pool, s: Step): Pool
    requires Enabled(p, s)
  {
    match s
    case New => SetDns(p, p.nextId, FRESH).(nextId := p.nextId + 1)
    case BeginResolve(d) =>
      if p.objs[d].pending then p
      else SetDns(p, d, p.objs[d].(pending := true, completed := false, place := Preparing))
    case StartWorkers(n) => p.(workers := Threads(n))
    case StartFails(n) => p.(workers := Threads(n), mode := Aborting)
    case AbortReturns => p.(workers := map[], mode := Running)
    case Enqueue(d, wake) => ApplyEnqueue(p, d, wake)
    case FreeCall(d) => ApplyFree(p, d)
    case OnAsync(d) => ApplyOnAsync(p, d)
    case Look(w) => ApplyLook(p, w)
    case Complete(w) => ApplyComplete(p, w, p.workers[w].d)
    case Notify(w, written) => ApplyNotify(p, w, p.workers[w].d, written)
    case Wake(w) => SetWorker(p, w, Signalled)
    case Term => p.(mode := Stopping, workers := WakeAll(p.workers))
    case TermReturns => p.(mode := Terminated)
  }

  /** An event is pending exactly while some party has its request, and each party knows. */
  ghost predicate DnsOk(x: Dns) {
    && (x.pending <==> x.place != Nowhere)
    && (x.completed <==> x.place.Reporting? || x.place.Outstanding? || x.place.Lost?)
    && (x.notified <==> x.place.Outstanding?)
    && (x.deleted ==> x.pending && !x.place.Preparing?)
  }

  ghost predicate ObjsOk(objs: map<Id, Dns>, nextId: nat) {
    forall d | d in objs :: d < nextId && DnsOk(objs[d])
  }

  ghost predicate QueueOk(objs: map<Id, Dns>, queue: seq<Id>) {
    && Distinct(queue)
    && (forall d | d in queue :: d in objs && objs[d].place == InQueue)
    && (forall d | d in objs && objs[d].place == InQueue :: d in queue)
  }

  ghost predicate WorkersOk(objs: map<Id, Dns>, ws: map<Wid, Worker>) {
    && (forall w | w in ws && ws[w].Resolving? :: ws[w].d in objs && objs[ws[w].d].place == With(w))
    && (forall w | w in ws && ws[w].Notifying? :: ws[w].d in objs && objs[ws[w].d].place == Reporting(w))
    && (forall d | d in objs && objs[d].place.With? :: objs[d].place.w in ws && ws[objs[d].place.w] == Resolving(d))
    && (forall d | d in objs && objs[d].place.Reporting? ::
      objs[d].place.w in ws && ws[objs[d].place.w] == Notifying(d))
  }

  ghost predicate InFlightPlace(p: Place) {
    p.InQueue? || p.With? || p.Reporting? || p.Outstanding? || p.Lost?
  }

  ghost function InFlight(objs: map<Id, Dns>): set<Id> {
    set d | d in objs && InFlightPlace(objs[d].place)
  }

  ghost function SignalledSet(ws: map<Wid, Worker>): set<Wid> {
    set w | w in ws && ws[w].Signalled?
  }

  /** No wakeup is lost: while a worker sleeps, every queued request has a worker on its way to the queue. */
  ghost predicate WakeupsOk(ws: map<Wid, Worker>, queue: seq<Id>) {
    forall w | w in ws && ws[w].Blocked? :: |queue| <= |SignalledSet(ws)|
  }

  /** Workers return only when stopping and only from an empty queue, which then stays empty. */
  ghost predicate ModeOk(mode: Mode, ws: map<Wid, Worker>, queue: seq<Id>) {
    && (queue != [] ==> ws != map[] && (mode == Running || mode == Stopping))
    && (mode != Running ==> forall w | w in ws :: !ws[w].Blocked?)
    && (forall w | w in ws && ws[w].Exited? :: mode != Running && queue == [])
    && (mode == Terminated ==> queue == [])
  }

  ghost predicate Inv(p: Pool) {
    && !p.fault && ObjsOk(p.objs, p.nextId) && QueueOk(p.objs, p.queue) && WorkersOk(p.objs, p.workers)
    && WakeupsOk(p.workers, p.queue) && ModeOk(p.mode, p.workers, p.queue)
    && |p.queuedEver| == |p.called| + |p.cancelled| + |InFlight(p.objs)|
    && p.queuedEver == p.takenEver + p.queue
  }
}
