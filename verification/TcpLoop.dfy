/** All TCP events of a loop, the poller's queues and the loop's phases, as one state machine. */
module TcpLoop {
  import opened Sequences
  import opened TcpEvent
  import opened TcpInvariant
  import opened TcpOutcomes
  import EndgameList

  type Id = nat

  /** A completion: an event and the context that tells its direction. */
  datatype Ev = Ev(id: Id, dir: Dir)

  /** An accepted call. */
  datatype Op = Op(id: Id, kind: Kind)

  /** A user callback that has run. */
  datatype Entry = Entry(id: Id, call: Call)

  /** Where the loop thread is: not in `nanoev_loop_run`, firing timers, between sweep and poll,
      inside the kernel wait, or dispatching the batch. User code runs in the first, second and last. */
  datatype Phase = Outside | Firing | Swept | Collecting | Dispatching

  /** `fake` is the poller's queue of fake completions, `kernel` the overlapped operations under way,
      `batch` the undispatched rest of the current batch and `seen` what the current wait has reported.
      History: `ops` are the accepted calls, `log` the callbacks run, `freed` maps a freed event to the
      number of callbacks run before, `released` are the events whose memory was given back, and
      `fault` records a completion for a released event or one that found its flag cleared. */
  datatype World = World(
    backend: Backend, phase: Phase, objs: map<Id, Tcp>, nextId: nat,
    fake: seq<Ev>, kernel: set<Ev>, batch: seq<Ev>, seen: set<Ev>, endgame: seq<Id>,
    ops: map<Token, Op>, nextTok: nat, log: seq<Entry>, freed: map<Id, nat>, released: set<Id>, fault: bool)
  {
    predicate UserCode() {
      phase == Outside || phase == Firing || phase == Dispatching
    }
  }

  function Init(b: Backend): World {
    World(b, Outside, map[], 0, [], {}, [], {}, [], map[], 0, [], map[], {}, false)
  }

  const MAX_EVENTS := 256

  datatype Step =
    | New
    | StartCall(id: Id, kind: Kind, args: Args, env: Env)
    | ListenCall(id: Id, valid: bool, socket: SocketResult, register: bool, ready: bool)
    | FreeCall(id: Id)
    | BeginTurn
    | TimeoutFires(id: Id, dir: Dir, unregister: bool)
    | Sweep
    | DrainFake
    | BeginWait
    | ReportReady(id: Id, dir: Dir, report: Report)
    | Dequeue(ev: Ev, status: int)
    | EndWait
    | Deliver(unregister: bool, room: bool)
    | EndTurn

  /** When a step can happen. Clients use an event only until they free it and respect `MayOpen` and
      `MayListen`; the kernel reports open sockets only, each direction once per wait. */
  predicate Enabled(w: World, s: Step) {
    match s
    case New => w.UserCode()
    case StartCall(id, k, args, e) => w.UserCode() && id in w.objs && MayStart(w.backend, w.objs[id], k, e)
    case ListenCall(id, _, _, _, _) => w.UserCode() && id in w.objs && !w.objs[id].deleted && MayListen(w.objs[id])
    case FreeCall(id) => w.UserCode() && id in w.objs && !w.objs[id].deleted
    case BeginTurn => w.phase == Outside || (w.phase == Dispatching && w.batch == [])
    case TimeoutFires(id, d, _) => w.phase == Firing && id in w.objs && w.objs[id].Armed(d)
    case Sweep => w.phase == Firing
    case DrainFake => w.phase == Swept && w.fake != []
    case BeginWait => w.phase == Swept && w.fake == []
    case ReportReady(id, d, _) =>
      w.phase == Collecting && w.backend == Reactor && id in w.objs && w.objs[id].open && Ev(id, d) !in w.seen
    case Dequeue(ev, _) => w.phase == Collecting && w.backend == Iocp && ev in w.kernel
    case EndWait => w.phase == Collecting
    case Deliver(_, _) => w.phase == Dispatching && w.batch != []
    case EndTurn => (w.phase == Dispatching && w.batch == []) || w.phase == Swept
  }

  function Put(w: World, id: Id, t: Tcp): World {
    w.(objs := w.objs[id := t])
  }

  /** A call's effect on the loop: its event, a completion under way, and the accepted operation. */
  function ApplyStart(w: World, id: Id, k: Kind, r: Started): World {
    var w := Put(w, id, r.tcp);
    var ev := Ev(id, DirOf(k));
    var w := if !r.queued then w
             else if w.backend == Reactor then w.(fake := w.fake + [ev]) else w.(kernel := w.kernel + {ev});
    if r.code == Success then w.(ops := w.ops[w.nextTok := Op(id, k)], nextTok := w.nextTok + 1) else w
  }

  /** `tcp_free` on a client's request. */
  function ApplyFree(w: World, id: Id, r: Remains): World {
    var w := w.(freed := w.freed[id := |w.log|]);
    match r
    case Released => w.(objs := w.objs - {id}, released := w.released + {id})
    case Kept(t) => Put(w, id, t).(endgame := [id] + w.endgame)
  }

  /** The events that the sweep gives back. */
  function Idle(w: World): set<Id> {
    set id | id in w.objs && id in w.endgame && !w.objs[id].reading && !w.objs[id].writing
  }

  ghost function ApplySweep(w: World): World {
    w.(objs := w.objs - Idle(w), released := w.released + Idle(w),
       endgame := EndgameList.Filter(w.endgame, (set id | id in w.objs) - Idle(w)), phase := Swept)
  }

  function SetStatus(t: Tcp, d: Dir, status: int): Tcp {
    if d == Rd then t.(ctxRead := status) else t.(ctxWrite := status)
  }

  function Logged(log: seq<Entry>, id: Id, c: MaybeCall): seq<Entry> {
    if c.Runs? then log + [Entry(id, c.call)] else log
  }

  /** The handler of the first completion of the batch has run. */
  function Handled(w: World, id: Id, r: Delivered): World
    requires w.batch != []
  {
    w.(objs := w.objs[id := r.tcp], batch := w.batch[1..], log := Logged(w.log, id, r.call),
      fault := w.fault || r.stale)
  }

  function WithNew(w: World, t: Tcp): World {
    w.(objs := w.objs[w.nextId := t], nextId := w.nextId + 1)
  }

  /** One dispatched completion: the handler runs on its event, and an accepted connection gets an event
      of its own when there is room for one. */
  function ApplyDeliver(w: World, unregister: bool, room: bool): World
    requires w.batch != []
  {
    var ev := w.batch[0];
    if ev.id !in w.objs then w.(batch := w.batch[1..], fault := true)
    else
      var r := Allocated(Complete(w.backend, w.objs[ev.id], ev.dir, unregister), room);
      var w1 := Handled(w, ev.id, r);
      if Accepts(r.call) then WithNew(w1, CLIENT) else w1
  }

  ghost function Apply(w: World, s: Step): World
    requires Enabled(w, s)
  {
    match s
    case New => WithNew(w, FRESH)
    case StartCall(id, k, args, e) => ApplyStart(w, id, k, Start(w.backend, w.objs[id], k, args, w.nextTok, e))
    case ListenCall(id, valid, socket, register, ready) =>
      Put(w, id, Listen(w.objs[id], valid, socket, register, ready).tcp)
    case FreeCall(id) => ApplyFree(w, id, Free(w.objs[id]))
    case BeginTurn => w.(phase := Firing)
    case TimeoutFires(id, d, u) =>
      var r := Timeout(w.backend, w.objs[id], d, u);
      w.(objs := w.objs[id := r.tcp], log := Logged(w.log, id, r.call))
    case Sweep => ApplySweep(w)
    case DrainFake =>
      var n := if |w.fake| > MAX_EVENTS then MAX_EVENTS else |w.fake|;
      w.(phase := Dispatching, batch := w.fake[..n], fake := w.fake[n..])
    case BeginWait => w.(phase := Collecting, seen := {})
    case ReportReady(id, d, report) =>
      var w := w.(seen := w.seen + {Ev(id, d)});
      if |w.batch| >= MAX_EVENTS then w
      else
        var r := Ready(w.objs[id], d, report);
        if r.Nothing? then w else Put(w, id, r.tcp).(batch := w.batch + [Ev(id, d)])
    case Dequeue(ev, status) =>
      var w := w.(kernel := w.kernel - {ev}, batch := w.batch + [ev]);
      if ev.id in w.objs then Put(w, ev.id, SetStatus(w.objs[ev.id], ev.dir, status)) else w.(fault := true)
    case EndWait => w.(phase := Dispatching)
    case Deliver(u, room) => ApplyDeliver(w, u, room)
    case EndTurn => w.(phase := Outside)
  }

  type Objs = map<Id, Tcp>

  ghost predicate ObjsOk(b: Backend, objs: Objs, nextId: nat) {
    forall id | id in objs :: id < nextId && TcpOk(b, objs[id])
  }

  /** The completion's event exists and waits for it. */
  ghost predicate Awaited(objs: Objs, ev: Ev) {
    ev.id in objs && objs[ev.id].Flag(ev.dir)
  }

  /** Awaited, and if it is a successful accept, the accepted socket is at hand. */
  ghost predicate Deliverable(objs: Objs, ev: Ev) {
    Awaited(objs, ev) && AcceptedOk(objs[ev.id], ev.dir)
  }

  /** Each direction of an event has at most one completion under way, and then its flag is set. An event
      with a queued fake completion has no timeout in that direction. With completion ports a flag
      also means that a completion is under way. */
  ghost predicate EventsOk(b: Backend, objs: Objs, fake: seq<Ev>, kernel: set<Ev>, batch: seq<Ev>) {
    && Distinct(fake) && Distinct(batch)
    && (forall ev | ev in fake :: Deliverable(objs, ev) && ev !in batch && !objs[ev.id].Armed(ev.dir))
    && (forall ev | ev in batch :: Deliverable(objs, ev))
    && (forall ev | ev in kernel :: Awaited(objs, ev) && ev !in batch)
    && (b == Reactor ==> kernel == {})
    && (b == Iocp ==> fake == [])
    && (b == Iocp ==> forall id, d | id in objs && objs[id].Flag(d) :: Ev(id, d) in kernel || Ev(id, d) in batch)
  }

  /** Batches exist only inside the kernel wait and while dispatching; one wait never reports twice. */
  ghost predicate PhaseOk(w: World) {
    && (w.batch != [] ==> w.phase == Collecting || w.phase == Dispatching)
    && (w.phase == Collecting && w.backend == Reactor ==> w.fake == [] && forall ev | ev in w.batch :: ev in w.seen)
  }

  ghost predicate NotCalled(log: seq<Entry>, tok: Token) {
    forall i | 0 <= i < |log| :: log[i].call.tok != tok
  }

  /** A callback still to run belongs to the accepted call that set it. */
  ghost predicate CallbacksOk(objs: Objs, ops: map<Token, Op>, nextTok: nat, log: seq<Entry>) {
    && (forall tok | tok in ops :: tok < nextTok)
    && (forall id, k | id in objs && objs[id].Callback(k).Of? ::
          var tok := objs[id].Callback(k).tok; tok in ops && ops[tok] == Op(id, k) && NotCalled(log, tok))
  }

  /** Each callback that has run is that of an accepted call, ran once, as the kind of operation that was
      started, with the buffer of that call, and before its event was freed. */
  ghost predicate LogOk(ops: map<Token, Op>, log: seq<Entry>, freed: map<Id, nat>) {
    && (forall i | 0 <= i < |log| :: EntryOk(ops, freed, log[i], i))
    && (forall i, j | 0 <= i < j < |log| :: log[i].call.tok != log[j].call.tok)
  }

  ghost predicate EntryOk(ops: map<Token, Op>, freed: map<Id, nat>, e: Entry, i: nat) {
    && e.call.tok in ops && ops[e.call.tok] == Op(e.id, e.call.kind)
    && (e.call.kind == Reading || e.call.kind == Writing ==> e.call.buf == Of(e.call.tok))
    && (e.id in freed ==> i < freed[e.id])
  }

  /** The list of lazily deleted events holds exactly the freed events whose memory is not given back. */
  ghost predicate EndgameOk(objs: Objs, endgame: seq<Id>, freed: map<Id, nat>, released: set<Id>, nextId: nat) {
    && Distinct(endgame)
    && (forall id | id in endgame :: id in objs)
    && (forall id | id in objs :: (objs[id].deleted <==> id in endgame) && (objs[id].deleted <==> id in freed))
    && (forall id | id in released :: id !in objs && id in freed)
    && (forall id | id in freed :: id < nextId && (id in objs || id in released))
  }

  ghost predicate Inv(w: World) {
    && !w.fault && PhaseOk(w)
    && ObjsOk(w.backend, w.objs, w.nextId)
    && EventsOk(w.backend, w.objs, w.fake, w.kernel, w.batch)
    && CallbacksOk(w.objs, w.ops, w.nextTok, w.log)
    && LogOk(w.ops, w.log, w.freed)
    && EndgameOk(w.objs, w.endgame, w.freed, w.released, w.nextId)
  }
}
