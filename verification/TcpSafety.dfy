/** Safety of every run of the TCP loop. */
module TcpSafety {
  import opened Sequences
  import opened TcpEvent
  import opened TcpInvariant
  import opened TcpOutcomes
  import opened TcpLoop
  import EndgameList

  // ---------- one event changes ----------

  lemma PutKeepsObjs(b: Backend, objs: Objs, nextId: nat, id: Id, t: Tcp)
    requires ObjsOk(b, objs, nextId) && id < nextId && TcpOk(b, t)
    ensures ObjsOk(b, objs[id := t], nextId)
  {
  }

  lemma PutKeepsEndgame(objs: Objs, endgame: seq<Id>, freed: map<Id, nat>, released: set<Id>, nextId: nat, id: Id,
                        t: Tcp)
    requires EndgameOk(objs, endgame, freed, released, nextId) && id in objs && t.deleted == objs[id].deleted
    ensures EndgameOk(objs[id := t], endgame, freed, released, nextId)
  {
  }

  // ---------- calls ----------

  lemma StartKeepsEvents(b: Backend, objs: Objs, fake: seq<Ev>, kernel: set<Ev>, batch: seq<Ev>, id: Id, k: Kind,
                         r: Started, tok: Token)
    requires EventsOk(b, objs, fake, kernel, batch) && id in objs && StartsOnly(b, objs[id], r, k, tok)
    ensures var ev := Ev(id, DirOf(k));
      EventsOk(b, objs[id := r.tcp], if r.queued && b == Reactor then fake + [ev] else fake,
               if r.queued && b == Iocp then kernel + {ev} else kernel, batch)
  {
    var objs', ev0 := objs[id := r.tcp], Ev(id, DirOf(k));
    if r.code == Success {
      assert !Awaited(objs, ev0) && Awaited(objs', ev0);
    } else {
      assert Awaited(objs, ev0) ==> r.tcp == objs[id];
    }
    forall ev | ev != ev0 && Awaited(objs, ev)
      ensures Awaited(objs', ev) && objs'[ev.id].Armed(ev.dir) == objs[ev.id].Armed(ev.dir)
      ensures Deliverable(objs, ev) ==> Deliverable(objs', ev)
    {
    }
  }

  lemma StartKeepsCallbacks(b: Backend, objs: Objs, ops: map<Token, Op>, nextTok: nat, log: seq<Entry>,
                            freed: map<Id, nat>, id: Id, k: Kind, r: Started)
    requires CallbacksOk(objs, ops, nextTok, log) && LogOk(ops, log, freed)
    requires id in objs && StartsOnly(b, objs[id], r, k, nextTok)
    ensures if r.code == Success
      then CallbacksOk(objs[id := r.tcp], ops[nextTok := Op(id, k)], nextTok + 1, log) &&
        LogOk(ops[nextTok := Op(id, k)], log, freed)
      else CallbacksOk(objs[id := r.tcp], ops, nextTok, log)
  {
    forall o | r.tcp.Callback(o).Of? && !(o == k && r.code == Success)
      ensures r.tcp.Callback(o) == objs[id].Callback(o)
    {
    }
  }

  lemma StartKeeps(w: World, id: Id, k: Kind, args: Args, e: Env)
    requires Inv(w) && Enabled(w, StartCall(id, k, args, e))
    ensures Inv(Apply(w, StartCall(id, k, args, e)))
  {
    var r := Start(w.backend, w.objs[id], k, args, w.nextTok, e);
    StartKeepsOk(w.backend, w.objs[id], k, args, w.nextTok, e);
    PutKeepsObjs(w.backend, w.objs, w.nextId, id, r.tcp);
    StartKeepsEvents(w.backend, w.objs, w.fake, w.kernel, w.batch, id, k, r, w.nextTok);
    StartKeepsCallbacks(w.backend, w.objs, w.ops, w.nextTok, w.log, w.freed, id, k, r);
    PutKeepsEndgame(w.objs, w.endgame, w.freed, w.released, w.nextId, id, r.tcp);
  }

  predicate HasNoOperation(t: Tcp) {
    !t.reading && !t.writing && t.onConnect == Null && t.onAccept == Null && t.onRead == Null && t.onWrite == Null
  }

  /** Putting in an event without operations where there was none, or none with operations. */
  lemma PutIdleKeepsEvents(b: Backend, objs: Objs, fake: seq<Ev>, kernel: set<Ev>, batch: seq<Ev>, id: Id, t: Tcp)
    requires EventsOk(b, objs, fake, kernel, batch) && HasNoOperation(t)
    requires id in objs ==> !objs[id].reading && !objs[id].writing
    ensures EventsOk(b, objs[id := t], fake, kernel, batch)
  {
    forall ev | Awaited(objs, ev) ensures ev.id != id {
    }
  }

  lemma PutIdleKeepsCallbacks(objs: Objs, ops: map<Token, Op>, nextTok: nat, log: seq<Entry>, id: Id, t: Tcp)
    requires CallbacksOk(objs, ops, nextTok, log) && HasNoOperation(t)
    ensures CallbacksOk(objs[id := t], ops, nextTok, log)
  {
    assert forall k :: t.Callback(k) == Null;
  }

  lemma NewKeepsObjs(b: Backend, objs: Objs, nextId: nat, endgame: seq<Id>, freed: map<Id, nat>, released: set<Id>,
                     t: Tcp)
    requires ObjsOk(b, objs, nextId) && EndgameOk(objs, endgame, freed, released, nextId) && (t == FRESH || t == CLIENT)
    ensures ObjsOk(b, objs[nextId := t], nextId + 1)
    ensures EndgameOk(objs[nextId := t], endgame, freed, released, nextId + 1)
  {
    assert nextId !in objs && nextId !in freed;
  }

  /** A new event: unused, or connected by an accept. */
  lemma NewKeeps(w: World, t: Tcp)
    requires Inv(w) && (t == FRESH || t == CLIENT)
    ensures Inv(WithNew(w, t))
  {
    NewKeepsObjs(w.backend, w.objs, w.nextId, w.endgame, w.freed, w.released, t);
    PutIdleKeepsEvents(w.backend, w.objs, w.fake, w.kernel, w.batch, w.nextId, t);
    PutIdleKeepsCallbacks(w.objs, w.ops, w.nextTok, w.log, w.nextId, t);
  }

  lemma ReopenKeepsEvents(b: Backend, objs: Objs, fake: seq<Ev>, kernel: set<Ev>, batch: seq<Ev>, id: Id, r: Started)
    requires EventsOk(b, objs, fake, kernel, batch) && id in objs && ListensOnly(objs[id], r)
    ensures EventsOk(b, objs[id := r.tcp], fake, kernel, batch)
  {
    var objs' := objs[id := r.tcp];
    forall ev | Awaited(objs, ev)
      ensures Awaited(objs', ev) && objs'[ev.id].Armed(ev.dir) == objs[ev.id].Armed(ev.dir)
      ensures Deliverable(objs, ev) ==> Deliverable(objs', ev)
    {
    }
  }

  lemma ReopenKeepsCallbacks(objs: Objs, ops: map<Token, Op>, nextTok: nat, log: seq<Entry>, id: Id, r: Started)
    requires CallbacksOk(objs, ops, nextTok, log) && id in objs && ListensOnly(objs[id], r)
    ensures CallbacksOk(objs[id := r.tcp], ops, nextTok, log)
  {
    assert forall k :: r.tcp.Callback(k) == objs[id].Callback(k);
  }

  lemma ListenKeeps(w: World, id: Id, valid: bool, socket: SocketResult, register: bool, ready: bool)
    requires Inv(w) && Enabled(w, ListenCall(id, valid, socket, register, ready))
    ensures Inv(Apply(w, ListenCall(id, valid, socket, register, ready)))
  {
    var r := Listen(w.objs[id], valid, socket, register, ready);
    ListenKeepsOk(w.backend, w.objs[id], valid, socket, register, ready);
    PutKeepsObjs(w.backend, w.objs, w.nextId, id, r.tcp);
    PutKeepsEndgame(w.objs, w.endgame, w.freed, w.released, w.nextId, id, r.tcp);
    ReopenKeepsEvents(w.backend, w.objs, w.fake, w.kernel, w.batch, id, r);
    ReopenKeepsCallbacks(w.objs, w.ops, w.nextTok, w.log, id, r);
  }

  // ---------- an operation ends ----------

  lemma ConcludeKeepsCalls(objs: Objs, ops: map<Token, Op>, nextTok: nat, log: seq<Entry>, freed: map<Id, nat>,
                           id: Id, r: Delivered, d: Dir, flagAfter: bool)
    requires CallbacksOk(objs, ops, nextTok, log) && LogOk(ops, log, freed)
    requires id in objs && Concludes(objs[id], r, d, flagAfter) && (id in freed ==> objs[id].deleted)
    ensures CallbacksOk(objs[id := r.tcp], ops, nextTok, Logged(log, id, r.call))
    ensures LogOk(ops, Logged(log, id, r.call), freed)
  {
    var t, k, log' := objs[id], PendingKind(objs[id], d), Logged(log, id, r.call);
    forall o | r.tcp.Callback(o).Of? ensures o != k && r.tcp.Callback(o) == t.Callback(o) {
    }
    if r.call.Runs? {
      assert t.Callback(k).Of?;
      forall tok | tok in ops && NotCalled(log, tok) && tok != r.call.call.tok ensures NotCalled(log', tok) {
      }
    }
  }

  lemma DeliverKeepsEvents(b: Backend, objs: Objs, fake: seq<Ev>, kernel: set<Ev>, batch: seq<Ev>, r: Delivered)
    requires EventsOk(b, objs, fake, kernel, batch) && batch != []
    requires var ev := batch[0]; ev.id in objs && Concludes(objs[ev.id], r, ev.dir, false)
    ensures EventsOk(b, objs[batch[0].id := r.tcp], fake, kernel, batch[1..])
  {
    var ev0, objs', rest := batch[0], objs[batch[0].id := r.tcp], batch[1..];
    assert ev0 !in rest && ev0 !in fake && ev0 !in kernel;
    assert forall ev | ev in rest :: ev in batch;
    assert forall ev | ev in batch :: ev == ev0 || ev in rest;
    forall ev | ev != ev0 && Awaited(objs, ev)
      ensures Awaited(objs', ev) && objs'[ev.id].Armed(ev.dir) == objs[ev.id].Armed(ev.dir)
      ensures Deliverable(objs, ev) ==> Deliverable(objs', ev)
    {
    }
  }

  lemma HandledKeeps(w: World, unregister: bool, room: bool)
    requires Inv(w) && Enabled(w, Deliver(unregister, room))
    ensures var ev := w.batch[0];
      ev.id in w.objs && Inv(Handled(w, ev.id, Allocated(Complete(w.backend, w.objs[ev.id], ev.dir, unregister), room)))
  {
    var ev := w.batch[0];
    assert Deliverable(w.objs, ev);
    var r := Allocated(Complete(w.backend, w.objs[ev.id], ev.dir, unregister), room);
    CompleteKeepsOk(w.backend, w.objs[ev.id], ev.dir, unregister);
    PutKeepsObjs(w.backend, w.objs, w.nextId, ev.id, r.tcp);
    PutKeepsEndgame(w.objs, w.endgame, w.freed, w.released, w.nextId, ev.id, r.tcp);
    ConcludeKeepsCalls(w.objs, w.ops, w.nextTok, w.log, w.freed, ev.id, r, ev.dir, false);
    DeliverKeepsEvents(w.backend, w.objs, w.fake, w.kernel, w.batch, r);
  }

  lemma DeliverKeeps(w: World, unregister: bool, room: bool)
    requires Inv(w) && Enabled(w, Deliver(unregister, room))
    ensures Inv(ApplyDeliver(w, unregister, room))
  {
    HandledKeeps(w, unregister, room);
    var ev := w.batch[0];
    NewKeeps(Handled(w, ev.id, Allocated(Complete(w.backend, w.objs[ev.id], ev.dir, unregister), room)), CLIENT);
  }

  lemma TimeoutKeepsEvents(b: Backend, objs: Objs, fake: seq<Ev>, kernel: set<Ev>, id: Id, r: Delivered, d: Dir)
    requires EventsOk(b, objs, fake, kernel, []) && id in objs && objs[id].Armed(d) && objs[id].Flag(d)
    requires Concludes(objs[id], r, d, b == Iocp)
    ensures EventsOk(b, objs[id := r.tcp], fake, kernel, [])
  {
    var objs' := objs[id := r.tcp];
    assert Ev(id, d) !in fake;
    assert b == Iocp ==> Awaited(objs', Ev(id, d));
    forall ev | ev != Ev(id, d) && Awaited(objs, ev)
      ensures Awaited(objs', ev) && objs'[ev.id].Armed(ev.dir) == objs[ev.id].Armed(ev.dir)
      ensures Deliverable(objs, ev) ==> Deliverable(objs', ev)
    {
    }
  }

  lemma TimeoutKeeps(w: World, id: Id, d: Dir, unregister: bool)
    requires Inv(w) && Enabled(w, TimeoutFires(id, d, unregister))
    ensures Inv(Apply(w, TimeoutFires(id, d, unregister)))
  {
    var r := Timeout(w.backend, w.objs[id], d, unregister);
    TimeoutKeepsOk(w.backend, w.objs[id], d, unregister);
    PutKeepsObjs(w.backend, w.objs, w.nextId, id, r.tcp);
    PutKeepsEndgame(w.objs, w.endgame, w.freed, w.released, w.nextId, id, r.tcp);
    ConcludeKeepsCalls(w.objs, w.ops, w.nextTok, w.log, w.freed, id, r, d, w.backend == Iocp);
    TimeoutKeepsEvents(w.backend, w.objs, w.fake, w.kernel, id, r, d);
  }

  // ---------- freeing ----------

  lemma KeptKeepsEvents(b: Backend, objs: Objs, fake: seq<Ev>, kernel: set<Ev>, batch: seq<Ev>, id: Id)
    requires EventsOk(b, objs, fake, kernel, batch) && id in objs && Free(objs[id]).Kept?
    ensures EventsOk(b, objs[id := Free(objs[id]).tcp], fake, kernel, batch)
  {
    var objs' := objs[id := Free(objs[id]).tcp];
    forall ev | Awaited(objs, ev)
      ensures Awaited(objs', ev) && (objs'[ev.id].Armed(ev.dir) ==> objs[ev.id].Armed(ev.dir))
      ensures Deliverable(objs, ev) ==> Deliverable(objs', ev)
    {
    }
  }

  lemma KeptKeepsCallbacks(objs: Objs, ops: map<Token, Op>, nextTok: nat, log: seq<Entry>, id: Id)
    requires CallbacksOk(objs, ops, nextTok, log) && id in objs && Free(objs[id]).Kept?
    ensures CallbacksOk(objs[id := Free(objs[id]).tcp], ops, nextTok, log)
  {
    var t, t' := objs[id], Free(objs[id]).tcp;
    forall k ensures t'.Callback(k) == t.Callback(k) {
      match k case Connecting => case Accepting => case Reading => case Writing =>
    }
  }

  lemma FreeKeepsRest(objs: Objs, endgame: seq<Id>, ops: map<Token, Op>, log: seq<Entry>, freed: map<Id, nat>,
                      released: set<Id>, nextId: nat, id: Id)
    requires EndgameOk(objs, endgame, freed, released, nextId) && LogOk(ops, log, freed)
    requires id in objs && id < nextId && !objs[id].deleted
    ensures LogOk(ops, log, freed[id := |log|])
    ensures match Free(objs[id])
      case Released => EndgameOk(objs - {id}, endgame, freed[id := |log|], released + {id}, nextId)
      case Kept(t) => EndgameOk(objs[id := t], [id] + endgame, freed[id := |log|], released, nextId)
  {
    forall i | 0 <= i < |log| ensures EntryOk(ops, freed[id := |log|], log[i], i) {
      assert EntryOk(ops, freed, log[i], i);
    }
    assert id !in endgame;
  }

  /** Taking out events without operations disturbs no completion and no callback. */
  lemma RemoveKeeps(b: Backend, objs: Objs, nextId: nat, fake: seq<Ev>, kernel: set<Ev>, batch: seq<Ev>,
                    ops: map<Token, Op>, nextTok: nat, log: seq<Entry>, gone: set<Id>)
    requires ObjsOk(b, objs, nextId) && EventsOk(b, objs, fake, kernel, batch) && CallbacksOk(objs, ops, nextTok, log)
    requires forall id | id in gone && id in objs :: !objs[id].reading && !objs[id].writing
    ensures ObjsOk(b, objs - gone, nextId) && EventsOk(b, objs - gone, fake, kernel, batch)
    ensures CallbacksOk(objs - gone, ops, nextTok, log)
  {
    forall ev | Awaited(objs, ev) ensures ev.id !in gone && (objs - gone)[ev.id] == objs[ev.id] {
    }
  }

  lemma FreeKeeps(w: World, id: Id)
    requires Inv(w) && Enabled(w, FreeCall(id))
    ensures Inv(Apply(w, FreeCall(id)))
  {
    FreeKeepsOk(w.backend, w.objs[id]);
    FreeKeepsRest(w.objs, w.endgame, w.ops, w.log, w.freed, w.released, w.nextId, id);
    match Free(w.objs[id])
    case Released =>
      RemoveKeeps(w.backend, w.objs, w.nextId, w.fake, w.kernel, w.batch, w.ops, w.nextTok, w.log, {id});
    case Kept(t) =>
      PutKeepsObjs(w.backend, w.objs, w.nextId, id, t);
      KeptKeepsEvents(w.backend, w.objs, w.fake, w.kernel, w.batch, id);
      KeptKeepsCallbacks(w.objs, w.ops, w.nextTok, w.log, id);
  }

  lemma {:induction false} FilterKeepsDistinct<T>(s: seq<T>, keep: set<T>)
    requires Distinct(s)
    ensures Distinct(EndgameList.Filter(s, keep))
  {
    if s == [] {
    } else {
      FilterKeepsDistinct(s[1..], keep);
      EndgameList.FilterMembers(s[1..], keep, s[0]);
      assert s[0] !in s[1..];
    }
  }

  lemma SweepKeepsEndgame(objs: Objs, endgame: seq<Id>, freed: map<Id, nat>, released: set<Id>, nextId: nat,
                          gone: set<Id>)
    requires EndgameOk(objs, endgame, freed, released, nextId) && forall id | id in gone :: id in objs && id in endgame
    ensures EndgameOk(objs - gone, EndgameList.Filter(endgame, (set id | id in objs) - gone), freed, released + gone,
      nextId)
  {
    var keep := (set id | id in objs) - gone;
    FilterKeepsDistinct(endgame, keep);
    forall id ensures id in EndgameList.Filter(endgame, keep) <==> id in endgame && id in keep {
      EndgameList.FilterMembers(endgame, keep, id);
    }
  }

  lemma SweepKeeps(w: World)
    requires Inv(w) && Enabled(w, Step.Sweep)
    ensures Inv(ApplySweep(w))
  {
    RemoveKeeps(w.backend, w.objs, w.nextId, w.fake, w.kernel, w.batch, w.ops, w.nextTok, w.log, Idle(w));
    SweepKeepsEndgame(w.objs, w.endgame, w.freed, w.released, w.nextId, Idle(w));
  }

  // ---------- polling ----------

  lemma DrainKeeps(w: World)
    requires Inv(w) && Enabled(w, DrainFake)
    ensures Inv(Apply(w, DrainFake))
  {
    var n := if |w.fake| > MAX_EVENTS then MAX_EVENTS else |w.fake|;
    assert w.fake == w.fake[..n] + w.fake[n..];
    assert forall ev | ev in w.fake[..n] || ev in w.fake[n..] :: ev in w.fake;
    assert forall ev | ev in w.fake[n..] :: ev !in w.fake[..n];
  }

  lemma ReadyKeepsEvents(objs: Objs, batch: seq<Ev>, ev0: Ev, t: Tcp)
    requires EventsOk(Reactor, objs, [], {}, batch) && ev0.id in objs && ev0 !in batch
    requires AcceptedOk(t, ev0.dir) && objs[ev0.id].Flag(ev0.dir)
    requires t == objs[ev0.id].(ctxRead := t.ctxRead, ctxWrite := t.ctxWrite, data := t.data)
    requires ev0.dir == Wr ==> t.ctxRead == objs[ev0.id].ctxRead && t.data == objs[ev0.id].data
    ensures EventsOk(Reactor, objs[ev0.id := t], [], {}, batch + [ev0])
  {
    var objs' := objs[ev0.id := t];
    forall ev | ev != ev0 && Deliverable(objs, ev) ensures Deliverable(objs', ev) {
    }
    assert Deliverable(objs', ev0);
  }

  lemma ReadyKeepsCallbacks(objs: Objs, ops: map<Token, Op>, nextTok: nat, log: seq<Entry>, id: Id, t: Tcp)
    requires CallbacksOk(objs, ops, nextTok, log) && id in objs
    requires t == objs[id].(ctxRead := t.ctxRead, ctxWrite := t.ctxWrite, data := t.data)
    ensures CallbacksOk(objs[id := t], ops, nextTok, log)
  {
    forall k ensures t.Callback(k) == objs[id].Callback(k) {
      match k case Connecting => case Accepting => case Reading => case Writing =>
    }
  }

  lemma FilledKeeps(w: World, id: Id, d: Dir, report: Report)
    requires Inv(w) && Enabled(w, ReportReady(id, d, report)) && Ready(w.objs[id], d, report).Filled?
    ensures Inv(Put(w, id, Ready(w.objs[id], d, report).tcp).(batch := w.batch + [Ev(id, d)],
                                                              seen := w.seen + {Ev(id, d)}))
  {
    var t := Ready(w.objs[id], d, report).tcp;
    ReadyKeepsOk(w.objs[id], d, report);
    PutKeepsObjs(w.backend, w.objs, w.nextId, id, t);
    PutKeepsEndgame(w.objs, w.endgame, w.freed, w.released, w.nextId, id, t);
    ReadyKeepsEvents(w.objs, w.batch, Ev(id, d), t);
    ReadyKeepsCallbacks(w.objs, w.ops, w.nextTok, w.log, id, t);
  }

  lemma ReportKeeps(w: World, id: Id, d: Dir, report: Report)
    requires Inv(w) && Enabled(w, ReportReady(id, d, report))
    ensures Inv(Apply(w, ReportReady(id, d, report)))
  {
    if |w.batch| < MAX_EVENTS && Ready(w.objs[id], d, report).Filled? {
      FilledKeeps(w, id, d, report);
    }
  }

  lemma DequeueKeepsEvents(objs: Objs, kernel: set<Ev>, batch: seq<Ev>, ev0: Ev, status: int)
    requires EventsOk(Iocp, objs, [], kernel, batch) && ev0 in kernel
    requires TcpOk(Iocp, objs[ev0.id])
    ensures EventsOk(Iocp, objs[ev0.id := SetStatus(objs[ev0.id], ev0.dir, status)], [], kernel - {ev0}, batch + [ev0])
  {
    var objs' := objs[ev0.id := SetStatus(objs[ev0.id], ev0.dir, status)];
    forall ev | Awaited(objs, ev) ensures Awaited(objs', ev) &&
      (ev != ev0 && Deliverable(objs, ev) ==> Deliverable(objs', ev)) {
    }
    assert Deliverable(objs', ev0);
    forall id, d | id in objs' && objs'[id].Flag(d) ensures Ev(id, d) in kernel - {ev0} || Ev(id, d) in batch + [ev0] {
      assert objs[id].Flag(d);
    }
  }

  lemma DequeueKeeps(w: World, ev: Ev, status: int)
    requires Inv(w) && Enabled(w, Dequeue(ev, status))
    ensures Inv(Apply(w, Dequeue(ev, status)))
  {
    assert Awaited(w.objs, ev);
    var t := SetStatus(w.objs[ev.id], ev.dir, status);
    assert TcpOk(w.backend, t);
    PutKeepsObjs(w.backend, w.objs, w.nextId, ev.id, t);
    PutKeepsEndgame(w.objs, w.endgame, w.freed, w.released, w.nextId, ev.id, t);
    DequeueKeepsEvents(w.objs, w.kernel, w.batch, ev, status);
    ReadyKeepsCallbacks(w.objs, w.ops, w.nextTok, w.log, ev.id, t);
  }
}
