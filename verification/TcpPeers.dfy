/** Several TCP events of one loop share its timer heap and the poller's queue. */
module TcpPeers {
  import opened Times
  import opened TcpEvent
  import opened TcpObject
  import opened CompletionQueue
  import TimerHeap

  /** Everything that is done to one event. */
  datatype Operation =
    | DoConnect(b: Backend, valid: bool, tok: Token, now: TimeVal, timeout: Timeout, o: Outcome)
    | DoAccept(b: Backend, valid: bool, tok: Token, now: TimeVal, timeout: Timeout, o: Outcome)
    | DoWrite(b: Backend, valid: bool, tok: Token, now: TimeVal, timeout: Timeout, o: Outcome)
    | DoRead(b: Backend, valid: bool, tok: Token, now: TimeVal, timeout: Timeout, o: Outcome)
    | DoListen(valid: bool, socket: SocketResult, register: bool, ready: bool)
    | DoReady(d: Dir, r: Report)
    | DoComplete(b: Backend, d: Dir, unregister: bool, room: bool)
    | DoTimeout(b: Backend, d: Dir, unregister: bool)
    | DoFree

  predicate Timely(op: Operation) {
    op.DoConnect? || op.DoAccept? || op.DoWrite? || op.DoRead? ==> Normal(op.now)
  }

  /** Two events of one loop, each with timeouts of its own. */
  ghost predicate Apart(e: Event, f: Event)
  {
    && e != f && e.timers == f.timers && e.queue == f.queue
    && {e.timeoutRead, e.timeoutWrite} !! {f.timeoutRead, f.timeoutWrite}
    && {e.timeoutRead.node, e.timeoutWrite.node} !! {f.timeoutRead.node, f.timeoutWrite.node}
  }

  method Call(e: Event, op: Operation)
    requires e.Valid() && e.queue.Valid() && Timely(op) && (op.DoConnect? || op.DoAccept? || op.DoWrite? || op.DoRead?)
    modifies e, e.timeoutRead, e.timeoutWrite, e.timers, e.timers.events, e.timers.all`idx
    modifies e.timeoutRead.node`timeout, e.timeoutWrite.node`timeout, e.queue, e.queue.events
    ensures e.Valid() && e.OthersStay() && e.queue.Valid()
  {
    var code, queued;
    match op {
      case DoConnect(b, valid, tok, now, timeout, o) => code, queued := e.Connect(b, valid, tok, now, timeout, o);
      case DoAccept(b, valid, tok, now, timeout, o) => code, queued := e.Accept(b, valid, tok, now, timeout, o);
      case DoWrite(b, valid, tok, now, timeout, o) => code, queued := e.Write(b, valid, tok, now, timeout, o);
      case DoRead(b, valid, tok, now, timeout, o) => code, queued := e.Read(b, valid, tok, now, timeout, o);
    }
  }

  method Handle(e: Event, op: Operation)
    requires e.Valid() && !(op.DoConnect? || op.DoAccept? || op.DoWrite? || op.DoRead?)
    modifies e, e.timeoutRead, e.timeoutWrite, e.timers, e.timers.events, e.timers.all`idx
    ensures e.Valid() && e.OthersStay()
  {
    match op {
      case DoListen(valid, socket, register, ready) => var code := e.Listen(valid, socket, register, ready);
      case DoReady(d, r) => var filled := e.Ready(d, r);
      case DoComplete(b, d, unregister, room) => var call, stale := e.Complete(b, d, unregister, room);
      case DoTimeout(b, d, unregister) => var call := e.Timeout(b, d, unregister);
      case DoFree => var kept := e.Free();
    }
  }

  /** Whatever is done to one event leaves every other event of the loop as it was. */
  method ActsAlone(e: Event, op: Operation, ghost others: set<Event>)
    requires e.Valid() && e.queue.Valid() && Timely(op)
    requires forall f | f in others :: f.Valid() && Apart(e, f)
    modifies e, e.timeoutRead, e.timeoutWrite, e.timers, e.timers.events, e.timers.all`idx
    modifies e.timeoutRead.node`timeout, e.timeoutWrite.node`timeout, e.queue, e.queue.events
    ensures e.Valid() && e.queue.Valid()
    ensures forall f | f in others :: f.Valid() && f.Abs() == old(f.Abs())
  {
    if op.DoConnect? || op.DoAccept? || op.DoWrite? || op.DoRead? {
      Call(e, op);
    } else {
      Handle(e, op);
    }
  }

  /** One more event for the loop of `e`, and apart from all of its events. */
  method Join(e: Event, ghost others: set<Event>) returns (f: Event)
    requires e.Valid() && forall g | g in others :: g.Valid() && g.timers == e.timers && g.queue == e.queue
    modifies e.timers`all
    ensures fresh(f) && f.timers == e.timers && fresh(f.timeoutRead) && fresh(f.timeoutWrite)
    ensures fresh(f.timeoutRead.node) && fresh(f.timeoutWrite.node)
    ensures e.timers.all == old(e.timers.all) + {f.timeoutRead.node, f.timeoutWrite.node}
    ensures e.Valid() && f.Valid() && Apart(e, f) && f.Abs() == FRESH && e.Abs() == old(e.Abs())
    ensures forall g | g in others :: g.Valid() && Apart(g, f) && g.Abs() == old(g.Abs())
  {
    f := new Event(e.timers, e.queue);
  }
}
