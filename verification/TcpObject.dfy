/** The TCP event in memory: separate fields, two timeout nodes in the loop's timer heap, and the poller's queue.
    Every call and callback is proved to act on all three as its transition on the record says. */
module TcpObject {
  import opened Times
  import TimerHeap
  import opened CompletionQueue
  import opened TcpEvent
  import Spec = TcpEvent

  type Heap = TimerHeap.Heap
  type Node = TimerHeap.Node

  /** A `poller_event`: the event and which of its two contexts. */
  datatype Completion = Nobody | For(event: Event, dir: Dir)

  datatype Timeout = NoLimit | After(tv: TimeVal)

  /** What the system calls answer, and whether memory can be had for the heap and for the queue. */
  datatype Outcome = Outcome(socket: SocketResult, attempt: Attempt, register: bool, heapMemory: bool,
                             queueMemory: bool)

  function ArgsOf(valid: bool, timeout: Timeout): Args {
    Args(valid && (timeout.After? ==> Normal(timeout.tv)), timeout.After?)
  }

  /** `timer_node_add`. */
  method NodeAdd(h: Heap, node: Node, expires: TimeVal, memory: bool) returns (ok: bool)
    requires h.Valid() && node in h.all && Normal(expires)
    modifies h, h.events, h.all`idx, node`timeout
    ensures h.Valid() && h.all == old(h.all) && (h.events == old(h.events) || fresh(h.events))
    ensures ok == (!old(node.Active()) && (memory || old(h.size < h.events.Length)))
    ensures forall x | x in h.all :: x.Active() <==> old(x.Active()) || (ok && x == node)
    ensures ok ==> node.timeout == expires
  {
    if node.Active() {
      return false;
    }
    node.timeout := expires;
    var code := h.Insert(node, memory);
    return code == TimerHeap.Success;
  }

  lemma ConcludeOfConnect(t: Tcp, status: int, evWrite: bool)
    ensures Spec.Conclude(t, Connecting, status, evWrite) ==
      var t' := Spec.Cleared(t, Connecting, status, evWrite);
      var call := CallFor(t', t.onConnect, Connecting, status, Null);
      Delivered(t'.(connected := t'.connected || (call.Runs? && status == 0)), call, false)
  {
  }

  lemma AcceptOfWaiting(t: Tcp, args: Args, tok: Token, e: Env)
    requires !e.attempt.InProgress? && e.socket == GoodSocket && t.data == AcceptData(false)
    ensures Spec.AcceptReady(t, args, tok, e) ==
      var t' := t.(ctxRead := 0, data := AcceptData(e.submit));
      if e.submit then Spec.Finish(t', Accepting, tok, false, true, true) else Spec.ErrorExit(t', Rd, args.timed)
  {
    assert t.(ctxRead := 0, data := AcceptData(false)) == t.(ctxRead := 0);
  }

  /** `nanoev_tcp_timeout`: a node of the heap and the operation it is armed for. */
  class TcpTimeout {
    const node: Node
    var op: TimeoutOp

    constructor (h: Heap)
      requires h.Valid()
      modifies h`all
      ensures h.Valid() && fresh(node) && h.all == old(h.all) + {node} && op == NoTimeout && !node.Active()
    {
      op := NoTimeout;
      node := new TimerHeap.Node();
      new;
      h.Adopt(node);
    }

    /** `tcp_timeout_add`, once the time of expiry is computed. */
    method Set(h: Heap, k: Kind, expires: TimeVal, memory: bool) returns (ok: bool)
      requires h.Valid() && node in h.all && Normal(expires)
      modifies this`op, h, h.events, h.all`idx, node`timeout
      ensures h.Valid() && h.all == old(h.all) && (h.events == old(h.events) || fresh(h.events))
      ensures ok == (!old(node.Active()) && (memory || old(h.size < h.events.Length)))
      ensures forall x | x in h.all :: x.Active() <==> old(x.Active()) || (ok && x == node)
      ensures op == (if ok then TimeoutOp.For(k) else NoTimeout) && (ok ==> node.timeout == expires)
    {
      op := TimeoutOp.For(k);
      ok := NodeAdd(h, node, expires, memory);
      if !ok {
        op := NoTimeout;
      }
    }

    /** `tcp_timeout_del`. */
    method Unset(h: Heap)
      requires h.Valid() && node in h.all
      modifies this`op, h, h.events, h.all`idx
      ensures h.Valid() && h.all == old(h.all) && h.events == old(h.events)
      ensures forall x | x in h.all :: x.Active() <==> old(x.Active()) && x != node
      ensures op == NoTimeout
    {
      h.Erase(node);
      op := NoTimeout;
    }
  }

  class Event {
    var open: bool
    var connected: bool
    var listening: bool
    var reading: bool
    var writing: bool
    var error: bool
    var deleted: bool
    var evWrite: bool
    var ctxRead: int
    var ctxWrite: int
    var data: Union
    var onConnect: Slot
    var onAccept: Slot
    var onRead: Slot
    var onWrite: Slot
    const timeoutRead: TcpTimeout
    const timeoutWrite: TcpTimeout
    const timers: Heap
    const queue: Queue<Completion>

    ghost predicate Valid()
      reads timers, timers.events, timers.all`idx, timers.all`timeout
    {
      && timers.Valid() && timeoutRead != timeoutWrite && timeoutRead.node != timeoutWrite.node
      && timeoutRead.node in timers.all && timeoutWrite.node in timers.all
    }

    /** The record this memory stands for: a timeout is armed when its node is in the heap. */
    ghost function Abs(): Tcp
      reads this, timeoutRead, timeoutWrite, timeoutRead.node`idx, timeoutWrite.node`idx
    {
      Tcp(open, connected, listening, reading, writing, error, deleted, evWrite, ctxRead, ctxWrite, data,
          timeoutRead.op, timeoutWrite.op, timeoutRead.node.Active(), timeoutWrite.node.Active(),
          onConnect, onAccept, onRead, onWrite)
    }

    ghost predicate HeapRoom(o: Outcome)
      reads timers
    {
      o.heapMemory || timers.size < timers.events.Length
    }

    ghost function EnvOf(o: Outcome): Env
      reads timers, queue
    {
      Env(o.socket, o.attempt, o.register, o.queueMemory || queue.count < queue.events.Length, HeapRoom(o))
    }

    /** The heap holds the same other nodes with the same deadlines. */
    twostate predicate OthersStay()
      reads timers, timers.all`idx, timers.all`timeout
    {
      && timers.all == old(timers.all) && (timers.events == old(timers.events) || fresh(timers.events))
      && forall x | x in old(timers.all) && x in timers.all && x != timeoutRead.node && x != timeoutWrite.node ::
           x.Active() == old(x.Active()) && x.timeout == old(x.timeout)
    }

    /** The timeout of direction `d` expires as asked. */
    ghost predicate ExpiresAt(d: Dir, now: TimeVal, timeout: Timeout)
      reads timeoutRead.node`timeout, timeoutWrite.node`timeout
    {
      timeout.After? && (if d == Rd then timeoutRead else timeoutWrite).node.Due() == Micros(now) + Micros(timeout.tv)
    }

    /** The poller's queue has grown by this event's completion, or not at all. */
    twostate predicate Queues(queued: bool, d: Dir)
      requires old(queue.Valid())
      reads queue, queue.events
    {
      && queue.Valid() && (queue.events == old(queue.events) || fresh(queue.events))
      && queue.Pending() == old(queue.Pending()) + if queued then [Completion.For(this, d)] else []
    }

    /** `tcp_new`. */
    constructor (timers: Heap, queue: Queue<Completion>)
      requires timers.Valid()
      modifies timers`all
      ensures Valid() && this.timers == timers && this.queue == queue && Abs() == FRESH
      ensures fresh(timeoutRead) && fresh(timeoutWrite) && fresh(timeoutRead.node) && fresh(timeoutWrite.node)
      ensures timers.all == old(timers.all) + {timeoutRead.node, timeoutWrite.node}
    {
      open, connected, listening, reading := false, false, false, false;
      writing, error, deleted, evWrite := false, false, false, false;
      ctxRead, ctxWrite, data := 0, 0, Zeroed;
      onConnect, onAccept, onRead, onWrite := Null, Null, Null, Null;
      this.timers, this.queue := timers, queue;
      timeoutRead := new TcpTimeout(timers);
      timeoutWrite := new TcpTimeout(timers);
    }

    /** `tcp_timeout_add`. */
    method TimeoutAdd(k: Kind, now: TimeVal, after: TimeVal, o: Outcome) returns (ok: bool)
      requires Valid() && Normal(now) && Normal(after)
      modifies timeoutRead, timeoutWrite, timers, timers.events, timers.all`idx
      modifies timeoutRead.node`timeout, timeoutWrite.node`timeout
      ensures Valid() && OthersStay() && Abs() == Spec.Arm(old(Abs()), k, old(HeapRoom(o)))
      ensures ok == (old(HeapRoom(o)) && !old(Abs()).Armed(DirOf(k))) && (ok ==> ExpiresAt(DirOf(k), now, After(after)))
    {
      var expires := Add(now, after);
      if DirOf(k) == Rd {
        ok := timeoutRead.Set(timers, k, expires, o.heapMemory);
      } else {
        ok := timeoutWrite.Set(timers, k, expires, o.heapMemory);
      }
    }

    /** `tcp_timeout_del`. */
    method TimeoutDel(d: Dir)
      requires Valid()
      modifies timeoutRead, timeoutWrite, timers, timers.events, timers.all`idx
      ensures Valid() && OthersStay() && timers.events == old(timers.events) && Abs() == Spec.Disarm(old(Abs()), d)
    {
      if d == Rd {
        timeoutRead.Unset(timers);
      } else {
        timeoutWrite.Unset(timers);
      }
    }

    // ---------- starting operations ----------

    method ErrorExit(d: Dir, timed: bool) returns (code: Code)
      requires Valid()
      modifies this`error, timeoutRead, timeoutWrite, timers, timers.events, timers.all`idx
      ensures Valid() && OthersStay() && timers.events == old(timers.events)
      ensures code == Fail && Abs() == Failed(if timed then Spec.Disarm(old(Abs()), d) else old(Abs()))
    {
      if timed {
        TimeoutDel(d);
        SetError();
      } else {
        SetError();
      }
      return Fail;
    }

    method BeginRead(k: Kind, tok: Token)
      requires DirOf(k) == Rd
      modifies this`reading, this`onAccept, this`onRead
      ensures Abs() == Spec.Finish(old(Abs()), k, tok, false, true, false).tcp
    {
      reading := true;
      if k == Accepting {
        onAccept := Of(tok);
      } else {
        onRead := Of(tok);
      }
    }

    method BeginWrite(k: Kind, tok: Token)
      requires DirOf(k) == Wr
      modifies this`writing, this`onConnect, this`onWrite
      ensures Abs() == Spec.Finish(old(Abs()), k, tok, false, true, false).tcp
    {
      writing := true;
      if k == Connecting {
        onConnect := Of(tok);
      } else {
        onWrite := Of(tok);
      }
    }

    /** The flag and the callback of a started operation. */
    method Begin(k: Kind, tok: Token, ghost queued: bool) returns (code: Code)
      modifies this`reading, this`writing, this`onConnect, this`onAccept, this`onRead, this`onWrite
      ensures Started(Abs(), code, queued) == Spec.Finish(old(Abs()), k, tok, false, true, queued)
    {
      if DirOf(k) == Rd {
        BeginRead(k, tok);
      } else {
        BeginWrite(k, tok);
      }
      return Success;
    }

    /** A timeout applies: without it there is no operation. */
    method FinishTimedRead(k: Kind, tok: Token, now: TimeVal, after: TimeVal, o: Outcome, ghost queued: bool)
      returns (code: Code)
      requires Valid() && Normal(now) && Normal(after) && DirOf(k) == Rd
      modifies this, timeoutRead, timeoutWrite, timers, timers.events, timers.all`idx
      modifies timeoutRead.node`timeout, timeoutWrite.node`timeout
      ensures Valid() && OthersStay() && (code == Success ==> ExpiresAt(Rd, now, After(after)))
      ensures Started(Abs(), code, queued) == Spec.Finish(old(Abs()), k, tok, true, old(HeapRoom(o)), queued)
    {
      var ok := TimeoutAdd(k, now, after, o);
      if ok {
        BeginRead(k, tok);
        code := Success;
      } else {
        code := ErrorExit(Rd, k == Accepting);
      }
    }

    method FinishTimedWrite(k: Kind, tok: Token, now: TimeVal, after: TimeVal, o: Outcome, ghost queued: bool)
      returns (code: Code)
      requires Valid() && Normal(now) && Normal(after) && DirOf(k) == Wr
      modifies this, timeoutRead, timeoutWrite, timers, timers.events, timers.all`idx
      modifies timeoutRead.node`timeout, timeoutWrite.node`timeout
      ensures Valid() && OthersStay() && (code == Success ==> ExpiresAt(Wr, now, After(after)))
      ensures Started(Abs(), code, queued) == Spec.Finish(old(Abs()), k, tok, true, old(HeapRoom(o)), queued)
    {
      var ok := TimeoutAdd(k, now, after, o);
      if ok {
        BeginWrite(k, tok);
        code := Success;
      } else {
        code := ErrorExit(Wr, k == Connecting);
      }
    }

    /** The end of every call that has started its operation; `wanted`: a timeout was given and applies. */
    method Finish(k: Kind, tok: Token, wanted: bool, now: TimeVal, timeout: Timeout, o: Outcome, ghost queued: bool)
      returns (code: Code)
      requires Valid() && Normal(now) && (wanted ==> timeout.After? && Normal(timeout.tv))
      modifies this, timeoutRead, timeoutWrite, timers, timers.events, timers.all`idx
      modifies timeoutRead.node`timeout, timeoutWrite.node`timeout
      ensures Valid() && OthersStay() && (code == Success && wanted ==> ExpiresAt(DirOf(k), now, timeout))
      ensures Started(Abs(), code, queued) == Spec.Finish(old(Abs()), k, tok, wanted, old(HeapRoom(o)), queued)
    {
      if wanted {
        if DirOf(k) == Rd {
          code := FinishTimedRead(k, tok, now, timeout.tv, o, queued);
        } else {
          code := FinishTimedWrite(k, tok, now, timeout.tv, o, queued);
        }
      } else {
        code := Begin(k, tok, queued);
      }
    }

    /** `submit_fake_io`. */
    method SubmitFake(d: Dir, o: Outcome) returns (ok: bool)
      requires Valid() && queue.Valid()
      modifies queue, queue.events
      ensures ok == old(EnvOf(o).submit) && Queues(ok, d) && Valid()
    {
      ok := queue.Submit(Completion.For(this, d), o.queueMemory);
    }

    /** After `submit_fake_io`: the flag and the callback are set, or the call fails. */
    method Submitted(k: Kind, tok: Token, queued: bool, takeBack: bool) returns (code: Code)
      requires Valid()
      modifies this, timeoutRead, timeoutWrite, timers, timers.events, timers.all`idx
      ensures Valid() && OthersStay()
      ensures Started(Abs(), code, queued) ==
        if queued then Spec.Finish(old(Abs()), k, tok, false, true, true)
        else Spec.ErrorExit(old(Abs()), DirOf(k), takeBack)
    {
      if queued {
        code := Begin(k, tok, true);
      } else {
        code := ErrorExit(DirOf(k), takeBack);
      }
    }

    /** The operation was done at once. */
    method AtOnce(k: Kind, tok: Token, o: Outcome) returns (code: Code, queued: bool)
      requires Valid() && queue.Valid()
      modifies this, timeoutRead, timeoutWrite, timers, timers.events, timers.all`idx, queue, queue.events
      ensures Valid() && OthersStay() && Queues(queued, DirOf(k)) && queued == old(EnvOf(o).submit)
      ensures Started(Abs(), code, queued) ==
        if queued then Spec.Finish(old(Abs()), k, tok, false, true, true)
        else Spec.ErrorExit(old(Abs()), DirOf(k), false)
    {
      queued := SubmitFake(DirOf(k), o);
      code := Submitted(k, tok, queued, false);
    }

    /** The operation has to wait for the socket to become writable. */
    method Pending(k: Kind, tok: Token, now: TimeVal, timeout: Timeout, takeBack: bool, o: Outcome) returns (code: Code)
      requires Valid() && Normal(now) && (timeout.After? ==> Normal(timeout.tv)) && DirOf(k) == Wr
      modifies this, timeoutRead, timeoutWrite, timers, timers.events, timers.all`idx
      modifies timeoutRead.node`timeout, timeoutWrite.node`timeout
      ensures Valid() && OthersStay() && (code == Success && timeout.After? ==> ExpiresAt(Wr, now, timeout))
      ensures Started(Abs(), code, false) ==
        if o.register then Spec.Finish(old(Abs()).(evWrite := true), k, tok, timeout.After?, old(HeapRoom(o)), false)
        else Spec.ErrorExit(old(Abs()), Wr, takeBack)
    {
      if !o.register {
        code := ErrorExit(Wr, takeBack);
        return;
      }
      evWrite := true;
      code := Finish(k, tok, timeout.After?, now, timeout, o, false);
    }

    // ---------- connect and listen ----------

    method ZeroContext()
      modifies this`ctxWrite
      ensures Abs() == old(Abs()).(ctxWrite := 0)
    {
      ctxWrite := 0;
    }

    method ConnectDone(tok: Token, o: Outcome) returns (code: Code, queued: bool)
      requires Valid() && queue.Valid()
      modifies this, timeoutRead, timeoutWrite, timers, timers.events, timers.all`idx, queue, queue.events
      ensures Valid() && OthersStay() && Queues(queued, Wr) && queued == old(EnvOf(o).submit)
      ensures Started(Abs(), code, queued) ==
        var t := old(Abs()).(ctxWrite := 0);
        if queued then Spec.Finish(t, Connecting, tok, false, true, true) else Spec.ErrorExit(t, Wr, false)
    {
      ZeroContext();
      code, queued := AtOnce(Connecting, tok, o);
    }

    method ConnectReady(tok: Token, now: TimeVal, timeout: Timeout, o: Outcome) returns (code: Code, queued: bool)
      requires Valid() && queue.Valid() && Normal(now) && (timeout.After? ==> Normal(timeout.tv))
      modifies this, timeoutRead, timeoutWrite, timers, timers.events, timers.all`idx
      modifies timeoutRead.node`timeout, timeoutWrite.node`timeout, queue, queue.events
      ensures Valid() && OthersStay() && Queues(queued, Wr)
      ensures code == Success && timeout.After? && !queued ==> ExpiresAt(Wr, now, timeout)
      ensures Started(Abs(), code, queued) ==
        Spec.ConnectReady(old(Abs()), Args(true, timeout.After?), tok, old(EnvOf(o)))
    {
      if o.attempt.Done? {
        code, queued := ConnectDone(tok, o);
      } else {
        queued := false;
        code := Pending(Connecting, tok, now, timeout, timeout.After?, o);
      }
    }

    method ConnectOverlapped(tok: Token, now: TimeVal, timeout: Timeout, o: Outcome) returns (code: Code, queued: bool)
      requires Valid() && Normal(now) && (timeout.After? ==> Normal(timeout.tv))
      modifies this, timeoutRead, timeoutWrite, timers, timers.events, timers.all`idx
      modifies timeoutRead.node`timeout, timeoutWrite.node`timeout
      ensures Valid() && OthersStay()
      ensures code == Success && timeout.After? && o.attempt.InProgress? ==> ExpiresAt(Wr, now, timeout)
      ensures Started(Abs(), code, queued) ==
        Spec.ConnectOverlapped(old(Abs()), Args(true, timeout.After?), tok, old(EnvOf(o)))
    {
      queued := o.register;
      if !o.register {
        code := ErrorExit(Wr, timeout.After?);
        return;
      }
      code := Finish(Connecting, tok, timeout.After? && o.attempt.InProgress?, now, timeout, o, true);
    }

    /** `connect` once there is a socket and the system call has not failed. */
    method Dialled(b: Backend, tok: Token, now: TimeVal, timeout: Timeout, o: Outcome)
      returns (code: Code, queued: bool)
      requires Valid() && queue.Valid() && Normal(now) && (timeout.After? ==> Normal(timeout.tv))
      modifies this, timeoutRead, timeoutWrite, timers, timers.events, timers.all`idx
      modifies timeoutRead.node`timeout, timeoutWrite.node`timeout, queue, queue.events
      ensures Valid() && OthersStay() && Queues(queued && b == Reactor, Wr)
      ensures code == Success && timeout.After? && o.attempt.InProgress? ==> ExpiresAt(Wr, now, timeout)
      ensures Started(Abs(), code, queued) ==
        if b == Iocp then Spec.ConnectOverlapped(old(Abs()), Args(true, timeout.After?), tok, old(EnvOf(o)))
        else Spec.ConnectReady(old(Abs()), Args(true, timeout.After?), tok, old(EnvOf(o)))
    {
      if b == Iocp {
        code, queued := ConnectOverlapped(tok, now, timeout, o);
      } else {
        code, queued := ConnectReady(tok, now, timeout, o);
      }
    }

    method SetOpen(on: bool)
      modifies this`open
      ensures Abs() == old(Abs()).(open := on)
    {
      open := on;
    }

    method DialOn(b: Backend, tok: Token, now: TimeVal, timeout: Timeout, o: Outcome) returns (code: Code, queued: bool)
      requires Valid() && queue.Valid() && Normal(now) && (timeout.After? ==> Normal(timeout.tv))
      modifies this, timeoutRead, timeoutWrite, timers, timers.events, timers.all`idx
      modifies timeoutRead.node`timeout, timeoutWrite.node`timeout, queue, queue.events
      ensures Valid() && OthersStay() && Queues(queued && b == Reactor, Wr)
      ensures code == Success && timeout.After? && o.attempt.InProgress? ==> ExpiresAt(Wr, now, timeout)
      ensures Started(Abs(), code, queued) ==
        var t, args := old(Abs()).(open := true), Args(true, timeout.After?);
        if b == Iocp then Spec.ConnectOverlapped(t, args, tok, old(EnvOf(o)))
        else Spec.ConnectReady(t, args, tok, old(EnvOf(o)))
    {
      SetOpen(true);
      code, queued := Dialled(b, tok, now, timeout, o);
    }

    method NoDial(o: Outcome, timed: bool) returns (code: Code)
      requires Valid()
      modifies this`open, this`error, timeoutRead, timeoutWrite, timers, timers.events, timers.all`idx
      ensures Valid() && OthersStay()
      ensures Started(Abs(), code, false) == Spec.ErrorExit(old(Abs()).(open := o.socket != NoSocket), Wr, timed)
    {
      SetOpen(o.socket != NoSocket);
      code := ErrorExit(Wr, timed);
    }

    /** `connect` after its checks. */
    method Dials(b: Backend, tok: Token, now: TimeVal, timeout: Timeout, o: Outcome) returns (code: Code, queued: bool)
      requires Valid() && queue.Valid() && Normal(now) && (timeout.After? ==> Normal(timeout.tv))
      modifies this, timeoutRead, timeoutWrite, timers, timers.events, timers.all`idx
      modifies timeoutRead.node`timeout, timeoutWrite.node`timeout, queue, queue.events
      ensures Valid() && OthersStay() && Queues(queued && b == Reactor, Wr)
      ensures code == Success && timeout.After? && o.attempt.InProgress? ==> ExpiresAt(Wr, now, timeout)
      ensures Started(Abs(), code, queued) ==
        var t, args := old(Abs()).(open := o.socket != NoSocket), Args(true, timeout.After?);
        if o.socket != GoodSocket || o.attempt.Refused? then Spec.ErrorExit(t, Wr, timeout.After?)
        else if b == Iocp then Spec.ConnectOverlapped(t, args, tok, old(EnvOf(o)))
        else Spec.ConnectReady(t, args, tok, old(EnvOf(o)))
    {
      if o.socket != GoodSocket || o.attempt.Refused? {
        queued := false;
        code := NoDial(o, timeout.After?);
      } else {
        code, queued := DialOn(b, tok, now, timeout, o);
      }
    }

    /** `nanoev_tcp_connect`. */
    method Connect(b: Backend, valid: bool, tok: Token, now: TimeVal, timeout: Timeout, o: Outcome)
      returns (code: Code, queued: bool)
      requires Valid() && queue.Valid() && Normal(now)
      modifies this, timeoutRead, timeoutWrite, timers, timers.events, timers.all`idx
      modifies timeoutRead.node`timeout, timeoutWrite.node`timeout, queue, queue.events
      ensures Valid() && OthersStay() && Queues(queued && b == Reactor, Wr)
      ensures code == Success && timeout.After? && o.attempt.InProgress? ==> ExpiresAt(Wr, now, timeout)
      ensures Started(Abs(), code, queued) == Spec.Connect(b, old(Abs()), ArgsOf(valid, timeout), tok, old(EnvOf(o)))
    {
      queued := false;
      if !valid || (timeout.After? && !Normal(timeout.tv)) {
        return InvalidArg, false;
      }
      if open {
        return AccessDenied, false;
      }
      code, queued := Dials(b, tok, now, timeout, o);
    }

    /** `nanoev_tcp_listen`. */
    method Listen(valid: bool, socket: SocketResult, register: bool, ready: bool) returns (code: Code)
      modifies this
      ensures Started(Abs(), code, false) == Spec.Listen(old(Abs()), valid, socket, register, ready)
    {
      if !valid {
        return InvalidArg;
      }
      if open {
        return AccessDenied;
      }
      code := ListenOn(socket, register, ready);
    }

    /** `listen` after its checks, field by field. */
    method ListenOn(socket: SocketResult, register: bool, ready: bool) returns (code: Code)
      modifies this`open, this`error, this`evWrite, this`listening
      ensures open == (socket != NoSocket)
      ensures code == (if socket == GoodSocket && register && ready then Success else Fail)
      ensures error == (old(error) || code == Fail) && listening == (old(listening) || code == Success)
      ensures evWrite == (old(evWrite) && !(socket == GoodSocket && register))
    {
      open := socket != NoSocket;
      if socket != GoodSocket || !register {
        error := true;
        return Fail;
      }
      evWrite := false;
      if !ready {
        error := true;
        return Fail;
      }
      listening := true;
      return Success;
    }

    // ---------- accept, write and read ----------

    method SetAccepted(hasSocket: bool)
      modifies this`ctxRead, this`data
      ensures Abs() == old(Abs()).(ctxRead := 0, data := AcceptData(hasSocket))
    {
      ctxRead := 0;
      data := AcceptData(hasSocket);
    }

    method KeepSocket(kept: bool)
      requires data == AcceptData(true)
      modifies this`data
      ensures Abs() == old(Abs()).(data := AcceptData(kept))
    {
      if !kept {
        data := AcceptData(false);
      }
    }

    /** A connection was waiting: its socket is stored, and taken back when the completion cannot be queued. */
    method SubmitAccepted(o: Outcome) returns (queued: bool)
      requires Valid() && queue.Valid()
      modifies this`ctxRead, this`data, queue, queue.events
      ensures Valid() && Queues(queued, Rd) && queued == old(EnvOf(o).submit)
      ensures Abs() == old(Abs()).(ctxRead := 0, data := AcceptData(queued))
    {
      SetAccepted(true);
      queued := SubmitFake(Rd, o);
      KeepSocket(queued);
    }

    method AcceptDone(tok: Token, takeBack: bool, o: Outcome) returns (code: Code, queued: bool)
      requires Valid() && queue.Valid()
      modifies this, timeoutRead, timeoutWrite, timers, timers.events, timers.all`idx, queue, queue.events
      ensures Valid() && OthersStay() && Queues(queued, Rd) && queued == old(EnvOf(o).submit)
      ensures Started(Abs(), code, queued) ==
        var t := old(Abs()).(ctxRead := 0, data := AcceptData(queued));
        if queued then Spec.Finish(t, Accepting, tok, false, true, true) else Spec.ErrorExit(t, Rd, takeBack)
    {
      queued := SubmitAccepted(o);
      code := Submitted(Accepting, tok, queued, takeBack);
    }

    method AcceptFound(tok: Token, takeBack: bool, o: Outcome) returns (code: Code, queued: bool)
      requires Valid() && queue.Valid() && data == AcceptData(false) && !o.attempt.InProgress?
      modifies this, timeoutRead, timeoutWrite, timers, timers.events, timers.all`idx, queue, queue.events
      ensures Valid() && OthersStay() && Queues(queued, Rd)
      ensures Started(Abs(), code, queued) == Spec.AcceptReady(old(Abs()), Args(true, takeBack), tok, old(EnvOf(o)))
    {
      ghost var t, e := Abs(), EnvOf(o);
      if o.socket != GoodSocket {
        queued := false;
        code := ErrorExit(Rd, takeBack);
      } else {
        code, queued := AcceptDone(tok, takeBack, o);
        AcceptOfWaiting(t, Args(true, takeBack), tok, e);
      }
    }

    method AcceptReady(tok: Token, now: TimeVal, timeout: Timeout, o: Outcome) returns (code: Code, queued: bool)
      requires Valid() && queue.Valid() && Normal(now) && (timeout.After? ==> Normal(timeout.tv))
      requires data == AcceptData(false)
      modifies this, timeoutRead, timeoutWrite, timers, timers.events, timers.all`idx
      modifies timeoutRead.node`timeout, timeoutWrite.node`timeout, queue, queue.events
      ensures Valid() && OthersStay() && Queues(queued, Rd)
      ensures code == Success && timeout.After? && o.attempt.InProgress? ==> ExpiresAt(Rd, now, timeout)
      ensures Started(Abs(), code, queued) ==
        Spec.AcceptReady(old(Abs()), Args(true, timeout.After?), tok, old(EnvOf(o)))
    {
      if o.attempt.InProgress? {
        queued := false;
        code := Finish(Accepting, tok, timeout.After?, now, timeout, o, false);
      } else {
        code, queued := AcceptFound(tok, timeout.After?, o);
      }
    }

    method AcceptOverlapped(tok: Token, now: TimeVal, timeout: Timeout, o: Outcome) returns (code: Code, queued: bool)
      requires Valid() && Normal(now) && (timeout.After? ==> Normal(timeout.tv))
      modifies this, timeoutRead, timeoutWrite, timers, timers.events, timers.all`idx
      modifies timeoutRead.node`timeout, timeoutWrite.node`timeout
      ensures Valid() && OthersStay()
      ensures code == Success && timeout.After? && o.attempt.InProgress? ==> ExpiresAt(Rd, now, timeout)
      ensures Started(Abs(), code, queued) ==
        Spec.AcceptOverlapped(old(Abs()), Args(true, timeout.After?), tok, old(EnvOf(o)))
    {
      queued := o.socket == GoodSocket;
      if o.socket != GoodSocket {
        code := ErrorExit(Rd, timeout.After?);
        return;
      }
      data := AcceptData(true);
      code := Finish(Accepting, tok, timeout.After? && o.attempt.InProgress?, now, timeout, o, true);
    }

    /** `accept` after its checks. */
    method AcceptChecked(b: Backend, tok: Token, now: TimeVal, timeout: Timeout, o: Outcome)
      returns (code: Code, queued: bool)
      requires Valid() && queue.Valid() && Normal(now) && (timeout.After? ==> Normal(timeout.tv))
      requires data == AcceptData(false)
      modifies this, timeoutRead, timeoutWrite, timers, timers.events, timers.all`idx
      modifies timeoutRead.node`timeout, timeoutWrite.node`timeout, queue, queue.events
      ensures Valid() && OthersStay() && Queues(queued && b == Reactor, Rd)
      ensures code == Success && timeout.After? && o.attempt.InProgress? ==> ExpiresAt(Rd, now, timeout)
      ensures Started(Abs(), code, queued) ==
        if o.attempt.Refused? then Spec.ErrorExit(old(Abs()), Rd, timeout.After?)
        else if b == Iocp then Spec.AcceptOverlapped(old(Abs()), Args(true, timeout.After?), tok, old(EnvOf(o)))
        else Spec.AcceptReady(old(Abs()), Args(true, timeout.After?), tok, old(EnvOf(o)))
    {
      queued := false;
      if o.attempt.Refused? {
        code := ErrorExit(Rd, timeout.After?);
      } else if b == Iocp {
        code, queued := AcceptOverlapped(tok, now, timeout, o);
      } else {
        code, queued := AcceptReady(tok, now, timeout, o);
      }
    }

    method AcceptOpen(b: Backend, tok: Token, now: TimeVal, timeout: Timeout, o: Outcome)
      returns (code: Code, queued: bool)
      requires Valid() && queue.Valid() && Normal(now) && (timeout.After? ==> Normal(timeout.tv))
      modifies this, timeoutRead, timeoutWrite, timers, timers.events, timers.all`idx
      modifies timeoutRead.node`timeout, timeoutWrite.node`timeout, queue, queue.events
      ensures Valid() && OthersStay() && Queues(queued && b == Reactor, Rd)
      ensures code == Success && timeout.After? && o.attempt.InProgress? ==> ExpiresAt(Rd, now, timeout)
      ensures Started(Abs(), code, queued) ==
        var t := old(Abs()).(data := AcceptData(false));
        if o.attempt.Refused? then Spec.ErrorExit(t, Rd, timeout.After?)
        else if b == Iocp then Spec.AcceptOverlapped(t, Args(true, timeout.After?), tok, old(EnvOf(o)))
        else Spec.AcceptReady(t, Args(true, timeout.After?), tok, old(EnvOf(o)))
    {
      HandOver();
      code, queued := AcceptChecked(b, tok, now, timeout, o);
    }

    /** `nanoev_tcp_accept`. */
    method Accept(b: Backend, valid: bool, tok: Token, now: TimeVal, timeout: Timeout, o: Outcome)
      returns (code: Code, queued: bool)
      requires Valid() && queue.Valid() && Normal(now)
      modifies this, timeoutRead, timeoutWrite, timers, timers.events, timers.all`idx
      modifies timeoutRead.node`timeout, timeoutWrite.node`timeout, queue, queue.events
      ensures Valid() && OthersStay() && Queues(queued && b == Reactor, Rd)
      ensures code == Success && timeout.After? && o.attempt.InProgress? ==> ExpiresAt(Rd, now, timeout)
      ensures Started(Abs(), code, queued) == Spec.Accept(b, old(Abs()), ArgsOf(valid, timeout), tok, old(EnvOf(o)))
    {
      if !valid || (timeout.After? && !Normal(timeout.tv)) {
        return InvalidArg, false;
      }
      if !open || error || deleted || !listening || reading {
        return AccessDenied, false;
      }
      code, queued := AcceptOpen(b, tok, now, timeout, o);
    }

    /** The buffer is noted and the context zeroed. */
    method PrepareRead(tok: Token)
      modifies this`data, this`ctxRead
      ensures Abs() == old(Abs()).(data := SetBuffer(old(data), Rd, tok), ctxRead := 0)
    {
      data := SetBuffer(data, Rd, tok);
      ctxRead := 0;
    }

    method PrepareWrite(tok: Token)
      modifies this`data, this`ctxWrite
      ensures Abs() == old(Abs()).(data := SetBuffer(old(data), Wr, tok), ctxWrite := 0)
    {
      data := SetBuffer(data, Wr, tok);
      ctxWrite := 0;
    }

    method WriteReady(tok: Token, now: TimeVal, timeout: Timeout, o: Outcome) returns (code: Code, queued: bool)
      requires Valid() && queue.Valid() && Normal(now) && (timeout.After? ==> Normal(timeout.tv)) && !o.attempt.Refused?
      modifies this, timeoutRead, timeoutWrite, timers, timers.events, timers.all`idx
      modifies timeoutRead.node`timeout, timeoutWrite.node`timeout, queue, queue.events
      ensures Valid() && OthersStay() && Queues(queued, Wr)
      ensures code == Success && timeout.After? && o.attempt.InProgress? ==> ExpiresAt(Wr, now, timeout)
      ensures Started(Abs(), code, queued) ==
        Spec.WriteReady(old(Abs()), Args(true, timeout.After?), tok, old(EnvOf(o)))
    {
      if o.attempt.Done? {
        code, queued := AtOnce(Writing, tok, o);
      } else {
        queued := false;
        code := Pending(Writing, tok, now, timeout, false, o);
      }
    }

    /** `write` after its checks. */
    method Writes(b: Backend, tok: Token, now: TimeVal, timeout: Timeout, o: Outcome) returns (code: Code, queued: bool)
      requires Valid() && queue.Valid() && Normal(now) && (timeout.After? ==> Normal(timeout.tv))
      modifies this, timeoutRead, timeoutWrite, timers, timers.events, timers.all`idx
      modifies timeoutRead.node`timeout, timeoutWrite.node`timeout, queue, queue.events
      ensures Valid() && OthersStay() && Queues(queued && b == Reactor, Wr)
      ensures code == Success && timeout.After? && o.attempt.InProgress? ==> ExpiresAt(Wr, now, timeout)
      ensures Started(Abs(), code, queued) ==
        if o.attempt.Refused? then Spec.ErrorExit(old(Abs()), Wr, false)
        else if b == Iocp
        then Spec.Finish(old(Abs()), Writing, tok, timeout.After? && o.attempt.InProgress?, old(HeapRoom(o)), true)
        else Spec.WriteReady(old(Abs()), Args(true, timeout.After?), tok, old(EnvOf(o)))
    {
      queued := false;
      if o.attempt.Refused? {
        code := ErrorExit(Wr, false);
      } else if b == Iocp {
        queued := true;
        code := Finish(Writing, tok, timeout.After? && o.attempt.InProgress?, now, timeout, o, true);
      } else {
        code, queued := WriteReady(tok, now, timeout, o);
      }
    }

    method WriteChecked(b: Backend, tok: Token, now: TimeVal, timeout: Timeout, o: Outcome)
      returns (code: Code, queued: bool)
      requires Valid() && queue.Valid() && Normal(now) && (timeout.After? ==> Normal(timeout.tv))
      modifies this, timeoutRead, timeoutWrite, timers, timers.events, timers.all`idx
      modifies timeoutRead.node`timeout, timeoutWrite.node`timeout, queue, queue.events
      ensures Valid() && OthersStay() && Queues(queued && b == Reactor, Wr)
      ensures code == Success && timeout.After? && o.attempt.InProgress? ==> ExpiresAt(Wr, now, timeout)
      ensures Started(Abs(), code, queued) ==
        var t := old(Abs()).(data := SetBuffer(old(data), Wr, tok), ctxWrite := 0);
        if o.attempt.Refused? then Spec.ErrorExit(t, Wr, false)
        else if b == Iocp
        then Spec.Finish(t, Writing, tok, timeout.After? && o.attempt.InProgress?, old(HeapRoom(o)), true)
        else Spec.WriteReady(t, Args(true, timeout.After?), tok, old(EnvOf(o)))
    {
      PrepareWrite(tok);
      code, queued := Writes(b, tok, now, timeout, o);
    }

    /** `nanoev_tcp_write`. */
    method Write(b: Backend, valid: bool, tok: Token, now: TimeVal, timeout: Timeout, o: Outcome)
      returns (code: Code, queued: bool)
      requires Valid() && queue.Valid() && Normal(now)
      modifies this, timeoutRead, timeoutWrite, timers, timers.events, timers.all`idx
      modifies timeoutRead.node`timeout, timeoutWrite.node`timeout, queue, queue.events
      ensures Valid() && OthersStay() && Queues(queued && b == Reactor, Wr)
      ensures code == Success && timeout.After? && o.attempt.InProgress? ==> ExpiresAt(Wr, now, timeout)
      ensures Started(Abs(), code, queued) == Spec.Write(b, old(Abs()), ArgsOf(valid, timeout), tok, old(EnvOf(o)))
    {
      if !valid || (timeout.After? && !Normal(timeout.tv)) {
        return InvalidArg, false;
      }
      if !open || error || deleted || !connected || writing {
        return AccessDenied, false;
      }
      code, queued := WriteChecked(b, tok, now, timeout, o);
    }

    method Reads(b: Backend, tok: Token, now: TimeVal, timeout: Timeout, o: Outcome) returns (code: Code, queued: bool)
      requires Valid() && Normal(now) && (timeout.After? ==> Normal(timeout.tv))
      modifies this, timeoutRead, timeoutWrite, timers, timers.events, timers.all`idx
      modifies timeoutRead.node`timeout, timeoutWrite.node`timeout
      ensures Valid() && OthersStay() && (code == Success && timeout.After? ==> ExpiresAt(Rd, now, timeout))
      ensures Started(Abs(), code, queued) ==
        if b == Iocp && o.attempt.Refused? then Spec.ErrorExit(old(Abs()), Rd, false)
        else Spec.Finish(old(Abs()), Reading, tok, timeout.After?, old(HeapRoom(o)), b == Iocp)
    {
      if b == Iocp && o.attempt.Refused? {
        queued := false;
        code := ErrorExit(Rd, false);
      } else {
        queued := b == Iocp;
        code := Finish(Reading, tok, timeout.After?, now, timeout, o, b == Iocp);
      }
    }

    method ReadChecked(b: Backend, tok: Token, now: TimeVal, timeout: Timeout, o: Outcome)
      returns (code: Code, queued: bool)
      requires Valid() && Normal(now) && (timeout.After? ==> Normal(timeout.tv))
      modifies this, timeoutRead, timeoutWrite, timers, timers.events, timers.all`idx
      modifies timeoutRead.node`timeout, timeoutWrite.node`timeout
      ensures Valid() && OthersStay() && (code == Success && timeout.After? ==> ExpiresAt(Rd, now, timeout))
      ensures Started(Abs(), code, queued) ==
        var t := old(Abs()).(data := SetBuffer(old(data), Rd, tok), ctxRead := 0);
        if b == Iocp && o.attempt.Refused? then Spec.ErrorExit(t, Rd, false)
        else Spec.Finish(t, Reading, tok, timeout.After?, old(HeapRoom(o)), b == Iocp)
    {
      PrepareRead(tok);
      code, queued := Reads(b, tok, now, timeout, o);
    }

    /** `nanoev_tcp_read`. */
    method Read(b: Backend, valid: bool, tok: Token, now: TimeVal, timeout: Timeout, o: Outcome)
      returns (code: Code, queued: bool)
      requires Valid() && Normal(now)
      modifies this, timeoutRead, timeoutWrite, timers, timers.events, timers.all`idx
      modifies timeoutRead.node`timeout, timeoutWrite.node`timeout
      ensures Valid() && OthersStay() && (code == Success && timeout.After? ==> ExpiresAt(Rd, now, timeout))
      ensures Started(Abs(), code, queued) == Spec.Read(b, old(Abs()), ArgsOf(valid, timeout), tok, old(EnvOf(o)))
    {
      queued := false;
      if !valid || (timeout.After? && !Normal(timeout.tv)) {
        return InvalidArg, false;
      }
      if !open || error || deleted || !connected || reading {
        return AccessDenied, false;
      }
      code, queued := ReadChecked(b, tok, now, timeout, o);
    }

    // ---------- operations end ----------

    /** Takes the callback of an operation out of its field. */
    method TakeCallback(k: Kind) returns (cb: Slot)
      modifies this`onConnect, this`onAccept, this`onRead, this`onWrite
      ensures cb == old(Abs()).Callback(k) && Abs() == WithoutCallback(old(Abs()), k)
    {
      match k {
        case Connecting => cb, onConnect := onConnect, Null;
        case Accepting => cb, onAccept := onAccept, Null;
        case Reading => cb, onRead := onRead, Null;
        case Writing => cb, onWrite := onWrite, Null;
      }
    }

    method SetFlag(d: Dir, on: bool)
      modifies this`reading, this`writing
      ensures Abs() == WithFlag(old(Abs()), d, on)
    {
      if d == Rd {
        reading := on;
      } else {
        writing := on;
      }
    }

    /** The pointer passed to a read or write callback. */
    method BufferFor(k: Kind) returns (buf: Slot)
      ensures buf == BufferOf(old(Abs()), k)
    {
      if !data.Buffers? {
        return Null;
      }
      return if k == Reading then data.rd else if k == Writing then data.wr else Null;
    }

    /** What a completion tells: its status, and whether write interest is still registered. */
    method Note(status: int, evWrite': bool)
      modifies this`evWrite, this`error
      ensures Abs() == old(Abs()).(evWrite := evWrite', error := old(Abs()).error || status != 0)
    {
      evWrite := evWrite';
      error := error || status != 0;
    }

    method TakeRead(k: Kind) returns (cb: Slot)
      requires DirOf(k) == Rd
      modifies this`reading, this`onAccept, this`onRead
      ensures cb == old(Abs()).Callback(k) && Abs() == WithoutCallback(old(Abs()).(reading := false), k)
    {
      reading := false;
      if k == Accepting {
        cb, onAccept := onAccept, Null;
      } else {
        cb, onRead := onRead, Null;
      }
    }

    method TakeWrite(k: Kind) returns (cb: Slot)
      requires DirOf(k) == Wr
      modifies this`writing, this`onConnect, this`onWrite
      ensures cb == old(Abs()).Callback(k) && Abs() == WithoutCallback(old(Abs()).(writing := false), k)
    {
      writing := false;
      if k == Connecting {
        cb, onConnect := onConnect, Null;
      } else {
        cb, onWrite := onWrite, Null;
      }
    }

    method TakeFlagAndCallback(k: Kind) returns (cb: Slot)
      modifies this`reading, this`writing, this`onConnect, this`onAccept, this`onRead, this`onWrite
      ensures cb == old(Abs()).Callback(k) && Abs() == WithoutCallback(WithFlag(old(Abs()), DirOf(k), false), k)
    {
      if DirOf(k) == Rd {
        cb := TakeRead(k);
      } else {
        cb := TakeWrite(k);
      }
    }

    /** The part of `tcp_proactor_callback` that is the same in its four branches. */
    method Clear(k: Kind, status: int, evWrite': bool) returns (cb: Slot)
      requires Valid()
      modifies this, timeoutRead, timeoutWrite, timers, timers.events, timers.all`idx
      ensures Valid() && OthersStay() && cb == old(Abs()).Callback(k)
      ensures Abs() == Spec.Cleared(old(Abs()), k, status, evWrite')
    {
      Note(status, evWrite');
      cb := TakeFlagAndCallback(k);
      TimeoutDel(DirOf(k));
    }

    method Establish(success: bool)
      modifies this`connected
      ensures Abs() == old(Abs()).(connected := old(connected) || success)
    {
      connected := connected || success;
    }

    method HandOver()
      modifies this`data
      ensures Abs() == old(Abs()).(data := AcceptData(false))
    {
      data := AcceptData(false);
    }

    /** Whether the callback runs, and with what. */
    method CallOf(cb: Slot, k: Kind, status: int, buf: Slot) returns (call: MaybeCall)
      ensures call == CallFor(Abs(), cb, k, status, buf)
    {
      return if cb.Of? && !deleted then Runs(Call(cb.tok, k, status, buf)) else NoCall;
    }

    method ConcludeIo(k: Kind, status: int, evWrite': bool) returns (call: MaybeCall)
      requires Valid() && (k == Reading || k == Writing)
      modifies this, timeoutRead, timeoutWrite, timers, timers.events, timers.all`idx
      ensures Valid() && OthersStay() && Delivered(Abs(), call, false) == Spec.Conclude(old(Abs()), k, status, evWrite')
    {
      var buf := BufferFor(k);
      var cb := Clear(k, status, evWrite');
      call := CallOf(cb, k, status, buf);
    }

    method ConcludeConnect(status: int, evWrite': bool) returns (call: MaybeCall)
      requires Valid()
      modifies this, timeoutRead, timeoutWrite, timers, timers.events, timers.all`idx
      ensures Valid() && OthersStay()
      ensures Delivered(Abs(), call, false) == Spec.Conclude(old(Abs()), Connecting, status, evWrite')
    {
      ConcludeOfConnect(Abs(), status, evWrite');
      var cb := Clear(Connecting, status, evWrite');
      call := CallOf(cb, Connecting, status, Null);
      Establish(call.Runs? && status == 0);
    }

    method ConcludeAccept(status: int, evWrite': bool) returns (call: MaybeCall)
      requires Valid()
      modifies this, timeoutRead, timeoutWrite, timers, timers.events, timers.all`idx
      ensures Valid() && OthersStay()
      ensures Delivered(Abs(), call, false) == Spec.Conclude(old(Abs()), Accepting, status, evWrite')
    {
      var cb := Clear(Accepting, status, evWrite');
      call := CallOf(cb, Accepting, status, Null);
      HandOver();
    }

    /** The completion found its flag cleared. */
    method Stale(status: int, evWrite': bool)
      modifies this`evWrite, this`error, this`data
      ensures Abs() == Spec.Stale(old(Abs()), status, evWrite')
    {
      evWrite := evWrite';
      error := error || status != 0;
      if !connected && listening {
        data := AcceptData(false);
      }
    }

    /** The branches of `tcp_proactor_callback`. */
    method Route(b: Backend, d: Dir, unregister: bool) returns (call: MaybeCall, stale: bool)
      requires Valid()
      modifies this, timeoutRead, timeoutWrite, timers, timers.events, timers.all`idx
      ensures Valid() && OthersStay() && Delivered(Abs(), call, stale) == Spec.Complete(b, old(Abs()), d, unregister)
    {
      var status := if d == Rd then ctxRead else ctxWrite;
      var evWrite' := evWrite && !(b == Reactor && d == Wr && unregister);
      call, stale := NoCall, false;
      if connected && (if d == Rd then reading else writing) {
        call := ConcludeIo(if d == Rd then Reading else Writing, status, evWrite');
      } else if !connected && listening && reading {
        call := ConcludeAccept(status, evWrite');
      } else if !connected && !listening && writing {
        call := ConcludeConnect(status, evWrite');
      } else {
        stale := true;
        Stale(status, evWrite');
      }
    }

    /** `tcp_proactor_callback` up to the user callback, which it ends with; `room`: an event can be had for an
        accepted connection. */
    method Complete(b: Backend, d: Dir, unregister: bool, room: bool) returns (call: MaybeCall, stale: bool)
      requires Valid()
      modifies this, timeoutRead, timeoutWrite, timers, timers.events, timers.all`idx
      ensures Valid() && OthersStay()
      ensures Delivered(Abs(), call, stale) == Allocated(Spec.Complete(b, old(Abs()), d, unregister), room)
    {
      call, stale := Route(b, d, unregister);
      if Accepts(call) && !room {
        call := Runs(call.call.(status := NO_MEMORY));
      }
    }

    /** Write interest is dropped if that works; the flag goes, or stays for the late completion. */
    method Withdraw(b: Backend, k: Kind, unregister: bool)
      modifies this`evWrite, this`reading, this`writing, this`open
      ensures Abs() ==
        var t := if b == Reactor && DirOf(k) == Wr && unregister then old(Abs()).(evWrite := false) else old(Abs());
        WithFlag(t, DirOf(k), b == Iocp).(open := false)
    {
      if b == Reactor && DirOf(k) == Wr && unregister {
        evWrite := false;
      }
      SetFlag(DirOf(k), b == Iocp);
      open := false;
    }

    method SetError()
      modifies this`error
      ensures Abs() == old(Abs()).(error := true)
    {
      error := true;
    }

    method CallbackIn(k: Kind) returns (cb: Slot)
      ensures cb == Abs().Callback(k)
    {
      match k
      case Connecting => return onConnect;
      case Accepting => return onAccept;
      case Reading => return onRead;
      case Writing => return onWrite;
    }

    method ExpirePending(b: Backend, k: Kind, unregister: bool)
      modifies this
      ensures Abs() ==
        var t := WithoutCallback(old(Abs()), k);
        var t := if b == Reactor && DirOf(k) == Wr && unregister then t.(evWrite := false) else t;
        WithFlag(t, DirOf(k), b == Iocp).(open := false)
    {
      var cb := TakeCallback(k);
      Withdraw(b, k, unregister);
    }

    method ExpireWith(b: Backend, k: Kind, unregister: bool, cb: Slot) returns (call: MaybeCall)
      requires cb.Of? && Abs().Callback(k) == cb
      modifies this
      ensures Delivered(Abs(), call, false) == Spec.Expire(b, old(Abs()), k, unregister)
    {
      var buf := BufferFor(k);
      SetError();
      ExpirePending(b, k, unregister);
      call := CallOf(cb, k, TIMED_OUT, buf);
    }

    /** The common end of both timeout callbacks. */
    method Expire(b: Backend, k: Kind, unregister: bool) returns (call: MaybeCall)
      modifies this
      ensures Delivered(Abs(), call, false) == Spec.Expire(b, old(Abs()), k, unregister)
    {
      var cb := CallbackIn(k);
      if cb.Null? {
        SetError();
        return NoCall;
      }
      call := ExpireWith(b, k, unregister, cb);
    }

    /** `tcp_timeout_read_callback` and `tcp_timeout_write_callback`, with the erasure of the node before. */
    method Timeout(b: Backend, d: Dir, unregister: bool) returns (call: MaybeCall)
      requires Valid()
      modifies this, timeoutRead, timeoutWrite, timers, timers.events, timers.all`idx
      ensures Valid() && OthersStay() && Delivered(Abs(), call, false) == Spec.Timeout(b, old(Abs()), d, unregister)
    {
      var op := if d == Rd then timeoutRead.op else timeoutWrite.op;
      TimeoutDel(d);
      if op.NoTimeout? || DirOf(op.kind) != d || !(if d == Rd then reading else writing) {
        return NoCall;
      }
      call := Expire(b, op.kind, unregister);
    }

    /** Both timeouts and the socket go. */
    method Close()
      requires Valid()
      modifies this`open, timeoutRead, timeoutWrite, timers, timers.events, timers.all`idx
      ensures Valid() && OthersStay() && Abs() == Spec.Disarm(Spec.Disarm(old(Abs()), Rd), Wr).(open := false)
    {
      TimeoutDel(Rd);
      TimeoutDel(Wr);
      SetOpen(false);
    }

    /** With an operation pending the event is only marked. */
    method CloseAndMark()
      requires Valid()
      modifies this`open, this`deleted, timeoutRead, timeoutWrite, timers, timers.events, timers.all`idx
      ensures Valid() && OthersStay()
      ensures Abs() == Spec.Disarm(Spec.Disarm(old(Abs()), Rd), Wr).(open := false, deleted := true)
    {
      Close();
      deleted := true;
    }

    /** `tcp_free`: `kept` tells that the memory stays until the operations end. */
    method Free() returns (kept: bool)
      requires Valid()
      modifies this, timeoutRead, timeoutWrite, timers, timers.events, timers.all`idx
      ensures Valid() && OthersStay() && !Abs().armedRead && !Abs().armedWrite
      ensures (kept <==> Spec.Free(old(Abs())).Kept?) && (kept ==> Abs() == Spec.Free(old(Abs())).tcp)
    {
      kept := reading || writing;
      if kept {
        CloseAndMark();
      } else {
        Close();
      }
    }

    /** `reactor_cb`: `filled` tells that a context is returned. */
    method Ready(d: Dir, r: Report) returns (filled: bool)
      modifies this`ctxRead, this`ctxWrite, this`data
      ensures Spec.Ready(old(Abs()), d, r) == (if filled then Filled(Abs()) else Nothing)
      ensures !filled ==> Abs() == old(Abs())
    {
      if d == Rd {
        if !reading || r.WouldBlock? {
          return false;
        }
        ctxRead := r.code;
        if !connected {
          data := AcceptData(r.code == 0);
        }
        return true;
      }
      if !writing || (connected && r.WouldBlock?) {
        return false;
      }
      ctxWrite := if r.Status? then r.code else 0;
      return true;
    }
  }
}
