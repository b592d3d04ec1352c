/** One TCP event: what the calls, completions, timeouts and `tcp_free` do to its fields. */
module TcpEvent {

  /** Readiness (epoll, kqueue) or completion ports. */
  datatype Backend = Reactor | Iocp

  datatype Dir = Rd | Wr

  datatype Kind = Connecting | Accepting | Reading | Writing

  datatype Code = Success | Fail | InvalidArg | AccessDenied

  function DirOf(k: Kind): Dir {
    match k
    case Accepting => Rd
    case Reading => Rd
    case Connecting => Wr
    case Writing => Wr
  }

  /** Identifies one accepted call: its callback, and the buffer passed with it. */
  type Token = nat

  /** A callback pointer or a buffer pointer, known by the call that set it. */
  datatype Slot = Null | Of(tok: Token)

  /** `nanoev_tcp_timeout_op`. */
  datatype TimeoutOp = NoTimeout | For(kind: Kind)

  /** The union of buffers and accept data, by the view last written; `hasSocket` tells
      whether `socket_accept` is a valid socket. */
  datatype Union = Zeroed | Buffers(rd: Slot, wr: Slot) | AcceptData(hasSocket: bool)

  /** `connected` to `deleted` are the flag bits, `opRead`/`opWrite` the operations of the two timeout
      nodes, `armedRead`/`armedWrite` whether these nodes are in the timer heap, `evWrite` whether
      write interest is registered, and `ctxRead`/`ctxWrite` the status of the two I/O contexts. */
  datatype Tcp = Tcp(
    open: bool, connected: bool, listening: bool, reading: bool, writing: bool, error: bool, deleted: bool,
    evWrite: bool, ctxRead: int, ctxWrite: int, data: Union,
    opRead: TimeoutOp, opWrite: TimeoutOp, armedRead: bool, armedWrite: bool,
    onConnect: Slot, onAccept: Slot, onRead: Slot, onWrite: Slot)
  {
    predicate Flag(d: Dir) {
      if d == Rd then reading else writing
    }

    predicate Armed(d: Dir) {
      if d == Rd then armedRead else armedWrite
    }

    function Callback(k: Kind): Slot {
      match k
      case Connecting => onConnect
      case Accepting => onAccept
      case Reading => onRead
      case Writing => onWrite
    }

    /** `buf_read.buf` and `buf_write.buf`, when the buffers are the view last written. */
    function Buffer(d: Dir): Slot {
      if !data.Buffers? then Null else if d == Rd then data.rd else data.wr
    }
  }

  /** `tcp_new`. */
  const FRESH := Tcp(false, false, false, false, false, false, false, false, 0, 0, Zeroed,
                     NoTimeout, NoTimeout, false, false, Null, Null, Null, Null)

  /** `tcp_alloc_client` on an accepted socket. */
  const CLIENT := FRESH.(open := true, connected := true)

  /** How the socket came out of `create_tcp_socket`. */
  datatype SocketResult = NoSocket | BadSocket | GoodSocket

  /** How the system call that starts the operation came out. */
  datatype Attempt = Refused | Done | InProgress

  /** The environment's answers during one call: the socket, the attempt, registering interest, queueing
      a completion, and inserting into the timer heap. */
  datatype Env = Env(socket: SocketResult, attempt: Attempt, register: bool, submit: bool, timer: bool)

  /** What the caller passed: arguments that pass the checks, and whether a timeout was given. */
  datatype Args = Args(valid: bool, timed: bool)

  /** `queued`: a completion is under way, in the poller's queue or as an overlapped operation. */
  datatype Started = Started(tcp: Tcp, code: Code, queued: bool)

  function Failed(t: Tcp): Tcp {
    t.(error := true)
  }

  /** `tcp_timeout_add`: refuses a node that is already armed, and then forgets the operation. */
  function Arm(t: Tcp, k: Kind, timer: bool): Tcp {
    if DirOf(k) == Rd
    then t.(opRead := if timer && !t.armedRead then For(k) else NoTimeout, armedRead := t.armedRead || timer)
    else t.(opWrite := if timer && !t.armedWrite then For(k) else NoTimeout, armedWrite := t.armedWrite || timer)
  }

  /** `tcp_timeout_del`. */
  function Disarm(t: Tcp, d: Dir): Tcp {
    if d == Rd then t.(opRead := NoTimeout, armedRead := false) else t.(opWrite := NoTimeout, armedWrite := false)
  }

  /** The end of a call whose operation is under way: arm the timeout if one is wanted, then set the flag
      and the callback. A timeout that cannot be armed fails the call. */
  function Finish(t: Tcp, k: Kind, tok: Token, wantTimer: bool, timer: bool, queued: bool): Started {
    if wantTimer && (t.Armed(DirOf(k)) || !timer) then
      ErrorExit(Arm(t, k, timer), DirOf(k), k == Connecting || k == Accepting).(queued := queued)
    else
      var t := if wantTimer then Arm(t, k, true) else t;
      match k
      case Connecting => Started(t.(writing := true, onConnect := Of(tok)), Success, queued)
      case Accepting => Started(t.(reading := true, onAccept := Of(tok)), Success, queued)
      case Reading => Started(t.(reading := true, onRead := Of(tok)), Success, queued)
      case Writing => Started(t.(writing := true, onWrite := Of(tok)), Success, queued)
  }

  /** The error exit of a call; `connect` and `accept` also take back a timeout that may be armed. */
  function ErrorExit(t: Tcp, d: Dir, timed: bool): Started {
    Started(Failed(if timed then Disarm(t, d) else t), Fail, false)
  }

  /** `connect` from the point where the socket call has not failed: with completion ports. */
  function ConnectOverlapped(t: Tcp, args: Args, tok: Token, e: Env): Started {
    if !e.register then ErrorExit(t, Wr, args.timed)
    else Finish(t, Connecting, tok, args.timed && e.attempt.InProgress?, e.timer, true)
  }

  /** The same with readiness: connected at once, or waiting to become writable. */
  function ConnectReady(t: Tcp, args: Args, tok: Token, e: Env): Started {
    if e.attempt.Done? then
      var t := t.(ctxWrite := 0);
      if e.submit then Finish(t, Connecting, tok, false, e.timer, true) else ErrorExit(t, Wr, false)
    else
      if e.register then Finish(t.(evWrite := true), Connecting, tok, args.timed, e.timer, false)
      else ErrorExit(t, Wr, args.timed)
  }

  /** `nanoev_tcp_connect`. */
  function Connect(b: Backend, t: Tcp, args: Args, tok: Token, e: Env): Started {
    if !args.valid then Started(t, InvalidArg, false)
    else if t.open then Started(t, AccessDenied, false)
    else
      var t := t.(open := e.socket != NoSocket);
      if e.socket != GoodSocket || e.attempt.Refused? then ErrorExit(t, Wr, args.timed)
      else if b == Iocp then ConnectOverlapped(t, args, tok, e) else ConnectReady(t, args, tok, e)
  }

  /** `nanoev_tcp_listen`. Registering read interest replaces whatever was registered; `ready` covers binding,
      listening and the address buffer. */
  function Listen(t: Tcp, valid: bool, socket: SocketResult, register: bool, ready: bool): Started {
    if !valid then Started(t, InvalidArg, false)
    else if t.open then Started(t, AccessDenied, false)
    else
      var t := t.(open := socket != NoSocket);
      if socket != GoodSocket || !register then Started(Failed(t), Fail, false)
      else
        var t := t.(evWrite := false);
        if ready then Started(t.(listening := true), Success, false) else Started(Failed(t), Fail, false)
  }

  /** `accept` after its checks, with readiness: a connection was waiting, or one is awaited. */
  function AcceptReady(t: Tcp, args: Args, tok: Token, e: Env): Started {
    if e.attempt.InProgress? then Finish(t, Accepting, tok, args.timed, e.timer, false)
    else if e.socket != GoodSocket then ErrorExit(t, Rd, args.timed)
    else
      var t := t.(ctxRead := 0);
      if e.submit then Finish(t.(data := AcceptData(true)), Accepting, tok, false, e.timer, true)
      else ErrorExit(t, Rd, args.timed)
  }

  /** The same with completion ports. */
  function AcceptOverlapped(t: Tcp, args: Args, tok: Token, e: Env): Started {
    if e.socket != GoodSocket then ErrorExit(t, Rd, args.timed)
    else Finish(t.(data := AcceptData(true)), Accepting, tok, args.timed && e.attempt.InProgress?, e.timer, true)
  }

  /** `nanoev_tcp_accept`. */
  function Accept(b: Backend, t: Tcp, args: Args, tok: Token, e: Env): Started {
    if !args.valid then Started(t, InvalidArg, false)
    else if !t.open || t.error || t.deleted || !t.listening || t.reading then Started(t, AccessDenied, false)
    else
      var t := t.(data := AcceptData(false));
      if e.attempt.Refused? then ErrorExit(t, Rd, args.timed)
      else if b == Iocp then AcceptOverlapped(t, args, tok, e) else AcceptReady(t, args, tok, e)
  }

  function SetBuffer(u: Union, d: Dir, tok: Token): Union {
    var u := if u.Buffers? then u else Buffers(Null, Null);
    if d == Rd then u.(rd := Of(tok)) else u.(wr := Of(tok))
  }

  /** `write` after its checks, with readiness: written at once, or waiting to become writable. */
  function WriteReady(t: Tcp, args: Args, tok: Token, e: Env): Started {
    if e.attempt.Done? then
      if e.submit then Finish(t, Writing, tok, false, e.timer, true) else ErrorExit(t, Wr, false)
    else
      if e.register then Finish(t.(evWrite := true), Writing, tok, args.timed, e.timer, false)
      else ErrorExit(t, Wr, false)
  }

  /** `nanoev_tcp_write`. */
  function Write(b: Backend, t: Tcp, args: Args, tok: Token, e: Env): Started {
    if !args.valid then Started(t, InvalidArg, false)
    else if !t.open || t.error || t.deleted || !t.connected || t.writing then Started(t, AccessDenied, false)
    else
      var t := t.(data := SetBuffer(t.data, Wr, tok), ctxWrite := 0);
      if e.attempt.Refused? then ErrorExit(t, Wr, false)
      else if b == Iocp then Finish(t, Writing, tok, args.timed && e.attempt.InProgress?, e.timer, true)
      else WriteReady(t, args, tok, e)
  }

  /** `nanoev_tcp_read`. Readiness backends only record the request. */
  function Read(b: Backend, t: Tcp, args: Args, tok: Token, e: Env): Started {
    if !args.valid then Started(t, InvalidArg, false)
    else if !t.open || t.error || t.deleted || !t.connected || t.reading then Started(t, AccessDenied, false)
    else
      var t := t.(data := SetBuffer(t.data, Rd, tok), ctxRead := 0);
      if b == Iocp && e.attempt.Refused? then ErrorExit(t, Rd, false)
      else Finish(t, Reading, tok, args.timed, e.timer, b == Iocp)
  }

  /** A user callback about to run: which operation, told which outcome, with which buffer. */
  datatype Call = Call(tok: Token, kind: Kind, status: int, buf: Slot)

  datatype MaybeCall = NoCall | Runs(call: Call)

  /** `stale`: the completion found its flag already cleared. */
  datatype Delivered = Delivered(tcp: Tcp, call: MaybeCall, stale: bool)

  function WithoutCallback(t: Tcp, k: Kind): Tcp {
    match k
    case Connecting => t.(onConnect := Null)
    case Accepting => t.(onAccept := Null)
    case Reading => t.(onRead := Null)
    case Writing => t.(onWrite := Null)
  }

  function WithFlag(t: Tcp, d: Dir, on: bool): Tcp {
    if d == Rd then t.(reading := on) else t.(writing := on)
  }

  function BufferOf(t: Tcp, k: Kind): Slot {
    if k == Reading then t.Buffer(Rd) else if k == Writing then t.Buffer(Wr) else Null
  }

  function CallFor(t: Tcp, cb: Slot, k: Kind, status: int, buf: Slot): MaybeCall {
    if cb.Of? && !t.deleted then Runs(Call(cb.tok, k, status, buf)) else NoCall
  }

  /** The flag, the callback and the timeout of operation `k` are cleared, and its status noted. */
  function Cleared(t: Tcp, k: Kind, status: int, evWrite: bool): Tcp {
    var t := t.(evWrite := evWrite, error := t.error || status != 0);
    Disarm(WithoutCallback(WithFlag(t, DirOf(k), false), k), DirOf(k))
  }

  /** Operation `k` is over; tells whether its callback runs. */
  function Conclude(t: Tcp, k: Kind, status: int, evWrite: bool): Delivered {
    var cb, buf, t := t.Callback(k), BufferOf(t, k), Cleared(t, k, status, evWrite);
    var call := CallFor(t, cb, k, status, buf);
    var t := if k == Accepting then t.(data := AcceptData(false))
             else if k == Connecting && call.Runs? && status == 0 then t.(connected := true) else t;
    Delivered(t, call, false)
  }

  /** The completion found its flag cleared. */
  function Stale(t: Tcp, status: int, evWrite: bool): Tcp {
    var t := t.(evWrite := evWrite, error := t.error || status != 0);
    if !t.connected && t.listening then t.(data := AcceptData(false)) else t
  }

  /** `tcp_proactor_callback` up to the user callback: the operation is told from the flags alone.
      `unregister` tells whether write interest, if registered, could be dropped. */
  function Complete(b: Backend, t: Tcp, d: Dir, unregister: bool): Delivered {
    var evWrite := t.evWrite && !(b == Reactor && d == Wr && unregister);
    var status := if d == Rd then t.ctxRead else t.ctxWrite;
    if t.connected && t.Flag(d) then Conclude(t, if d == Rd then Reading else Writing, status, evWrite)
    else if !t.connected && t.listening && t.reading then Conclude(t, Accepting, status, evWrite)
    else if !t.connected && !t.listening && t.writing then Conclude(t, Connecting, status, evWrite)
    else Delivered(Stale(t, status, evWrite), NoCall, true)
  }

  /** `ENOMEM`, as far as it is a nonzero status. */
  const NO_MEMORY := 12

  /** A connection was accepted. */
  predicate Accepts(c: MaybeCall) {
    c.Runs? && c.call.kind == Accepting && c.call.status == 0
  }

  /** Without room for its event the accept callback is told so. */
  function Allocated(r: Delivered, room: bool): Delivered {
    if Accepts(r.call) && !room then r.(call := Runs(r.call.call.(status := NO_MEMORY))) else r
  }

  /** `socket_timeout_error()`: some nonzero status. */
  const TIMED_OUT := 110

  /** The timeout of operation `k` fires while its flag is set: the event is closed and in error. With
      completion ports the flag stays until the late completion. */
  function Expire(b: Backend, t: Tcp, k: Kind, unregister: bool): Delivered {
    var cb, buf, t := t.Callback(k), BufferOf(t, k), t.(error := true);
    if cb.Null? then Delivered(t, NoCall, false)
    else
      var t := WithoutCallback(t, k);
      var t := if b == Reactor && DirOf(k) == Wr && unregister then t.(evWrite := false) else t;
      var t := WithFlag(t, DirOf(k), b == Iocp).(open := false);
      Delivered(t, CallFor(t, cb, k, TIMED_OUT, buf), false)
  }

  /** The node's operation is `k`: it expires if it is still pending. */
  function Fire(b: Backend, t: Tcp, k: Kind, unregister: bool): Delivered {
    if !t.Flag(DirOf(k)) then Delivered(t, NoCall, false) else Expire(b, t, k, unregister)
  }

  /** `tcp_timeout_read_callback` and `tcp_timeout_write_callback`, after the node has left the timer heap. */
  function Timeout(b: Backend, t: Tcp, d: Dir, unregister: bool): Delivered {
    var op, t := if d == Rd then t.opRead else t.opWrite, Disarm(t, d);
    if op.NoTimeout? || DirOf(op.kind) != d then Delivered(t, NoCall, false) else Fire(b, t, op.kind, unregister)
  }

  datatype Remains = Released | Kept(tcp: Tcp)

  /** `tcp_free`: what remains of the event, or nothing when its memory is given back at once. */
  function Free(t: Tcp): Remains {
    var t := Disarm(Disarm(t, Rd), Wr).(open := false);
    if t.reading || t.writing then Kept(t.(deleted := true)) else Released
  }

  /** What the kernel answers when asked to perform a ready operation. */
  datatype Report = WouldBlock | Status(code: int)

  datatype Performed = Nothing | Filled(tcp: Tcp)

  /** `reactor_cb`: the event with its context filled in, or nothing. */
  function Ready(t: Tcp, d: Dir, r: Report): Performed {
    if !t.Flag(d) then Nothing
    else if d == Rd then
      if r.WouldBlock? then Nothing
      else if t.connected then Filled(t.(ctxRead := r.code))
      else Filled(t.(ctxRead := r.code, data := AcceptData(r.code == 0)))
    else
      if t.connected && r.WouldBlock? then Nothing
      else Filled(t.(ctxWrite := if r.Status? then r.code else 0))
  }
}
