/** What every step keeps of a single TCP event. */
module TcpInvariant {
  import opened TcpEvent
  import opened TcpOutcomes

  /** An event that no call has touched yet, as far as its operations go. */
  predicate Unused(t: Tcp) {
    !t.connected && !t.listening && !t.reading && !t.writing && !t.evWrite
  }

  /** The flags tell which operation is pending in which direction. */
  predicate FlagsOk(b: Backend, t: Tcp) {
    && !(t.connected && t.listening)
    && (!t.open && !t.error && !t.deleted ==> Unused(t))
    && (t.reading ==> t.connected || t.listening)
    && (t.listening ==> !t.writing)
    && (t.onRead.Of? ==> t.connected && t.reading)
    && (t.onAccept.Of? ==> t.listening && t.reading)
    && (t.onWrite.Of? ==> t.connected && t.writing)
    && (t.onConnect.Of? ==> !t.connected && !t.listening && t.writing)
    && (b == Reactor && t.reading ==> t.onRead.Of? || t.onAccept.Of?)
    && (b == Reactor && t.writing ==> t.onWrite.Of? || t.onConnect.Of?)
    && (t.evWrite ==> b == Reactor)
  }

  /** An armed timeout belongs to the operation now pending in its direction. */
  predicate TimeoutsOk(t: Tcp) {
    && (t.armedRead <==> t.opRead.For?)
    && (t.armedWrite <==> t.opWrite.For?)
    && (t.opRead.For? ==> DirOf(t.opRead.kind) == Rd && t.reading && t.Callback(t.opRead.kind).Of?)
    && (t.opWrite.For? ==> DirOf(t.opWrite.kind) == Wr && t.writing && t.Callback(t.opWrite.kind).Of?)
    && (t.deleted ==> !t.armedRead && !t.armedWrite && !t.open)
  }

  /** The union is only read through the view last written, and holds the pending operation's buffer. */
  predicate DataOk(b: Backend, t: Tcp) {
    && (t.onRead.Of? ==> t.Buffer(Rd) == t.onRead)
    && (t.onWrite.Of? ==> t.Buffer(Wr) == t.onWrite)
    && (t.connected ==> !t.data.AcceptData?)
    && (t.listening ==> !t.data.Buffers?)
    && (!t.connected && !t.listening ==> t.data.Zeroed?)
    && (t.listening && t.reading ==> t.data.AcceptData?)
    && (b == Iocp && t.listening && t.reading ==> t.data.hasSocket)
  }

  predicate TcpOk(b: Backend, t: Tcp) {
    FlagsOk(b, t) && TimeoutsOk(t) && DataOk(b, t)
  }

  /** A pending completion for an accept that succeeded carries a socket. */
  predicate AcceptedOk(t: Tcp, d: Dir) {
    d == Rd && t.listening && t.ctxRead == 0 ==> t.data.AcceptData? && t.data.hasSocket
  }

  /** Nothing about the other direction has changed. */
  predicate OthersKept(t: Tcp, t': Tcp, d: Dir) {
    if d == Rd then
      t'.writing == t.writing && t'.armedWrite == t.armedWrite && t'.onConnect == t.onConnect && t'.onWrite == t.onWrite
    else
      && t'.reading == t.reading && t'.armedRead == t.armedRead && t'.onAccept == t.onAccept && t'.onRead == t.onRead
      && t'.ctxRead == t.ctxRead && t'.listening == t.listening && (t.data.AcceptData? ==> t'.data == t.data)
  }

  /** The other operation of the same direction. */
  function Sibling(k: Kind): Kind {
    match k
    case Connecting => Writing
    case Writing => Connecting
    case Accepting => Reading
    case Reading => Accepting
  }

  /** What a call that may start operation `k` does. On success exactly that operation is pending, with
      its own callback; otherwise nothing is pending that was not. A completion is under way only
      for a pending operation without a timeout (always, with completion ports). */
  predicate StartsOnly(b: Backend, t: Tcp, r: Started, k: Kind, tok: Token) {
    var t', d := r.tcp, DirOf(k);
    && t'.deleted == t.deleted && OthersKept(t, t', d)
    && (r.code == Success ==> !t.deleted && !t.Flag(d) && t'.Flag(d) && t'.Callback(k) == Of(tok))
    && (r.code != Success ==> t'.Flag(d) == t.Flag(d) && t'.Callback(k) == t.Callback(k) && !r.queued)
    && (r.code != Success && t.Flag(d) ==> t' == t)
    && t'.Callback(Sibling(k)) == t.Callback(Sibling(k))
    && (r.queued ==> r.code == Success && AcceptedOk(t', d) && (b == Reactor ==> !t'.Armed(d)))
    && (b == Iocp ==> (r.queued <==> r.code == Success))
    && StartsApart(t, r, d) && (k != Connecting ==> t'.open == t.open)
  }

  /** A call that fails puts the event in error and no other does; what the event is does not change, nor the status
      of its other direction. */
  predicate StartsApart(t: Tcp, r: Started, d: Dir) {
    && (r.tcp.error <==> t.error || r.code == Fail)
    && r.tcp.connected == t.connected && r.tcp.listening == t.listening
    && Context(r.tcp, Other(d)) == Context(t, Other(d))
  }

  /** A closed event may be connected only while no flag is set on it and no interest registered. */
  predicate MayOpen(t: Tcp) {
    t.open || Unused(t)
  }

  /** It may be made to listen unless it was connected or a connection attempt is still pending. */
  predicate MayListen(t: Tcp) {
    t.open || (!t.connected && !t.writing)
  }

  /** What a client may rely on and must respect: no call on a freed event, no connection attempt on a
      event that was closed while in use, and (with completion ports) memory for the timeout. */
  predicate MayStart(b: Backend, t: Tcp, k: Kind, e: Env) {
    !t.deleted && (k == Connecting ==> MayOpen(t)) && (b == Iocp ==> e.timer)
  }

  /** `t` is `t0` after the system call of operation `k`, before the flag and the callback are set. */
  predicate Prepared(b: Backend, t0: Tcp, t: Tcp, k: Kind, tok: Token) {
    && TcpOk(b, t0) && !t0.deleted && !t0.Flag(DirOf(k)) && (k != Connecting ==> t0.open)
    && t == t0.(open := true, evWrite := t.evWrite, ctxRead := t.ctxRead, ctxWrite := t.ctxWrite, data := t.data)
    && (DirOf(k) == Rd ==> t.evWrite == t0.evWrite) && (t.evWrite ==> b == Reactor)
    && (DirOf(k) == Wr ==> t.ctxRead == t0.ctxRead) && (DirOf(k) == Rd ==> t.ctxWrite == t0.ctxWrite)
    && match k
       case Connecting => Unused(t0) && t.data == t0.data
       case Accepting => t0.listening && t.data.AcceptData? && (b == Iocp ==> t.data.hasSocket)
       case Reading => t0.connected && t.data == SetBuffer(t0.data, Rd, tok)
       case Writing => t0.connected && t.data == SetBuffer(t0.data, Wr, tok)
  }

  lemma FinishRefused(b: Backend, t0: Tcp, t: Tcp, k: Kind, tok: Token, queued: bool)
    requires Prepared(b, t0, t, k, tok) && b == Reactor && !queued
    ensures var r := Finish(t, k, tok, true, false, queued);
      r.code == Fail && r.tcp.open && TcpOk(b, r.tcp) && StartsOnly(b, t0, r, k, tok)
  {
  }

  lemma FinishGranted(b: Backend, t0: Tcp, t: Tcp, k: Kind, tok: Token, wantTimer: bool, queued: bool)
    requires Prepared(b, t0, t, k, tok) && (b == Iocp ==> queued)
    requires b == Reactor && queued ==> !wantTimer && AcceptedOk(t, DirOf(k))
    ensures var r := Finish(t, k, tok, wantTimer, true, queued);
      r.code == Success && r.tcp.open && TcpOk(b, r.tcp) && StartsOnly(b, t0, r, k, tok)
  {
    assert !t.Armed(DirOf(k));
    match k
    case Connecting =>
    case Accepting =>
    case Reading =>
    case Writing =>
  }

  lemma FinishKeepsOk(b: Backend, t0: Tcp, t: Tcp, k: Kind, tok: Token, wantTimer: bool, timer: bool, queued: bool)
    requires Prepared(b, t0, t, k, tok) && (b == Iocp ==> timer && queued)
    requires b == Reactor && queued ==> !wantTimer && AcceptedOk(t, DirOf(k))
    ensures var r := Finish(t, k, tok, wantTimer, timer, queued);
      r.tcp.open && TcpOk(b, r.tcp) && StartsOnly(b, t0, r, k, tok)
  {
    if wantTimer && !timer {
      FinishRefused(b, t0, t, k, tok, queued);
    } else {
      FinishGranted(b, t0, t, k, tok, wantTimer, queued);
    }
  }

  lemma ConnectRefused(b: Backend, t0: Tcp, t: Tcp, tok: Token, timed: bool)
    requires TcpOk(b, t0) && !t0.deleted && Unused(t0) && t == t0.(open := t.open, ctxWrite := t.ctxWrite)
    ensures var r := ErrorExit(t, Wr, timed);
      r.tcp.open == t.open && TcpOk(b, r.tcp) && StartsOnly(b, t0, r, Connecting, tok)
  {
  }

  lemma ConnectReadyKeepsOk(t: Tcp, args: Args, tok: Token, e: Env)
    requires TcpOk(Reactor, t) && !t.deleted && Unused(t) && !e.attempt.Refused?
    ensures var r := ConnectReady(t.(open := true), args, tok, e);
      r.tcp.open && TcpOk(Reactor, r.tcp) && StartsOnly(Reactor, t, r, Connecting, tok)
  {
    var p := t.(open := true);
    if e.attempt.Done? {
      p := p.(ctxWrite := 0);
      if e.submit {
        FinishKeepsOk(Reactor, t, p, Connecting, tok, false, e.timer, true);
      } else {
        ConnectRefused(Reactor, t, p, tok, false);
      }
    } else if e.register {
      FinishKeepsOk(Reactor, t, p.(evWrite := true), Connecting, tok, args.timed, e.timer, false);
    } else {
      ConnectRefused(Reactor, t, p, tok, args.timed);
    }
  }

  lemma ConnectKeepsOk(b: Backend, t: Tcp, args: Args, tok: Token, e: Env)
    requires TcpOk(b, t) && MayStart(b, t, Connecting, e)
    ensures var r := Connect(b, t, args, tok, e);
      && TcpOk(b, r.tcp) && StartsOnly(b, t, r, Connecting, tok)
      && (Admitted(t, Connecting, args) ==> (r.tcp.open <==> e.socket != NoSocket))
  {
    if args.valid && !t.open {
      var p := t.(open := e.socket != NoSocket);
      if e.socket != GoodSocket || e.attempt.Refused? || (b == Iocp && !e.register) {
        ConnectRefused(b, t, p, tok, args.timed);
      } else if b == Iocp {
        FinishKeepsOk(b, t, p, Connecting, tok, args.timed && e.attempt.InProgress?, e.timer, true);
      } else {
        ConnectReadyKeepsOk(t, args, tok, e);
      }
    }
  }

  lemma AcceptKeepsOk(b: Backend, t: Tcp, args: Args, tok: Token, e: Env)
    requires TcpOk(b, t) && MayStart(b, t, Accepting, e)
    ensures var r := Accept(b, t, args, tok, e); TcpOk(b, r.tcp) && StartsOnly(b, t, r, Accepting, tok)
  {
    if t.open && !t.error && t.listening && !t.reading && !e.attempt.Refused? {
      var immediate := b == Reactor && e.attempt.Done?;
      var p := t.(data := AcceptData(b == Iocp || immediate), ctxRead := if immediate then 0 else t.ctxRead);
      FinishKeepsOk(b, t, p, Accepting, tok, args.timed && e.attempt.InProgress?, e.timer, b == Iocp || immediate);
    }
  }

  lemma ReadKeepsOk(b: Backend, t: Tcp, args: Args, tok: Token, e: Env)
    requires TcpOk(b, t) && MayStart(b, t, Reading, e)
    ensures var r := Read(b, t, args, tok, e); TcpOk(b, r.tcp) && StartsOnly(b, t, r, Reading, tok)
  {
    if t.open && !t.error && t.connected && !t.reading {
      var p := t.(data := SetBuffer(t.data, Rd, tok), ctxRead := 0);
      FinishKeepsOk(b, t, p, Reading, tok, args.timed, e.timer, b == Iocp);
    }
  }

  /** A write that passes its checks and is not refused. */
  lemma WriteStarts(b: Backend, t: Tcp, args: Args, tok: Token, e: Env)
    requires TcpOk(b, t) && MayStart(b, t, Writing, e) && Admitted(t, Writing, args) && !e.attempt.Refused?
    requires b == Reactor ==> if e.attempt.Done? then e.submit else e.register
    ensures var r := Write(b, t, args, tok, e); TcpOk(b, r.tcp) && StartsOnly(b, t, r, Writing, tok)
  {
    var immediate := b == Reactor && e.attempt.Done?;
    var p := t.(data := SetBuffer(t.data, Wr, tok), ctxWrite := 0);
    p := if b == Reactor && e.attempt.InProgress? then p.(evWrite := true) else p;
    FinishKeepsOk(b, t, p, Writing, tok, args.timed && e.attempt.InProgress?, e.timer, b == Iocp || immediate);
  }

  lemma WriteFails(b: Backend, t: Tcp, args: Args, tok: Token, e: Env)
    requires TcpOk(b, t) && MayStart(b, t, Writing, e) && Admitted(t, Writing, args)
    requires e.attempt.Refused? || (b == Reactor && !if e.attempt.Done? then e.submit else e.register)
    ensures var r := Write(b, t, args, tok, e); TcpOk(b, r.tcp) && StartsOnly(b, t, r, Writing, tok)
  {
  }

  lemma WriteKeepsOk(b: Backend, t: Tcp, args: Args, tok: Token, e: Env)
    requires TcpOk(b, t) && MayStart(b, t, Writing, e)
    ensures var r := Write(b, t, args, tok, e); TcpOk(b, r.tcp) && StartsOnly(b, t, r, Writing, tok)
  {
    if Admitted(t, Writing, args) {
      if e.attempt.Refused? || (b == Reactor && !if e.attempt.Done? then e.submit else e.register) {
        WriteFails(b, t, args, tok, e);
      } else {
        WriteStarts(b, t, args, tok, e);
      }
    }
  }

  /** Every call that may be made keeps the event in order, starts at most what it says, and returns the code it
      should. */
  lemma StartKeepsOk(b: Backend, t: Tcp, k: Kind, args: Args, tok: Token, e: Env)
    requires TcpOk(b, t) && MayStart(b, t, k, e)
    ensures var r := Start(b, t, k, args, tok, e);
      TcpOk(b, r.tcp) && StartsOnly(b, t, r, k, tok) && StartIs(b, t, k, args, tok, e, r)
  {
    CallIs(b, t, k, args, tok, e);
    match k
    case Connecting => ConnectKeepsOk(b, t, args, tok, e);
    case Accepting => AcceptKeepsOk(b, t, args, tok, e);
    case Reading => ReadKeepsOk(b, t, args, tok, e);
    case Writing => WriteKeepsOk(b, t, args, tok, e);
  }

  /** The pending operation of direction `d` is over; its callback runs with its own buffer, unless it
      has run already or the event is freed. */
  predicate Concludes(t: Tcp, r: Delivered, d: Dir, flagAfter: bool) {
    var t', k := r.tcp, PendingKind(t, d);
    && !r.stale && t'.deleted == t.deleted && OthersKept(t, t', d)
    && t'.Flag(d) == flagAfter && t'.Callback(k) == Null && t'.Callback(Sibling(k)) == t.Callback(Sibling(k))
    && (r.call.Runs? <==> t.Callback(k).Of? && !t.deleted)
    && (r.call.Runs? ==> r.call.call.kind == k && Of(r.call.call.tok) == t.Callback(k)
                         && (k == Reading || k == Writing ==> r.call.call.buf == Of(r.call.call.tok)))
  }

  lemma ConcludeKeepsOk(b: Backend, t: Tcp, k: Kind, status: int, evWrite: bool)
    requires TcpOk(b, t) && t.Flag(DirOf(k)) && k == PendingKind(t, DirOf(k))
    requires evWrite ==> t.evWrite
    ensures var r := Conclude(t, k, status, evWrite);
      TcpOk(b, r.tcp) && Concludes(t, r, DirOf(k), false) && (r.call.Runs? ==> r.call.call.status == status)
  {
    match k
    case Connecting =>
    case Accepting =>
    case Reading =>
    case Writing =>
  }

  /** A completion whose flag is set is never stale and is routed to the operation that was started; a failed one puts
      the event in error. */
  lemma CompleteKeepsOk(b: Backend, t: Tcp, d: Dir, unregister: bool)
    requires TcpOk(b, t) && t.Flag(d)
    ensures var r := Complete(b, t, d, unregister);
      && TcpOk(b, r.tcp) && Concludes(t, r, d, false)
      && Completes(t, PendingKind(t, d), Context(t, d), InterestLeft(b, t, d, unregister), r)
  {
    ConcludeKeepsOk(b, t, PendingKind(t, d), Context(t, d), InterestLeft(b, t, d, unregister));
    CompleteIs(b, t, d, unregister);
  }

  /** The operation is over by timeout: the event is closed and in error. */
  predicate TimesOut(b: Backend, t: Tcp, r: Delivered, d: Dir) {
    && TcpOk(b, r.tcp) && Concludes(t, r, d, b == Iocp)
    && r.call.Runs? && r.call.call.status == TIMED_OUT && r.tcp.error && !r.tcp.open
  }

  lemma ExpireKeepsOk(b: Backend, t: Tcp, k: Kind, unregister: bool)
    requires TcpOk(b, t) && !t.deleted && !t.Armed(DirOf(k)) && t.Flag(DirOf(k)) && t.Callback(k).Of?
    ensures TimesOut(b, t, Expire(b, t, k, unregister), DirOf(k))
  {
    match k
    case Connecting =>
    case Accepting =>
    case Reading =>
    case Writing =>
  }

  /** A timeout that fires ends the pending operation; with completion ports its flag stays until the
      late completion arrives. */
  lemma TimeoutKeepsOk(b: Backend, t: Tcp, d: Dir, unregister: bool)
    requires TcpOk(b, t) && t.Armed(d)
    ensures TimesOut(b, t, Timeout(b, t, d, unregister), d)
  {
    ExpireKeepsOk(b, Disarm(t, d), (if d == Rd then t.opRead else t.opWrite).kind, unregister);
  }

  /** And changes nothing else. */
  lemma TimeoutLeaves(b: Backend, t: Tcp, d: Dir, unregister: bool)
    requires TcpOk(b, t) && t.Armed(d)
    ensures Expires(b, Disarm(t, d), d, unregister, Timeout(b, t, d, unregister).tcp)
  {
    TimeoutIs(b, t, d, unregister);
  }

  /** Freeing keeps an event with a pending operation for later, and gives back any other at once. */
  lemma FreeKeepsOk(b: Backend, t: Tcp)
    requires TcpOk(b, t)
    ensures Free(t).Kept? <==> t.reading || t.writing
    ensures Free(t).Kept? ==>
      var t' := Free(t).tcp;
      && TcpOk(b, t') && t'.deleted && !t'.open
      && t' == t.(deleted := true, open := false, opRead := NoTimeout, opWrite := NoTimeout,
                  armedRead := false, armedWrite := false)
  {
  }

  /** Performing a ready operation only fills in the context of the operation that is pending, with what the kernel
      answered. */
  lemma ReadyKeepsOk(t: Tcp, d: Dir, r: Report)
    requires TcpOk(Reactor, t) && Ready(t, d, r).Filled?
    ensures var t' := Ready(t, d, r).tcp;
      && TcpOk(Reactor, t') && AcceptedOk(t', d) && t.Flag(d) && Answers(t, d, r)
      && Context(t', d) == Answer(r) && Context(t', Other(d)) == Context(t, Other(d))
      && t' == t.(ctxRead := t'.ctxRead, ctxWrite := t'.ctxWrite, data := t'.data)
      && (d == Wr ==> t'.ctxRead == t.ctxRead && t'.data == t.data)
  {
  }

  /** An overlapped operation is started. */
  predicate StartsOverlapped(k: Kind, e: Env) {
    && !e.attempt.Refused?
    && (k == Connecting ==> e.socket == GoodSocket && e.register)
    && (k == Accepting ==> e.socket == GoodSocket)
  }

  /** A call that leaves a completion under way also succeeds, and so is tracked by a flag, with one
      exception: with completion ports, when the timeout of an operation already started cannot be armed. */
  lemma CompletionIsTrackedIff(b: Backend, t: Tcp, k: Kind, args: Args, tok: Token, e: Env)
    requires TcpOk(b, t) && !t.deleted && (k == Connecting ==> MayOpen(t))
    ensures var r := Start(b, t, k, args, tok, e);
      (r.queued ==> r.code == Success && r.tcp.Flag(DirOf(k))) <==>
      !(b == Iocp && Admitted(t, k, args) && StartsOverlapped(k, e) && WantsTimer(k, args, e) && !e.timer)
  {
    if b == Reactor || e.timer {
      StartKeepsOk(b, t, k, args, tok, e);
    }
  }

  /** The connection attempt meets its assertion, keeps the event in order and starts only itself. */
  predicate ConnectIsSound(b: Backend, t: Tcp, args: Args, tok: Token, e: Env) {
    var r := Connect(b, t, args, tok, e);
    (!t.open ==> !t.evWrite) && TcpOk(b, r.tcp) && StartsOnly(b, t, r, Connecting, tok)
  }

  /** `nanoev_tcp_connect` does not look at the flags. On any event that is not freed it is sound exactly when
      the event is open (and the call refused), or no flag is set and no write interest registered. */
  lemma ConnectIsSoundIff(b: Backend, t: Tcp)
    requires TcpOk(b, t) && !t.deleted
    ensures (forall args, tok, e: Env | e.timer :: ConnectIsSound(b, t, args, tok, e)) <==> MayOpen(t)
  {
    var plain, works := Args(true, false), Env(GoodSocket, Done, true, true, true);
    if MayOpen(t) {
      forall args, tok, e: Env | e.timer ensures ConnectIsSound(b, t, args, tok, e) {
        ConnectKeepsOk(b, t, args, tok, e);
      }
    } else {
      assert !ConnectIsSound(b, t, plain, 0, works);
    }
  }

  /** Only what `nanoev_tcp_listen` is about has changed. */
  predicate ListensOnly(t: Tcp, r: Started) {
    && r.tcp == t.(open := r.tcp.open, listening := r.tcp.listening, error := r.tcp.error, evWrite := r.tcp.evWrite)
    && (r.tcp.evWrite ==> t.evWrite)
    && (r.code == Success ==> r.tcp.listening && r.tcp.open) && (r.tcp.listening != t.listening ==> !t.reading)
  }

  predicate ListenIsSound(b: Backend, t: Tcp, valid: bool, socket: SocketResult, register: bool, ready: bool) {
    var r := Listen(t, valid, socket, register, ready);
    TcpOk(b, r.tcp) && ListensOnly(t, r)
  }

  /** `nanoev_tcp_listen` looks at no flag either. On any event that is not freed it is sound exactly when the
      event is open (and the call refused), or neither connected nor still connecting. */
  lemma ListenIsSoundIff(b: Backend, t: Tcp)
    requires TcpOk(b, t) && !t.deleted
    ensures (forall valid, socket, register, ready :: ListenIsSound(b, t, valid, socket, register, ready)) <==>
      MayListen(t)
  {
    if MayListen(t) {
      forall valid, socket, register, ready ensures ListenIsSound(b, t, valid, socket, register, ready) {
        ListenKeepsOk(b, t, valid, socket, register, ready);
      }
    } else {
      assert !ListenIsSound(b, t, true, GoodSocket, true, true);
    }
  }

  lemma ListenKeepsOk(b: Backend, t: Tcp, valid: bool, socket: SocketResult, register: bool, ready: bool)
    requires TcpOk(b, t) && !t.deleted && MayListen(t)
    ensures ListenIsSound(b, t, valid, socket, register, ready)
  {
  }

  /** What goes wrong otherwise: after a read timed out while a write was pending, a new connection attempt
      is accepted and its completion runs the callback of the old write. */
  lemma ReconnectRunsOldWriteCallback(t: Tcp, tok: Token)
    requires TcpOk(Reactor, t) && !t.open && !t.deleted && t.connected && t.writing
    ensures var r := Connect(Reactor, t, Args(true, false), tok, Env(GoodSocket, Done, true, true, true));
      && r.code == Success && r.queued
      && var c := Complete(Reactor, r.tcp, Wr, true).call;
         c.Runs? && c.call.kind == Writing && Of(c.call.tok) == t.onWrite
  {
  }
}
