/** What each call, completion, timeout and report means for one TCP event, apart from how it is computed. */
module TcpOutcomes {
  import opened TcpEvent

  function Start(b: Backend, t: Tcp, k: Kind, args: Args, tok: Token, e: Env): Started {
    match k
    case Connecting => Connect(b, t, args, tok, e)
    case Accepting => Accept(b, t, args, tok, e)
    case Reading => Read(b, t, args, tok, e)
    case Writing => Write(b, t, args, tok, e)
  }

  /** The call passes its checks. */
  predicate Admitted(t: Tcp, k: Kind, args: Args) {
    args.valid && match k
      case Connecting => !t.open
      case Accepting => t.open && !t.error && !t.deleted && t.listening && !t.reading
      case Reading => t.open && !t.error && !t.deleted && t.connected && !t.reading
      case Writing => t.open && !t.error && !t.deleted && t.connected && !t.writing
  }

  /** Only a pending operation (and every read) gets a timeout. */
  predicate WantsTimer(k: Kind, args: Args, e: Env) {
    args.timed && (k == Reading || e.attempt.InProgress?)
  }

  /** The system call is over at once, and a readiness backend queues the completion itself. */
  predicate AtOnce(b: Backend, k: Kind, e: Env) {
    b == Reactor && k != Reading && e.attempt.Done?
  }

  /** The operation waits until the socket is writable. */
  predicate AwaitsWritable(b: Backend, k: Kind, e: Env) {
    b == Reactor && DirOf(k) == Wr && e.attempt.InProgress?
  }

  /** The call needs a socket of its own: for the connection, or for the one it accepts. */
  predicate NeedsSocket(b: Backend, k: Kind, e: Env) {
    k == Connecting || (k == Accepting && (b == Iocp || e.attempt.Done?))
  }

  /** The environment gives an admitted call all it needs: a system call that is not refused (a readiness backend
      makes none to read), a socket, a registration, a place in the queue, a timeout. */
  predicate Works(b: Backend, t: Tcp, k: Kind, args: Args, e: Env) {
    && (e.attempt.Refused? ==> b == Reactor && k == Reading)
    && (NeedsSocket(b, k, e) ==> e.socket == GoodSocket)
    && (AwaitsWritable(b, k, e) || (b == Iocp && k == Connecting) ==> e.register)
    && (AtOnce(b, k, e) ==> e.submit)
    && (WantsTimer(k, args, e) ==> e.timer && !t.Armed(DirOf(k)))
  }

  function Context(t: Tcp, d: Dir): int {
    if d == Rd then t.ctxRead else t.ctxWrite
  }

  function TimeoutOf(t: Tcp, d: Dir): TimeoutOp {
    if d == Rd then t.opRead else t.opWrite
  }

  function Other(d: Dir): Dir {
    if d == Rd then Wr else Rd
  }

  /** Which code a call returns: exactly when it is refused for its arguments or for the state of the event, and
      exactly when it succeeds. */
  predicate CodeIs(b: Backend, t: Tcp, k: Kind, args: Args, e: Env, code: Code) {
    && (code == InvalidArg <==> !args.valid)
    && (code == AccessDenied <==> args.valid && !Admitted(t, k, args))
    && (code == Success <==> Admitted(t, k, args) && Works(b, t, k, args, e))
  }

  /** What a call that succeeds leaves behind: the event open, its operation noted, the timeout armed if one is
      wanted, and a completion under way with completion ports and for what was over at once. */
  predicate Starts(b: Backend, t: Tcp, k: Kind, args: Args, tok: Token, e: Env, r: Started) {
    var t', d := r.tcp, DirOf(k);
    && t'.open && t'.Flag(d) && t'.Callback(k) == Of(tok)
    && (r.queued <==> b == Iocp || AtOnce(b, k, e))
    && (t'.evWrite <==> t.evWrite || AwaitsWritable(b, k, e))
    && (AtOnce(b, k, e) || k == Reading || k == Writing ==> Context(t', d) == 0)
    && (if WantsTimer(k, args, e) then t'.Armed(d) && TimeoutOf(t', d) == For(k)
        else t'.Armed(d) == t.Armed(d) && TimeoutOf(t', d) == TimeoutOf(t, d))
    && (k == Reading || k == Writing ==> t'.Buffer(d) == Of(tok))
    && (k == Accepting ==> t'.data == AcceptData(NeedsSocket(b, k, e)))
    && (k == Connecting ==> t'.data == t.data)
  }

  /** Nothing of the other direction changes, and neither does its status. */
  predicate OtherDirectionStays(t: Tcp, t': Tcp, d: Dir) {
    var o := Other(d);
    && t'.Flag(o) == t.Flag(o) && t'.Armed(o) == t.Armed(o) && TimeoutOf(t', o) == TimeoutOf(t, o)
    && Context(t', o) == Context(t, o)
  }

  /** What a call returns and leaves behind, whatever the state of the event and the answers of the environment; a
      refused call changes nothing. */
  predicate StartIs(b: Backend, t: Tcp, k: Kind, args: Args, tok: Token, e: Env, r: Started) {
    && CodeIs(b, t, k, args, e, r.code)
    && (r.code == Success ==> Starts(b, t, k, args, tok, e, r))
    && (r.code == InvalidArg || r.code == AccessDenied ==> r.tcp == t && !r.queued)
  }

  /** The code of `Finish`, and of a connection attempt on each of its paths. */
  lemma FinishCode(t: Tcp, k: Kind, tok: Token, wantTimer: bool, timer: bool, queued: bool)
    ensures var r := Finish(t, k, tok, wantTimer, timer, queued);
      r.code == if wantTimer && (t.Armed(DirOf(k)) || !timer) then Fail else Success
  {
  }

  lemma ConnectOverlappedCode(t: Tcp, args: Args, tok: Token, e: Env)
    requires Admitted(t, Connecting, args) && e.socket == GoodSocket && !e.attempt.Refused?
    ensures CodeIs(Iocp, t, Connecting, args, e, Connect(Iocp, t, args, tok, e).code)
  {
    FinishCode(t.(open := true), Connecting, tok, args.timed && e.attempt.InProgress?, e.timer, true);
  }

  lemma ConnectWaitsCode(t: Tcp, args: Args, tok: Token, e: Env)
    requires Admitted(t, Connecting, args) && e.socket == GoodSocket && e.attempt.InProgress?
    ensures CodeIs(Reactor, t, Connecting, args, e, Connect(Reactor, t, args, tok, e).code)
  {
    if args.timed {
    } else {
    }
  }

  lemma ConnectCode(b: Backend, t: Tcp, args: Args, tok: Token, e: Env)
    ensures var r := Connect(b, t, args, tok, e);
      && CodeIs(b, t, Connecting, args, e, r.code)
      && (r.code == InvalidArg || r.code == AccessDenied ==> r.tcp == t && !r.queued)
  {
    if Admitted(t, Connecting, args) && e.socket == GoodSocket && !e.attempt.Refused? {
      if b == Iocp {
        ConnectOverlappedCode(t, args, tok, e);
      } else if e.attempt.InProgress? {
        ConnectWaitsCode(t, args, tok, e);
      }
    }
  }

  lemma ConnectTimedStarts(b: Backend, t: Tcp, args: Args, tok: Token, e: Env)
    requires Connect(b, t, args, tok, e).code == Success && args.timed && e.attempt.InProgress?
    ensures Starts(b, t, Connecting, args, tok, e, Connect(b, t, args, tok, e))
  {
  }

  lemma ConnectUntimedStarts(b: Backend, t: Tcp, args: Args, tok: Token, e: Env)
    requires Connect(b, t, args, tok, e).code == Success && !args.timed && e.attempt.InProgress?
    ensures Starts(b, t, Connecting, args, tok, e, Connect(b, t, args, tok, e))
  {
  }

  lemma ConnectDoneStarts(b: Backend, t: Tcp, args: Args, tok: Token, e: Env)
    requires Connect(b, t, args, tok, e).code == Success && e.attempt.Done?
    ensures Starts(b, t, Connecting, args, tok, e, Connect(b, t, args, tok, e))
  {
    match b
    case Iocp =>
      assert Connect(Iocp, t, args, tok, e) == ConnectOverlapped(t.(open := true), args, tok, e);
    case Reactor =>
      assert Connect(Reactor, t, args, tok, e) == ConnectReady(t.(open := true), args, tok, e);
  }

  lemma ConnectStarts(b: Backend, t: Tcp, args: Args, tok: Token, e: Env)
    requires Connect(b, t, args, tok, e).code == Success
    ensures Starts(b, t, Connecting, args, tok, e, Connect(b, t, args, tok, e))
  {
    ConnectCode(b, t, args, tok, e);
    if e.attempt.Done? {
      ConnectDoneStarts(b, t, args, tok, e);
    } else if args.timed {
      ConnectTimedStarts(b, t, args, tok, e);
    } else {
      ConnectUntimedStarts(b, t, args, tok, e);
    }
  }

  lemma AcceptCode(b: Backend, t: Tcp, args: Args, tok: Token, e: Env)
    ensures var r := Accept(b, t, args, tok, e);
      && CodeIs(b, t, Accepting, args, e, r.code)
      && (r.code == InvalidArg || r.code == AccessDenied ==> r.tcp == t && !r.queued)
  {
  }

  lemma AcceptStarts(b: Backend, t: Tcp, args: Args, tok: Token, e: Env)
    requires Accept(b, t, args, tok, e).code == Success
    ensures Starts(b, t, Accepting, args, tok, e, Accept(b, t, args, tok, e))
  {
  }

  lemma ReadCode(b: Backend, t: Tcp, args: Args, tok: Token, e: Env)
    ensures var r := Read(b, t, args, tok, e);
      && CodeIs(b, t, Reading, args, e, r.code)
      && (r.code == InvalidArg || r.code == AccessDenied ==> r.tcp == t && !r.queued)
  {
  }

  lemma ReadStarts(b: Backend, t: Tcp, args: Args, tok: Token, e: Env)
    requires Read(b, t, args, tok, e).code == Success
    ensures Starts(b, t, Reading, args, tok, e, Read(b, t, args, tok, e))
  {
  }

  lemma WriteCode(b: Backend, t: Tcp, args: Args, tok: Token, e: Env)
    ensures var r := Write(b, t, args, tok, e);
      && CodeIs(b, t, Writing, args, e, r.code)
      && (r.code == InvalidArg || r.code == AccessDenied ==> r.tcp == t && !r.queued)
  {
  }

  lemma WriteStarts(b: Backend, t: Tcp, args: Args, tok: Token, e: Env)
    requires Write(b, t, args, tok, e).code == Success
    ensures Starts(b, t, Writing, args, tok, e, Write(b, t, args, tok, e))
  {
  }

  lemma StartCode(b: Backend, t: Tcp, k: Kind, args: Args, tok: Token, e: Env)
    ensures var r := Start(b, t, k, args, tok, e);
      && CodeIs(b, t, k, args, e, r.code)
      && (r.code == InvalidArg || r.code == AccessDenied ==> r.tcp == t && !r.queued)
  {
    match k
    case Connecting => ConnectCode(b, t, args, tok, e);
    case Accepting => AcceptCode(b, t, args, tok, e);
    case Reading => ReadCode(b, t, args, tok, e);
    case Writing => WriteCode(b, t, args, tok, e);
  }

  lemma StartStarts(b: Backend, t: Tcp, k: Kind, args: Args, tok: Token, e: Env)
    requires Start(b, t, k, args, tok, e).code == Success
    ensures Starts(b, t, k, args, tok, e, Start(b, t, k, args, tok, e))
  {
    match k
    case Connecting => ConnectStarts(b, t, args, tok, e);
    case Accepting => AcceptStarts(b, t, args, tok, e);
    case Reading => ReadStarts(b, t, args, tok, e);
    case Writing => WriteStarts(b, t, args, tok, e);
  }

  lemma CallIs(b: Backend, t: Tcp, k: Kind, args: Args, tok: Token, e: Env)
    ensures StartIs(b, t, k, args, tok, e, Start(b, t, k, args, tok, e))
  {
    StartCode(b, t, k, args, tok, e);
    if Start(b, t, k, args, tok, e).code == Success {
      StartStarts(b, t, k, args, tok, e);
    }
  }

  /** The error exit of a call that may have armed its timeout leaves none behind. */
  lemma ErrorExitDisarms(t: Tcp, d: Dir, timed: bool)
    ensures var r := ErrorExit(t, d, timed);
      && r.code == Fail && r.tcp.error && !r.queued
      && (timed ==> !r.tcp.Armed(d) && TimeoutOf(r.tcp, d).NoTimeout?)
      && (!timed ==> r.tcp == t.(error := true))
  {
  }

  /** `nanoev_tcp_listen`: each code exactly, and the event in error exactly when the call fails. */
  lemma ListenIs(t: Tcp, valid: bool, socket: SocketResult, register: bool, ready: bool)
    ensures var r := Listen(t, valid, socket, register, ready);
      && (r.code == InvalidArg <==> !valid)
      && (r.code == AccessDenied <==> valid && t.open)
      && (r.code == Success <==> valid && !t.open && socket == GoodSocket && register && ready)
      && (r.code == InvalidArg || r.code == AccessDenied ==> r.tcp == t)
      && (r.tcp.error <==> t.error || r.code == Fail) && !r.queued
      && (valid && !t.open ==> (r.tcp.open <==> socket != NoSocket))
      && (r.tcp.listening <==> t.listening || r.code == Success)
      && (r.tcp.evWrite <==> t.evWrite && !(valid && !t.open && socket == GoodSocket && register))
      && r.tcp == t.(open := r.tcp.open, error := r.tcp.error, listening := r.tcp.listening, evWrite := r.tcp.evWrite)
  {
  }

  /** The operation that the flags say is pending in a direction. */
  function PendingKind(t: Tcp, d: Dir): Kind {
    if d == Rd then (if t.connected then Reading else Accepting) else (if t.connected then Writing else Connecting)
  }

  /** The flags tell a single operation in direction `d`. */
  predicate Routable(t: Tcp, d: Dir) {
    t.Flag(d) && (!t.connected ==> (t.listening <==> d == Rd))
  }

  /** Operation `k` is over: its flag, callback and timeout are gone, and the other direction is as it was. */
  predicate Ends(t: Tcp, k: Kind, t': Tcp) {
    var d := DirOf(k);
    && !t'.Flag(d) && !t'.Armed(d) && TimeoutOf(t', d).NoTimeout? && t'.Callback(k) == Null
    && Context(t', d) == Context(t, d) && OtherDirectionStays(t, t', d)
  }

  /** What the completion of operation `k` means: the event is in error exactly if it was or the status tells a
      failure, and connected exactly if it was or a successful connection attempt is reported to the user. */
  predicate Means(t: Tcp, k: Kind, status: int, evWrite: bool, r: Delivered) {
    && !r.stale && (r.tcp.error <==> t.error || status != 0) && r.tcp.evWrite == evWrite
    && (r.tcp.connected <==> t.connected || (k == Connecting && r.call.Runs? && status == 0))
    && r.tcp.open == t.open && r.tcp.listening == t.listening && r.tcp.deleted == t.deleted
    && r.tcp.data == (if k == Accepting then AcceptData(false) else t.data)
  }

  /** Its callback runs with its status, unless it has run already or the event is freed. */
  predicate Reports(t: Tcp, k: Kind, status: int, c: MaybeCall) {
    && (c.Runs? <==> t.Callback(k).Of? && !t.deleted)
    && (c.Runs? ==> c.call.status == status && c.call.kind == k && t.Callback(k) == Of(c.call.tok))
  }

  predicate Completes(t: Tcp, k: Kind, status: int, evWrite: bool, r: Delivered) {
    Ends(t, k, r.tcp) && Means(t, k, status, evWrite, r) && Reports(t, k, status, r.call)
  }

  lemma ConcludeEnds(t: Tcp, k: Kind, status: int, evWrite: bool)
    ensures Ends(t, k, Conclude(t, k, status, evWrite).tcp)
  {
    match k
    case Connecting =>
    case Accepting =>
    case Reading =>
    case Writing =>
  }

  lemma ConnectingMeans(t: Tcp, status: int, evWrite: bool)
    ensures Means(t, Connecting, status, evWrite, Conclude(t, Connecting, status, evWrite))
  {
  }

  lemma AcceptingMeans(t: Tcp, status: int, evWrite: bool)
    ensures Means(t, Accepting, status, evWrite, Conclude(t, Accepting, status, evWrite))
  {
  }

  lemma ReadingMeans(t: Tcp, status: int, evWrite: bool)
    ensures Means(t, Reading, status, evWrite, Conclude(t, Reading, status, evWrite))
  {
  }

  lemma WritingMeans(t: Tcp, status: int, evWrite: bool)
    ensures Means(t, Writing, status, evWrite, Conclude(t, Writing, status, evWrite))
  {
  }

  lemma ConcludeMeans(t: Tcp, k: Kind, status: int, evWrite: bool)
    ensures Means(t, k, status, evWrite, Conclude(t, k, status, evWrite))
  {
    match k
    case Connecting => ConnectingMeans(t, status, evWrite);
    case Accepting => AcceptingMeans(t, status, evWrite);
    case Reading => ReadingMeans(t, status, evWrite);
    case Writing => WritingMeans(t, status, evWrite);
  }

  lemma ConcludeReports(t: Tcp, k: Kind, status: int, evWrite: bool)
    ensures Reports(t, k, status, Conclude(t, k, status, evWrite).call)
  {
  }

  lemma ConcludeIs(t: Tcp, k: Kind, status: int, evWrite: bool)
    ensures Completes(t, k, status, evWrite, Conclude(t, k, status, evWrite))
  {
    ConcludeEnds(t, k, status, evWrite);
    ConcludeMeans(t, k, status, evWrite);
    ConcludeReports(t, k, status, evWrite);
  }

  /** Write interest after a completion or timeout in direction `d`. */
  predicate InterestLeft(b: Backend, t: Tcp, d: Dir, unregister: bool) {
    t.evWrite && !(b == Reactor && d == Wr && unregister)
  }

  /** A completion that finds its flag set ends the operation pending in its direction, with the status of its
      context. */
  lemma CompleteIs(b: Backend, t: Tcp, d: Dir, unregister: bool)
    requires Routable(t, d)
    ensures Completes(t, PendingKind(t, d), Context(t, d), InterestLeft(b, t, d, unregister),
                      Complete(b, t, d, unregister))
  {
    ConcludeIs(t, PendingKind(t, d), Context(t, d), InterestLeft(b, t, d, unregister));
  }

  /** The flag of the operation that the completion would be routed to is cleared. */
  predicate FindsNothing(t: Tcp, d: Dir) {
    if t.connected then !t.Flag(d) else if t.listening then !t.reading else !t.writing
  }

  /** Exactly then a completion is stale: it runs no callback, its status still puts the event in error, and a socket
      accepted too late is given up. */
  lemma StaleIs(b: Backend, t: Tcp, d: Dir, unregister: bool)
    ensures var r := Complete(b, t, d, unregister);
      && (r.stale <==> FindsNothing(t, d))
      && (r.stale ==> r.call == NoCall && r.tcp == t.(
            evWrite := InterestLeft(b, t, d, unregister), error := t.error || Context(t, d) != 0,
            data := if t.listening && !t.connected then AcceptData(false) else t.data))
  {
  }

  /** What a timeout that fires leaves behind: the event closed and in error, with the flag kept only by completion
      ports, and all else as it was. */
  predicate Expires(b: Backend, t: Tcp, d: Dir, unregister: bool, t': Tcp) {
    Closes(b, t, d, unregister, t') && AllElseStays(t, d, t')
  }

  predicate Closes(b: Backend, t: Tcp, d: Dir, unregister: bool, t': Tcp) {
    t'.error && !t'.open && t'.Flag(d) == (b == Iocp) && t'.evWrite == InterestLeft(b, t, d, unregister)
  }

  predicate AllElseStays(t: Tcp, d: Dir, t': Tcp) {
    && t'.connected == t.connected && t'.listening == t.listening && t'.deleted == t.deleted && t'.data == t.data
    && t'.Armed(d) == t.Armed(d) && Context(t', d) == Context(t, d) && OtherDirectionStays(t, t', d)
  }

  lemma ExpireConnecting(b: Backend, t: Tcp, unregister: bool)
    requires t.Callback(Connecting).Of?
    ensures Closes(b, t, Wr, unregister, Expire(b, t, Connecting, unregister).tcp)
  {
  }

  lemma ExpireConnectingStays(b: Backend, t: Tcp, unregister: bool)
    requires t.Callback(Connecting).Of?
    ensures AllElseStays(t, Wr, Expire(b, t, Connecting, unregister).tcp)
  {
  }

  lemma ExpireAccepting(b: Backend, t: Tcp, unregister: bool)
    requires t.Callback(Accepting).Of?
    ensures Closes(b, t, Rd, unregister, Expire(b, t, Accepting, unregister).tcp)
  {
  }

  lemma ExpireAcceptingStays(b: Backend, t: Tcp, unregister: bool)
    requires t.Callback(Accepting).Of?
    ensures AllElseStays(t, Rd, Expire(b, t, Accepting, unregister).tcp)
  {
  }

  lemma ExpireReading(b: Backend, t: Tcp, unregister: bool)
    requires t.Callback(Reading).Of?
    ensures Closes(b, t, Rd, unregister, Expire(b, t, Reading, unregister).tcp)
  {
  }

  lemma ExpireReadingStays(b: Backend, t: Tcp, unregister: bool)
    requires t.Callback(Reading).Of?
    ensures AllElseStays(t, Rd, Expire(b, t, Reading, unregister).tcp)
  {
  }

  lemma ExpireWriting(b: Backend, t: Tcp, unregister: bool)
    requires t.Callback(Writing).Of?
    ensures Closes(b, t, Wr, unregister, Expire(b, t, Writing, unregister).tcp)
  {
  }

  lemma ExpireWritingStays(b: Backend, t: Tcp, unregister: bool)
    requires t.Callback(Writing).Of?
    ensures AllElseStays(t, Wr, Expire(b, t, Writing, unregister).tcp)
  {
  }

  lemma ExpireIs(b: Backend, t: Tcp, k: Kind, unregister: bool)
    requires t.Callback(k).Of?
    ensures Expires(b, t, DirOf(k), unregister, Expire(b, t, k, unregister).tcp)
  {
    match k
    case Connecting =>
      ExpireConnecting(b, t, unregister);
      ExpireConnectingStays(b, t, unregister);
    case Accepting =>
      ExpireAccepting(b, t, unregister);
      ExpireAcceptingStays(b, t, unregister);
    case Reading =>
      ExpireReading(b, t, unregister);
      ExpireReadingStays(b, t, unregister);
    case Writing =>
      ExpireWriting(b, t, unregister);
      ExpireWritingStays(b, t, unregister);
  }

  /** The node's timeout is for a pending operation whose callback is still to run. */
  predicate Expirable(t: Tcp, d: Dir) {
    && t.Flag(d) && TimeoutOf(t, d).For? && DirOf(TimeoutOf(t, d).kind) == d
    && t.Callback(TimeoutOf(t, d).kind).Of?
  }

  lemma TimeoutIs(b: Backend, t: Tcp, d: Dir, unregister: bool)
    requires Expirable(t, d)
    ensures Expires(b, Disarm(t, d), d, unregister, Timeout(b, t, d, unregister).tcp)
  {
    ExpireIs(b, Disarm(t, d), TimeoutOf(t, d).kind, unregister);
  }

  /** The kernel has an answer for a pending operation: anything but that it would block, which nobody asks about a
      connection attempt. */
  predicate Answers(t: Tcp, d: Dir, r: Report) {
    t.Flag(d) && (r.Status? || (d == Wr && !t.connected))
  }

  function Answer(r: Report): int {
    if r.Status? then r.code else 0
  }

  /** A context is filled exactly when there is an answer, with that answer; an accept also takes its socket exactly
      if it succeeded. */
  lemma ReadyIs(t: Tcp, d: Dir, r: Report)
    ensures Ready(t, d, r).Filled? <==> Answers(t, d, r)
    ensures Answers(t, d, r) ==>
      var t' := Ready(t, d, r).tcp;
      && Context(t', d) == Answer(r) && Context(t', Other(d)) == Context(t, Other(d))
      && t'.data == (if d == Rd && !t.connected then AcceptData(Answer(r) == 0) else t.data)
      && t' == t.(ctxRead := t'.ctxRead, ctxWrite := t'.ctxWrite, data := t'.data)
  {
  }

  /** The status a callback is told: that of the operation, unless an accepted connection gets no event. */
  function Told(t: Tcp, d: Dir, room: bool): int {
    if PendingKind(t, d) == Accepting && Context(t, d) == 0 && !room then NO_MEMORY else Context(t, d)
  }

  /** A connection without room for its event fails for the caller and leaves the listener as it is. */
  lemma NoRoomIs(b: Backend, t: Tcp, d: Dir, unregister: bool)
    requires Routable(t, d)
    ensures var r := Complete(b, t, d, unregister); var a := Allocated(r, false);
      && a.tcp == r.tcp && !Accepts(a.call) && (a.call.Runs? <==> r.call.Runs?)
      && (a.call.Runs? ==> a.call.call.status == Told(t, d, false))
  {
    CompleteIs(b, t, d, unregister);
  }
}
