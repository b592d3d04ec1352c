/** Whole runs of the echo exchange. */
module EchoTheorems {
  import opened Protocol
  import opened Echo
  import opened EchoSafety

  ghost predicate IsRun(w: Net, size: U32, limit: U32, steps: seq<Step>)
    decreases |steps|
  {
    steps == [] || (Enabled(w, steps[0]) && IsRun(Apply(w, size, limit, steps[0]), size, limit, steps[1..]))
  }

  ghost function After(w: Net, size: U32, limit: U32, steps: seq<Step>): Net
    requires IsRun(w, size, limit, steps)
    decreases |steps|
  {
    if steps == [] then w else After(Apply(w, size, limit, steps[0]), size, limit, steps[1..])
  }

  /** What the client has sent is a prefix of the stream of frames; so is all that is on its way or echoed. */
  lemma SentIsFrames(w: Net, size: U32, limit: U32)
    requires Inv(w, size, limit)
    ensures w.clientOut <= Frames(size, w.k + 1) && w.serverOut <= w.serverIn <= w.clientOut
    ensures w.clientIn <= w.serverOut
  {
    var f := Frame(size, w.j);
    assert f[..w.server.progress] <= f;
    assert Frames(size, w.j) <= Frames(size, w.j + 1);
  }

  lemma ClientWritesKeeps(w: Net, size: U32, limit: U32, n: nat)
    requires Inv(w, size, limit) && ClientCanGive(w.client, n)
    ensures Inv(Apply(w, size, limit, ClientWrites(n)), size, limit)
  {
    ClientWriteKeeps(w.client, size, w.k, w.clientOut, w.clientIn, n);
    Extended(w.clientOut, w.serverIn, w.up, ClientOut(w.client, n));
  }

  lemma NextIsFrames(w: Net, size: U32, limit: U32, n: nat)
    requires Inv(w, size, limit) && n <= |w.down|
    ensures w.clientIn + w.down[..n] <= Frames(size, w.k + 1)
  {
    SentIsFrames(w, size, limit);
    Consumed(w.serverOut, w.clientIn, w.down, n);
  }

  lemma ClientHalfKeeps(w: Net, size: U32, limit: U32, n: nat)
    requires Inv(w, size, limit) && n <= |w.down| && ClientCanTake(w.client, n)
    ensures var c' := ClientOnRead(w.client, size, w.down[..n]);
      && ClientOk(c', size, if c'.phase == Write then w.k + 1 else w.k, w.clientOut, w.clientIn + w.down[..n])
      && (size == 0 ==> c'.phase != Write)
  {
    NextIsFrames(w, size, limit, n);
    ClientReadKeeps(w.client, size, w.k, w.clientOut, w.clientIn, w.k + 1, w.down[..n]);
  }

  lemma ClientMoves(w: Net, size: U32, limit: U32, c: Client, k: nat, in_: seq<Byte>, down: seq<Byte>)
    requires Inv(w, size, limit) && ClientOk(c, size, k, w.clientOut, in_)
    requires w.serverOut == in_ + down && (size == 0 ==> k == 0)
    ensures Inv(w.(client := c, down := down, clientIn := in_, k := k), size, limit)
  {
  }

  lemma ClientReadsKeeps(w: Net, size: U32, limit: U32, n: nat)
    requires Inv(w, size, limit) && n <= |w.down| && ClientCanTake(w.client, n)
    ensures Inv(Apply(w, size, limit, ClientReads(n)), size, limit)
  {
    ClientHalfKeeps(w, size, limit, n);
    Consumed(w.serverOut, w.clientIn, w.down, n);
    var c' := ClientOnRead(w.client, size, w.down[..n]);
    ClientMoves(w, size, limit, c', if c'.phase == Write then w.k + 1 else w.k, w.clientIn + w.down[..n], w.down[n..]);
  }

  lemma ServerReadsKeeps(w: Net, size: U32, limit: U32, n: nat)
    requires Inv(w, size, limit) && n <= |w.up| && ServerCanTake(w.server, n)
    ensures Inv(Apply(w, size, limit, ServerReads(n)), size, limit)
  {
    SentIsFrames(w, size, limit);
    Consumed(w.clientOut, w.serverIn, w.up, n);
    EchoSafety.ServerReadKeeps(w.server, size, limit, w.j, w.serverIn, w.serverOut, w.k + 1, w.up[..n]);
  }

  lemma ServerWritesKeeps(w: Net, size: U32, limit: U32, n: nat)
    requires Inv(w, size, limit) && ServerCanGive(w.server, n)
    ensures Inv(Apply(w, size, limit, ServerWrites(n)), size, limit)
  {
    EchoSafety.ServerWriteKeeps(w.server, size, limit, w.j, w.serverIn, w.serverOut, n);
    Extended(w.serverOut, w.clientIn, w.down, ServerOut(w.server, n));
  }

  /** Bytes in transit: `n` of them arrive, or more are sent. */
  lemma Consumed(out: seq<Byte>, in_: seq<Byte>, transit: seq<Byte>, n: nat)
    requires out == in_ + transit && n <= |transit|
    ensures out == (in_ + transit[..n]) + transit[n..] && in_ + transit[..n] <= out
  {
  }

  lemma Extended(out: seq<Byte>, in_: seq<Byte>, transit: seq<Byte>, more: seq<Byte>)
    requires out == in_ + transit
    ensures out + more == in_ + (transit + more)
  {
  }

  function Moved(w: Net): nat {
    |w.clientOut| + |w.serverIn| + |w.serverOut| + |w.clientIn|
  }

  lemma StepMoves(w: Net, size: U32, limit: U32, s: Step)
    requires Enabled(w, s)
    ensures Moved(Apply(w, size, limit, s)) > Moved(w)
  {
  }

  lemma StepKeeps(w: Net, size: U32, limit: U32, s: Step)
    requires Inv(w, size, limit) && Enabled(w, s)
    ensures Inv(Apply(w, size, limit, s), size, limit)
  {
    match s
    case ClientWrites(n) => ClientWritesKeeps(w, size, limit, n);
    case ServerReads(n) => ServerReadsKeeps(w, size, limit, n);
    case ServerWrites(n) => ServerWritesKeeps(w, size, limit, n);
    case ClientReads(n) => ClientReadsKeeps(w, size, limit, n);
  }

  lemma {:induction false} RunKeeps(w: Net, size: U32, limit: U32, steps: seq<Step>)
    requires Inv(w, size, limit) && IsRun(w, size, limit, steps)
    ensures var w' := After(w, size, limit, steps); Inv(w', size, limit) && Moved(w') >= Moved(w) + |steps|
    decreases |steps|
  {
    if steps == [] {
    } else {
      StepKeeps(w, size, limit, steps[0]);
      StepMoves(w, size, limit, steps[0]);
      RunKeeps(Apply(w, size, limit, steps[0]), size, limit, steps[1..]);
    }
  }

  /** However the two streams are cut: no check fails, nothing is stored outside a buffer, and what comes back is,
      byte for byte, what was sent; exchange k is over exactly when the whole of frame k has come back. */
  lemma EchoIsExact(size: U32, limit: U32, memory: seq<Byte>, steps: seq<Step>)
    requires |memory| == FrameSize(limit) && size <= limit && Fits(limit)
    requires IsRun(Init(size, limit, memory), size, limit, steps)
    ensures var w := After(Init(size, limit, memory), size, limit, steps);
      && !w.client.failed && !w.server.closed
      && w.server.progress < w.server.frameSize <= |w.server.buf| == HEADER + limit
      && w.client.progress <= |w.client.buf| == HEADER + size
      && w.clientIn <= w.serverOut <= w.serverIn <= w.clientOut <= Frames(size, w.k + 1)
      && Frames(size, w.k) <= w.clientIn
      && (w.server.phase == ReadHeader && w.server.progress == 0 ==> w.serverOut == w.serverIn)
  {
    InitOk(size, limit, memory);
    RunKeeps(Init(size, limit, memory), size, limit, steps);
    SentIsFrames(After(Init(size, limit, memory), size, limit, steps), size, limit);
  }

  ghost predicate InBounds(w: Net, size: U32) {
    ServerInBounds(w.server) && ClientInBounds(w.client, size)
  }

  ghost predicate StaysInBounds(w: Net, size: U32, limit: U32) {
    forall steps | IsRun(w, size, limit, steps) :: InBounds(After(w, size, limit, steps), size)
  }

  lemma RunStaysInBounds(size: U32, limit: U32, memory: seq<Byte>, steps: seq<Step>)
    requires |memory| == FrameSize(limit) && size <= limit && Fits(limit)
    requires IsRun(Init(size, limit, memory), size, limit, steps)
    ensures InBounds(After(Init(size, limit, memory), size, limit, steps), size)
  {
    EchoIsExact(size, limit, memory, steps);
    assert FrameSize(size) == HEADER + size;
  }

  lemma WrappedSizeOverruns(w: Net, size: U32, limit: U32)
    requires !ServerInBounds(w.server)
    ensures !StaysInBounds(w, size, limit)
  {
    assert IsRun(w, size, limit, []) && After(w, size, limit, []) == w;
  }

  /** In no run does either side reach outside its buffer, exactly when the server's size plus header fits 32 bits
      (and with it the client's). */
  lemma BuffersSufficeIff(size: U32, limit: U32, memory: seq<Byte>)
    requires |memory| == FrameSize(limit) && size <= limit
    ensures StaysInBounds(Init(size, limit, memory), size, limit) <==> Fits(limit)
  {
    if Fits(limit) {
      forall steps | IsRun(Init(size, limit, memory), size, limit, steps)
        ensures InBounds(After(Init(size, limit, memory), size, limit, steps), size)
      {
        RunStaysInBounds(size, limit, memory, steps);
      }
    } else {
      WrappedSizeOverruns(Init(size, limit, memory), size, limit);
    }
  }

  /** The client by itself, before anything is exchanged. */
  lemma ClientBufferSufficesIff(size: U32)
    ensures ClientInBounds(NewClient(size), size) <==> Fits(size)
  {
  }

  /** The largest size the program accepts gives the client a buffer of seven bytes. */
  lemma LargestSizeOverruns()
    ensures FrameSize(0xffff_ffff) == 7 && !ClientInBounds(NewClient(0xffff_ffff), 0xffff_ffff)
  {
  }

  lemma {:induction false} FramesLength(size: U32, n: nat)
    ensures |Frames(size, n)| == n * (HEADER + size)
  {
    if n == 0 {
    } else {
      FramesLength(size, n - 1);
      assert n * (HEADER + size) == (n - 1) * (HEADER + size) + (HEADER + size);
    }
  }

  /** With both streams empty and both ends reading, the server is done with every frame the client sent. */
  lemma CaughtUp(w: Net, size: U32, limit: U32)
    requires Inv(w, size, limit) && w.client.phase != Write && w.server.phase != Write && w.up == []
    ensures |w.serverOut| == |Frames(size, w.k + 1)| && w.server.phase == ReadHeader && w.server.progress == 0
  {
    if w.j <= w.k {
      FramesPrefix(size, w.j + 1, w.k + 1);
      assert |Frames(size, w.j + 1)| == |Frames(size, w.j)| + HEADER + size;
      assert false;
    } else {
      FramesPrefix(size, w.k + 1, w.j);
    }
  }

  /** What can happen next, if anything. */
  function Next(w: Net): Step {
    if w.client.phase == Write then ClientWrites(1)
    else if w.server.phase == Write then ServerWrites(1)
    else if w.up != [] then ServerReads(1)
    else ClientReads(1)
  }

  lemma NextIsEnabled(w: Net, size: U32, limit: U32)
    requires Inv(w, size, limit) && !w.client.stalled
    ensures Enabled(w, Next(w))
  {
    if w.client.phase != Write && w.server.phase != Write && w.up == [] {
      CaughtUp(w, size, limit);
      assert |Frames(size, w.k + 1)| == |Frames(size, w.k)| + HEADER + size;
    }
  }

  /** A client that waits for an empty payload has no read under way, and neither has anyone anything to send. */
  lemma StalledIsStuck(w: Net, size: U32, limit: U32, s: Step)
    requires Inv(w, size, limit) && w.client.stalled
    ensures size == 0 && w.k == 0 && !Enabled(w, s)
  {
    SentIsFrames(w, size, limit);
    FramesLength(size, 1);
    FramesLength(size, w.j);
    FramesLength(size, w.j + 1);
    assert |w.clientIn| == HEADER;
    assert w.up == [] && w.server.phase != Write;
  }

  /** The exchange never gets stuck with a message size that the program accepts. */
  lemma NeverStuck(size: U32, limit: U32, memory: seq<Byte>, steps: seq<Step>)
    requires |memory| == FrameSize(limit) && size <= limit && Fits(limit)
    requires IsRun(Init(size, limit, memory), size, limit, steps)
    requires size > 0
    ensures exists s :: Enabled(After(Init(size, limit, memory), size, limit, steps), s)
  {
    InitOk(size, limit, memory);
    RunKeeps(Init(size, limit, memory), size, limit, steps);
    NextIsEnabled(After(Init(size, limit, memory), size, limit, steps), size, limit);
  }

  /** Why size 0 has to be rejected: the exchange would be stuck exactly once the first header has come back. */
  lemma StuckIffEmpty(size: U32, limit: U32, memory: seq<Byte>, steps: seq<Step>)
    requires |memory| == FrameSize(limit) && size <= limit && Fits(limit)
    requires IsRun(Init(size, limit, memory), size, limit, steps)
    ensures var w := After(Init(size, limit, memory), size, limit, steps);
      && ((forall s :: !Enabled(w, s)) <==> size == 0 && w.client.phase == ReadPayload)
      && (size == 0 ==> w.k == 0)
  {
    InitOk(size, limit, memory);
    RunKeeps(Init(size, limit, memory), size, limit, steps);
    var w := After(Init(size, limit, memory), size, limit, steps);
    if w.client.stalled {
      forall s ensures !Enabled(w, s) {
        StalledIsStuck(w, size, limit, s);
      }
    } else {
      NextIsEnabled(w, size, limit);
    }
  }

  /** However small the pieces, a run of more than four frames' bytes per exchange has finished that exchange. */
  lemma ExchangesComplete(size: U32, limit: U32, memory: seq<Byte>, steps: seq<Step>, m: nat)
    requires |memory| == FrameSize(limit) && size <= limit && Fits(limit)
    requires IsRun(Init(size, limit, memory), size, limit, steps)
    requires |steps| > 4 * |Frames(size, m)|
    ensures After(Init(size, limit, memory), size, limit, steps).k >= m
  {
    InitOk(size, limit, memory);
    RunKeeps(Init(size, limit, memory), size, limit, steps);
    var w := After(Init(size, limit, memory), size, limit, steps);
    SentIsFrames(w, size, limit);
    if w.k < m {
      FramesPrefix(size, w.k + 1, m);
      assert false;
    }
  }

  // ---------- the server against any peer ----------

  /** A piece of any content arrives, or `n` bytes of the answer leave. */
  datatype Io = In(chunk: seq<Byte>) | Out(n: nat)

  datatype Session = Session(server: Server, received: seq<Byte>, sent: seq<Byte>)

  predicate Possible(t: Session, io: Io) {
    match io
    case In(chunk) => ServerCanTake(t.server, |chunk|) && |t.server.buf| >= HEADER
    case Out(n) => ServerCanGive(t.server, n)
  }

  function Perform(t: Session, limit: U32, io: Io): Session
    requires Possible(t, io)
  {
    match io
    case In(chunk) => Session(ServerOnRead(t.server, limit, chunk), t.received + chunk, t.sent)
    case Out(n) => Session(ServerOnWrite(t.server, n), t.received, t.sent + ServerOut(t.server, n))
  }

  ghost predicate IsSession(t: Session, limit: U32, ios: seq<Io>)
    decreases |ios|
  {
    ios == [] || (Possible(t, ios[0]) && IsSession(Perform(t, limit, ios[0]), limit, ios[1..]))
  }

  ghost function Outcome(t: Session, limit: U32, ios: seq<Io>): Session
    requires IsSession(t, limit, ios)
    decreases |ios|
  {
    if ios == [] then t else Outcome(Perform(t, limit, ios[0]), limit, ios[1..])
  }

  /** Whatever a peer sends, the server answers with a prefix of it and never stores outside its buffer;
      it can go on until it is done for, which only a header announcing too much brings about. */
  lemma {:induction false} ServerOnlyEchoes(t: Session, limit: U32, ios: seq<Io>)
    requires !t.server.closed && ServerOk(t.server, limit, t.received, t.sent) && IsSession(t, limit, ios)
    ensures var t' := Outcome(t, limit, ios);
      && t'.sent <= t'.received
      && |t'.server.buf| == HEADER + limit
      && (t'.server.closed ==> PayloadSize(t'.server.buf) > limit && t'.received == t'.sent + t'.server.buf[..HEADER])
      && (!t'.server.closed ==> ServerOk(t'.server, limit, t'.received, t'.sent))
    decreases |ios|
  {
    if ios == [] {
    } else {
      var t1 := Perform(t, limit, ios[0]);
      match ios[0] {
        case In(chunk) =>
          Echo.ServerReadKeeps(t.server, limit, chunk, t.received, t.sent);
        case Out(n) =>
          Echo.ServerWriteKeeps(t.server, limit, n, t.received, t.sent);
      }
      if t1.server.closed {
        ClosedIsOver(t, t1, limit, ios);
      } else {
        ServerOnlyEchoes(t1, limit, ios[1..]);
      }
    }
  }

  /** Nothing happens on a closed connection; the header that closed it is all the server kept. */
  lemma ClosedIsOver(t: Session, t1: Session, limit: U32, ios: seq<Io>)
    requires !t.server.closed && ServerOk(t.server, limit, t.received, t.sent) && ios != [] && Possible(t, ios[0])
    requires t1 == Perform(t, limit, ios[0]) && t1.server.closed && IsSession(t1, limit, ios[1..])
    ensures Outcome(t1, limit, ios[1..]) == t1 && t1.sent <= t1.received
    ensures |t1.server.buf| == HEADER + limit && PayloadSize(t1.server.buf) > limit
    ensures t1.received == t1.sent + t1.server.buf[..HEADER]
  {
    var chunk := ios[0].chunk;
    assert Overwrite(t.server.buf, t.server.progress, chunk)[..HEADER] == t.server.buf[..t.server.progress] + chunk;
  }
}
