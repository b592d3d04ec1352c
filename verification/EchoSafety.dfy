/** What holds of the joined client and server under every fragmentation. */
module EchoSafety {
  import opened Protocol
  import opened Echo

  /** The client is exchanging frame `f` after `front`: what it has sent and received so far, and its buffer. */
  ghost predicate ClientAt(c: Client, f: seq<Byte>, front: seq<Byte>, out: seq<Byte>, in_: seq<Byte>) {
    && !c.failed && |c.buf| == |f| >= HEADER
    && (c.stalled <==> |f| == HEADER && c.phase == ReadPayload)
    && match c.phase
       case Write =>
         && c.progress < |f| && c.buf == f
         && out == front + f[..c.progress] && in_ == front
       case _ =>
         && (if c.phase == ReadHeader then c.progress < HEADER else HEADER <= c.progress <= |f|)
         && (c.progress < |f| || c.stalled)
         && c.buf[..c.progress] == f[..c.progress]
         && out == front + f && in_ == front + f[..c.progress]
  }

  /** The server is echoing frame `f` after `front`. */
  ghost predicate ServerAt(s: Server, f: seq<Byte>, front: seq<Byte>, in_: seq<Byte>, out: seq<Byte>) {
    && !s.closed && HEADER <= |f| <= |s.buf| && s.progress < s.frameSize
    && s.frameSize == (if s.phase == ReadHeader then HEADER else |f|)
    && match s.phase
       case Write =>
         && s.buf[..|f|] == f
         && in_ == front + f && out == front + f[..s.progress]
       case _ =>
         && (s.phase == ReadPayload ==> s.progress >= HEADER)
         && s.buf[..s.progress] == f[..s.progress]
         && in_ == front + f[..s.progress] && out == front
  }

  /** The client is in exchange `k`, the server in exchange `j`. */
  ghost predicate ClientOk(c: Client, size: U32, k: nat, out: seq<Byte>, in_: seq<Byte>) {
    c.sequence == ToU32(k) && ClientAt(c, Frame(size, k), Frames(size, k), out, in_)
  }

  ghost predicate ServerEchoes(s: Server, size: U32, limit: U32, j: nat, in_: seq<Byte>, out: seq<Byte>) {
    |s.buf| == HEADER + limit && ServerAt(s, Frame(size, j), Frames(size, j), in_, out)
  }

  ghost predicate Inv(w: Net, size: U32, limit: U32) {
    && size <= limit && Fits(limit)
    && ClientOk(w.client, size, w.k, w.clientOut, w.clientIn)
    && ServerEchoes(w.server, size, limit, w.j, w.serverIn, w.serverOut)
    && w.clientOut == w.serverIn + w.up && w.serverOut == w.clientIn + w.down
    && (size == 0 ==> w.k == 0)
  }

  // ---------- one frame ----------

  /** `f` carries its own size and the number `sequence`. */
  ghost predicate Labelled(f: seq<Byte>, sequence: U32) {
    |f| >= HEADER && PayloadSize(f) == |f| - HEADER && Sequence(f) == sequence
  }

  lemma FrameIsLabelled(size: U32, k: nat)
    ensures Labelled(Frame(size, k), ToU32(k))
  {
    var f := Frame(size, k);
    assert f == Header(size, ToU32(k)) + f[HEADER..];
    HeaderRoundTrip(size, ToU32(k), f[HEADER..]);
  }

  /** A buffer that starts like a frame carries that frame's label. */
  lemma SameLabel(b: seq<Byte>, f: seq<Byte>)
    requires |b| >= HEADER && |f| >= HEADER && b[..HEADER] == f[..HEADER]
    ensures PayloadSize(b) == PayloadSize(f) && Sequence(b) == Sequence(f)
  {
    assert b[..4] == b[..HEADER][..4] == f[..4];
    assert forall i | 0 <= i < HEADER :: b[i] == b[..HEADER][i] == f[i];
  }

  /** Bytes that come in a stream right after the first `p` bytes of `f` continue `f`. */
  lemma Continues(whole: seq<Byte>, front: seq<Byte>, f: seq<Byte>, p: nat, chunk: seq<Byte>)
    requires p + |chunk| <= |f| && front + f[..p] + chunk <= whole && front + f <= whole
    ensures f[..p] + chunk == f[..p + |chunk|] && front + f[..p] + chunk == front + f[..p + |chunk|]
  {
    assert front + f[..p] + chunk == front + (f[..p] + chunk);
    SamePlace(whole, front, f[..p] + chunk, f);
  }

  /** Storing them makes the buffer start with a longer piece of `f`. */
  lemma Stores(buf: seq<Byte>, f: seq<Byte>, p: nat, chunk: seq<Byte>)
    requires p + |chunk| <= |f| <= |buf| && buf[..p] == f[..p] && f[..p] + chunk == f[..p + |chunk|]
    ensures Overwrite(buf, p, chunk)[..p + |chunk|] == f[..p + |chunk|]
    ensures p + |chunk| >= HEADER ==> Overwrite(buf, p, chunk)[..HEADER] == f[..HEADER]
  {
    var b := Overwrite(buf, p, chunk);
    assert b[..p + |chunk|] == b[..p] + b[p..p + |chunk|];
    if p + |chunk| >= HEADER {
      assert b[..HEADER] == b[..p + |chunk|][..HEADER] == f[..p + |chunk|][..HEADER];
    }
  }

  /** Sending `n` more bytes of `f`. */
  lemma Sends(front: seq<Byte>, f: seq<Byte>, p: nat, n: nat)
    requires p + n <= |f|
    ensures front + f[..p] + f[p..p + n] == front + f[..p + n] && f[..|f|] == f
  {
    assert f[..p] + f[p..p + n] == f[..p + n];
  }

  lemma ClientGives(c: Client, f: seq<Byte>, front: seq<Byte>, out: seq<Byte>, in_: seq<Byte>, n: nat)
    requires ClientAt(c, f, front, out, in_) && ClientCanGive(c, n)
    ensures ClientAt(ClientOnWrite(c, n), f, front, out + ClientOut(c, n), in_)
  {
    Sends(front, f, c.progress, n);
  }

  lemma ServerGives(s: Server, f: seq<Byte>, front: seq<Byte>, in_: seq<Byte>, out: seq<Byte>, n: nat)
    requires ServerAt(s, f, front, in_, out) && ServerCanGive(s, n)
    ensures var s' := ServerOnWrite(s, n); var out' := out + ServerOut(s, n);
      if s.progress + n < |f| then ServerAt(s', f, front, in_, out')
      else s' == s.(phase := ReadHeader, frameSize := HEADER, progress := 0) && in_ == out' == front + f
  {
    Sends(front, f, s.progress, n);
    assert s.buf[s.progress..s.progress + n] == s.buf[..|f|][s.progress..s.progress + n];
  }

  /** A complete header passes the size check, and the payload is awaited, or the answer sent if there is none. */
  lemma ServerTakesHeader(s: Server, f: seq<Byte>, front: seq<Byte>, in_: seq<Byte>, out: seq<Byte>, limit: U32,
                          chunk: seq<Byte>)
    requires ServerAt(s, f, front, in_, out) && ServerCanTake(s, |chunk|) && s.phase == ReadHeader
    requires s.progress + |chunk| == HEADER
    requires PayloadSize(f) == |f| - HEADER <= limit && Fits(limit)
    requires Overwrite(s.buf, s.progress, chunk)[..HEADER] == f[..HEADER] && in_ + chunk == front + f[..HEADER]
    ensures ServerAt(ServerOnRead(s, limit, chunk), f, front, in_ + chunk, out)
  {
    SameLabel(Overwrite(s.buf, s.progress, chunk), f);
    assert f[..|f|] == f;
  }

  lemma ServerTakes(s: Server, f: seq<Byte>, front: seq<Byte>, in_: seq<Byte>, out: seq<Byte>,
                    limit: U32, sequence: U32, whole: seq<Byte>, chunk: seq<Byte>)
    requires ServerAt(s, f, front, in_, out) && ServerCanTake(s, |chunk|) && Labelled(f, sequence)
    requires |f| - HEADER <= limit
    requires Fits(limit)
    requires in_ + chunk <= whole && front + f <= whole
    ensures ServerAt(ServerOnRead(s, limit, chunk), f, front, in_ + chunk, out)
  {
    Continues(whole, front, f, s.progress, chunk);
    Stores(s.buf, f, s.progress, chunk);
    if s.phase == ReadHeader && s.progress + |chunk| == HEADER {
      ServerTakesHeader(s, f, front, in_, out, limit, chunk);
    } else {
      assert f[..|f|] == f;
    }
  }

  /** A complete header passes the size check; a complete payload passes the sequence check and the next frame
      follows. */
  lemma ClientTakes(c: Client, f: seq<Byte>, front: seq<Byte>, out: seq<Byte>, in_: seq<Byte>,
                    size: U32, whole: seq<Byte>, chunk: seq<Byte>)
    requires ClientAt(c, f, front, out, in_) && ClientCanTake(c, |chunk|) && Labelled(f, c.sequence)
    requires |f| - HEADER == size
    requires in_ + chunk <= whole && front + f <= whole
    ensures var c' := ClientOnRead(c, size, chunk);
      if c.progress + |chunk| < |f| || size == 0 then
        c'.sequence == c.sequence && c'.phase != Write && ClientAt(c', f, front, out, in_ + chunk)
      else
        && c' == ClientSend(c.(sequence := ToU32(c.sequence + 1)), size)
        && out == in_ + chunk == front + f
  {
    var p, b := c.progress + |chunk|, Overwrite(c.buf, c.progress, chunk);
    Continues(whole, front, f, c.progress, chunk);
    Stores(c.buf, f, c.progress, chunk);
    assert f[..|f|] == f;
    if p >= HEADER {
      SameLabel(b, f);
    }
  }

  // ---------- the stream of frames ----------

  lemma ClientWriteKeeps(c: Client, size: U32, k: nat, out: seq<Byte>, in_: seq<Byte>, n: nat)
    requires ClientOk(c, size, k, out, in_) && ClientCanGive(c, n)
    ensures ClientOk(ClientOnWrite(c, n), size, k, out + ClientOut(c, n), in_)
  {
    ClientGives(c, Frame(size, k), Frames(size, k), out, in_, n);
  }

  lemma ServerWriteKeeps(s: Server, size: U32, limit: U32, j: nat, in_: seq<Byte>, out: seq<Byte>, n: nat)
    requires ServerEchoes(s, size, limit, j, in_, out) && ServerCanGive(s, n)
    ensures var s' := ServerOnWrite(s, n);
      ServerEchoes(s', size, limit, if s'.phase == Write then j else j + 1, in_, out + ServerOut(s, n))
  {
    ServerGives(s, Frame(size, j), Frames(size, j), in_, out, n);
    if s.progress + n == |Frame(size, j)| {
      assert Frames(size, j + 1) + Frame(size, j + 1)[..0] == Frames(size, j + 1);
    }
  }

  /** If the stream goes on after frame `i` began, the whole of frame `i` is in it. */
  lemma FrameFollows(size: U32, n: nat, i: nat, in_: seq<Byte>, chunk: seq<Byte>)
    requires Frames(size, i) <= in_ && in_ + chunk <= Frames(size, n) && chunk != []
    ensures Frames(size, i) + Frame(size, i) <= Frames(size, n)
  {
    FramesGrow(size, n, i);
    FramesPrefix(size, i + 1, n);
  }

  lemma FrontOf(front: seq<Byte>, rest: seq<Byte>)
    ensures front <= front + rest
  {
  }

  lemma ServerReadKeeps(s: Server, size: U32, limit: U32, j: nat, in_: seq<Byte>, out: seq<Byte>, n: nat,
                        chunk: seq<Byte>)
    requires ServerEchoes(s, size, limit, j, in_, out) && ServerCanTake(s, |chunk|)
    requires size <= limit && Fits(limit) && in_ + chunk <= Frames(size, n)
    ensures ServerEchoes(ServerOnRead(s, limit, chunk), size, limit, j, in_ + chunk, out)
  {
    FrontOf(Frames(size, j), Frame(size, j)[..s.progress]);
    FrameFollows(size, n, j, in_, chunk);
    FrameIsLabelled(size, j);
    ServerTakes(s, Frame(size, j), Frames(size, j), in_, out, limit, ToU32(j), Frames(size, n), chunk);
  }

  lemma NextSequence(k: nat)
    ensures ToU32(ToU32(k) + 1) == ToU32(k + 1)
  {
  }

  lemma SendKeeps(c: Client, size: U32, k: nat, stream: seq<Byte>)
    requires !c.failed && !c.stalled && c.sequence == ToU32(k) && stream == Frames(size, k)
    ensures ClientOk(ClientSend(c, size), size, k, stream, stream)
  {
    FrameOfSequence(size, k);
    assert Frame(size, k)[..0] == [];
  }

  lemma ClientReadKeeps(c: Client, size: U32, k: nat, out: seq<Byte>, in_: seq<Byte>, n: nat, chunk: seq<Byte>)
    requires ClientOk(c, size, k, out, in_) && ClientCanTake(c, |chunk|) && in_ + chunk <= Frames(size, n)
    ensures var c' := ClientOnRead(c, size, chunk);
      ClientOk(c', size, if c'.phase == Write then k + 1 else k, out, in_ + chunk) && (size == 0 ==> c'.phase != Write)
  {
    FrontOf(Frames(size, k), Frame(size, k)[..c.progress]);
    FrameFollows(size, n, k, in_, chunk);
    FrameIsLabelled(size, k);
    ClientTakes(c, Frame(size, k), Frames(size, k), out, in_, size, Frames(size, n), chunk);
    if c.progress + |chunk| == |Frame(size, k)| && size > 0 {
      NextSequence(k);
      SendKeeps(c.(sequence := ToU32(c.sequence + 1)), size, k + 1, out);
    }
  }

  lemma InitOk(size: U32, limit: U32, memory: seq<Byte>)
    requires |memory| == FrameSize(limit) && size <= limit && Fits(limit)
    ensures Inv(Init(size, limit, memory), size, limit)
  {
    SendKeeps(Client(Write, 0, 0, [], false, false), size, 0, []);
  }
}
