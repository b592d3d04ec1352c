/** The benchmark's echo server and client, joined by two reliable byte streams that may cut what is sent
    into pieces of any size. */
module Echo {
  import opened Protocol

  datatype Phase = ReadHeader | ReadPayload | Write

  /** `buf` is the connection's buffer; its length never changes. */
  datatype Server = Server(phase: Phase, frameSize: nat, progress: nat, buf: seq<Byte>, closed: bool)

  /** `failed`: a size or sequence check did not hold. `stalled`: no read or write is under way any more. */
  datatype Client = Client(phase: Phase, progress: nat, sequence: U32, buf: seq<Byte>, failed: bool, stalled: bool)

  function Overwrite(buf: seq<Byte>, at: nat, chunk: seq<Byte>): (r: seq<Byte>)
    requires at + |chunk| <= |buf|
    ensures |r| == |buf|
    ensures r[..at] == buf[..at] && r[at..at + |chunk|] == chunk
  {
    buf[..at] + chunk + buf[at + |chunk|..]
  }

  /** Header and payload together, as computed on 32-bit numbers. */
  function FrameSize(size: U32): U32 {
    ToU32(HEADER + size)
  }

  /** That sum does not wrap around. */
  predicate Fits(size: U32) {
    HEADER + size < 0x1_0000_0000
  }

  // ---------- server ----------

  function NewServer(limit: U32, memory: seq<Byte>): Server
    requires |memory| == FrameSize(limit)
  {
    Server(ReadHeader, HEADER, 0, memory, false)
  }

  function ServerWrite(s: Server): Server {
    s.(phase := Write, progress := 0)
  }

  /** `conn_read_payload`; `limit` is the configured message size. */
  function ServerReadPayload(s: Server, limit: U32): Server
    requires |s.buf| >= HEADER
  {
    var size := PayloadSize(s.buf);
    if size > limit then s.(closed := true)
    else
      var s := s.(phase := ReadPayload, frameSize := FrameSize(size), progress := HEADER);
      if size == 0 then ServerWrite(s) else s
  }

  /** What the pending read may still store. */
  predicate ServerCanTake(s: Server, n: nat) {
    !s.closed && s.phase != Write && 0 < n <= s.frameSize - s.progress && s.frameSize <= |s.buf|
  }

  /** `on_read` after the pending read stored `chunk` behind what was there. */
  function ServerOnRead(s: Server, limit: U32, chunk: seq<Byte>): Server
    requires ServerCanTake(s, |chunk|) && |s.buf| >= HEADER
  {
    var s := s.(buf := Overwrite(s.buf, s.progress, chunk), progress := s.progress + |chunk|);
    if s.progress < s.frameSize then s
    else if s.phase == ReadHeader then ServerReadPayload(s, limit)
    else ServerWrite(s)
  }

  predicate ServerCanGive(s: Server, n: nat) {
    !s.closed && s.phase == Write && 0 < n <= s.frameSize - s.progress && s.frameSize <= |s.buf|
  }

  /** `on_write` after `n` bytes went out. */
  function ServerOnWrite(s: Server, n: nat): Server
    requires ServerCanGive(s, n)
  {
    var s := s.(progress := s.progress + n);
    if s.progress < s.frameSize then s else s.(phase := ReadHeader, frameSize := HEADER, progress := 0)
  }

  function ServerOut(s: Server, n: nat): seq<Byte>
    requires ServerCanGive(s, n)
  {
    s.buf[s.progress..s.progress + n]
  }

  /** The server holds exactly the bytes it has received and not yet sent back, and stays inside its buffer. */
  ghost predicate ServerOk(s: Server, limit: U32, received: seq<Byte>, sent: seq<Byte>) {
    && Fits(limit) && |s.buf| == HEADER + limit
    && s.progress < s.frameSize <= |s.buf|
    && (s.phase == ReadHeader ==> s.frameSize == HEADER)
    && (s.phase == ReadPayload ==> s.progress >= HEADER)
    && received == sent + if s.phase == Write then s.buf[s.progress..s.frameSize] else s.buf[..s.progress]
  }

  /** Whatever bytes arrive, in whatever pieces: what is received and not sent is in the buffer. */
  lemma ServerReadKeeps(s: Server, limit: U32, chunk: seq<Byte>, received: seq<Byte>, sent: seq<Byte>)
    requires ServerOk(s, limit, received, sent) && ServerCanTake(s, |chunk|)
    ensures var s' := ServerOnRead(s, limit, chunk); s'.closed || ServerOk(s', limit, received + chunk, sent)
  {
    var buf' := Overwrite(s.buf, s.progress, chunk);
    assert buf'[..s.progress + |chunk|] == s.buf[..s.progress] + chunk;
    assert received + chunk == sent + buf'[..s.progress + |chunk|];
  }

  lemma ServerWriteKeeps(s: Server, limit: U32, n: nat, received: seq<Byte>, sent: seq<Byte>)
    requires ServerOk(s, limit, received, sent) && ServerCanGive(s, n)
    ensures ServerOk(ServerOnWrite(s, n), limit, received, sent + ServerOut(s, n))
  {
    assert s.buf[s.progress..s.frameSize] == ServerOut(s, n) + s.buf[s.progress + n..s.frameSize];
  }

  // ---------- client ----------

  function Payload(size: U32, sequence: U32): (r: seq<Byte>)
    ensures |r| == size
  {
    seq(size, i requires 0 <= i => (sequence + HEADER + i) % 0x100)
  }

  /** The k-th frame a client sends: its number and the bytes derived from it. */
  function Frame(size: U32, k: nat): (r: seq<Byte>)
    ensures |r| == HEADER + size
  {
    Header(size, ToU32(k)) + Payload(size, ToU32(k))
  }

  function ClientSend(c: Client, size: U32): Client {
    c.(phase := Write, progress := 0, buf := Frame(size, c.sequence))
  }

  function NewClient(size: U32): Client {
    ClientSend(Client(Write, 0, 0, [], false, false), size)
  }

  predicate ClientCanGive(c: Client, n: nat) {
    !c.failed && c.phase == Write && 0 < n <= |c.buf| - c.progress
  }

  /** `on_write`. */
  function ClientOnWrite(c: Client, n: nat): Client
    requires ClientCanGive(c, n)
  {
    var c := c.(progress := c.progress + n);
    if c.progress < |c.buf| then c else c.(phase := ReadHeader, progress := 0)
  }

  function ClientOut(c: Client, n: nat): seq<Byte>
    requires ClientCanGive(c, n)
  {
    c.buf[c.progress..c.progress + n]
  }

  predicate ClientCanTake(c: Client, n: nat) {
    && !c.failed && !c.stalled && c.phase != Write && |c.buf| >= HEADER
    && 0 < n <= (if c.phase == ReadHeader then HEADER else |c.buf|) - c.progress
  }

  /** `conn_read_payload`, which starts no read for an empty payload. */
  function ClientReadPayload(c: Client, size: U32): Client
    requires |c.buf| >= HEADER
  {
    if PayloadSize(c.buf) != size then c.(failed := true)
    else c.(phase := ReadPayload, progress := HEADER, stalled := size == 0)
  }

  /** `on_read`. */
  function ClientOnRead(c: Client, size: U32, chunk: seq<Byte>): Client
    requires ClientCanTake(c, |chunk|)
  {
    var c := c.(buf := Overwrite(c.buf, c.progress, chunk), progress := c.progress + |chunk|);
    if c.phase == ReadHeader then
      if c.progress < HEADER then c else ClientReadPayload(c, size)
    else if c.progress < |c.buf| then c
    else if Sequence(c.buf) != c.sequence then c.(failed := true)
    else ClientSend(c.(sequence := ToU32(c.sequence + 1)), size)
  }

  /** Whatever the peer sends: the client fails exactly when a whole header announces another size than its own, or a
      whole answer carries another number than the request; it goes on to the next request exactly when a whole
      answer carries the right one. */
  lemma ClientChecksAnswer(c: Client, size: U32, chunk: seq<Byte>)
    requires ClientCanTake(c, |chunk|)
    ensures var c', buf, p := ClientOnRead(c, size, chunk), Overwrite(c.buf, c.progress, chunk), c.progress + |chunk|;
      && (c'.failed <==> (c.phase == ReadHeader && p == HEADER && PayloadSize(buf) != size)
                         || (c.phase == ReadPayload && p == |buf| && Sequence(buf) != c.sequence))
      && (c'.phase == Write <==> c.phase == ReadPayload && p == |buf| && Sequence(buf) == c.sequence)
      && (if c'.phase == Write then c'.sequence == ToU32(c.sequence + 1) && c'.buf == Frame(size, c'.sequence)
          else c'.sequence == c.sequence && c'.buf == buf)
      && (c'.phase == ReadPayload ==> c'.progress == p)
  {
  }

  /** And the server closes the connection exactly when a whole header announces more than it is made for. */
  lemma ServerChecksSize(s: Server, limit: U32, chunk: seq<Byte>)
    requires ServerCanTake(s, |chunk|) && |s.buf| >= HEADER
    ensures var s', buf := ServerOnRead(s, limit, chunk), Overwrite(s.buf, s.progress, chunk);
      s'.closed <==> s.phase == ReadHeader && s.progress + |chunk| == s.frameSize && PayloadSize(buf) > limit
  {
  }

  /** What `conn_send` puts into the buffer lies inside it, and so does all that is sent and received. */
  predicate ClientInBounds(c: Client, size: U32) {
    HEADER <= FrameSize(size) && c.progress <= |c.buf| <= FrameSize(size)
  }

  /** The pending read or write of the server lies inside its buffer. */
  predicate ServerInBounds(s: Server) {
    s.progress <= s.frameSize <= |s.buf|
  }

  // ---------- both ----------

  /** `up` and `down` are the bytes in transit; `clientOut` to `clientIn` all bytes that passed each end.
      `k` and `j` count the frames the client and the server are done with. */
  datatype Net = Net(server: Server, client: Client, up: seq<Byte>, down: seq<Byte>,
                     clientOut: seq<Byte>, serverIn: seq<Byte>, serverOut: seq<Byte>, clientIn: seq<Byte>, k: nat,
                     j: nat)

  function Init(size: U32, limit: U32, memory: seq<Byte>): Net
    requires |memory| == FrameSize(limit)
  {
    Net(NewServer(limit, memory), NewClient(size), [], [], [], [], [], [], 0, 0)
  }

  datatype Step = ClientWrites(n: nat) | ServerReads(n: nat) | ServerWrites(n: nat) | ClientReads(n: nat)

  predicate Enabled(w: Net, s: Step) {
    match s
    case ClientWrites(n) => ClientCanGive(w.client, n)
    case ServerReads(n) => n <= |w.up| && ServerCanTake(w.server, n) && |w.server.buf| >= HEADER
    case ServerWrites(n) => ServerCanGive(w.server, n)
    case ClientReads(n) => n <= |w.down| && ClientCanTake(w.client, n)
  }

  function Apply(w: Net, size: U32, limit: U32, s: Step): Net
    requires Enabled(w, s)
  {
    match s
    case ClientWrites(n) =>
      var out := ClientOut(w.client, n);
      w.(client := ClientOnWrite(w.client, n), up := w.up + out, clientOut := w.clientOut + out)
    case ServerReads(n) =>
      w.(server := ServerOnRead(w.server, limit, w.up[..n]), up := w.up[n..], serverIn := w.serverIn + w.up[..n])
    case ServerWrites(n) =>
      var out, s' := ServerOut(w.server, n), ServerOnWrite(w.server, n);
      w.(server := s', down := w.down + out, serverOut := w.serverOut + out,
         j := if s'.phase == Write then w.j else w.j + 1)
    case ClientReads(n) =>
      var c' := ClientOnRead(w.client, size, w.down[..n]);
      w.(client := c', down := w.down[n..], clientIn := w.clientIn + w.down[..n],
         k := if c'.phase == Write then w.k + 1 else w.k)
  }

  /** The first `n` frames. */
  function Frames(size: U32, n: nat): seq<Byte> {
    if n == 0 then [] else Frames(size, n - 1) + Frame(size, n - 1)
  }

  lemma FrameOfSequence(size: U32, k: nat)
    ensures Frame(size, ToU32(k)) == Frame(size, k)
  {
    assert ToU32(ToU32(k)) == ToU32(k);
  }

  lemma SamePlace(whole: seq<Byte>, front: seq<Byte>, s: seq<Byte>, f: seq<Byte>)
    requires front + s <= whole && front + f <= whole && |s| <= |f|
    ensures s == f[..|s|]
  {
    forall i | 0 <= i < |s| ensures s[i] == f[i] {
      assert (front + s)[|front| + i] == whole[|front| + i] == (front + f)[|front| + i];
    }
  }

  lemma {:induction false} FramesPrefix(size: U32, i: nat, n: nat)
    requires i <= n
    ensures Frames(size, i) <= Frames(size, n)
    decreases n - i
  {
    if i == n {
    } else {
      FramesPrefix(size, i, n - 1);
    }
  }

  /** A longer stretch has more frames. */
  lemma FramesGrow(size: U32, n: nat, i: nat)
    requires |Frames(size, i)| < |Frames(size, n)|
    ensures i < n
  {
    if n <= i {
      FramesPrefix(size, n, i);
    }
  }
}
