/** The connection objects of the benchmark's server and client, with their buffers updated in place. */
module EchoConn {
  import opened Protocol
  import opened Echo

  /** What the pending read of a connection does: store `chunk` in the buffer from `at` on. */
  method Store(buf: array<Byte>, at: nat, chunk: seq<Byte>)
    requires at + |chunk| <= buf.Length
    modifies buf
    ensures buf[..] == Overwrite(old(buf[..]), at, chunk)
  {
    for i := 0 to |chunk|
      invariant buf[..at] == old(buf[..at]) && buf[at..at + i] == chunk[..i]
      invariant buf[at + i..] == old(buf[at + i..])
    {
      buf[at + i] := chunk[i];
    }
  }

  lemma IsFrame(b: seq<Byte>, size: U32, sequence: U32)
    requires |b| == HEADER + size && b[..HEADER] == Header(size, sequence)
    requires forall k | HEADER <= k < |b| :: b[k] == (sequence + k) % 0x100
    ensures b == Frame(size, sequence)
  {
    assert b[HEADER..] == Payload(size, sequence) by {
      forall i | 0 <= i < size ensures b[HEADER..][i] == Payload(size, sequence)[i] {
        assert b[HEADER..][i] == b[HEADER + i] == (sequence + (HEADER + i)) % 0x100;
      }
    }
    assert b == b[..HEADER] + b[HEADER..] && ToU32(sequence) == sequence;
  }

  class ServerConn {
    const buf: array<Byte>
    var phase: Phase
    var frameSize: nat
    var progress: nat
    var closed: bool

    constructor (limit: U32)
      ensures fresh(buf) && buf.Length == FrameSize(limit) && State() == NewServer(limit, buf[..])
    {
      buf := new Byte[FrameSize(limit)];
      phase, frameSize, progress, closed := ReadHeader, HEADER, 0, false;
    }

    function State(): Server
      reads this, buf
    {
      Server(phase, frameSize, progress, buf[..], closed)
    }

    method StartReadHeader()
      modifies this
      ensures State() == old(State()).(phase := ReadHeader, frameSize := HEADER, progress := 0)
    {
      phase, frameSize, progress := ReadHeader, HEADER, 0;
    }

    method StartWrite()
      modifies this
      ensures State() == ServerWrite(old(State()))
    {
      phase, progress := Write, 0;
    }

    method StartReadPayload(limit: U32)
      requires buf.Length >= HEADER
      modifies this
      ensures State() == ServerReadPayload(old(State()), limit)
    {
      var size := PayloadSize(buf[..]);
      if size > limit {
        closed := true;
        return;
      }
      phase, frameSize, progress := ReadPayload, FrameSize(size), HEADER;
      if size == 0 {
        StartWrite();
      }
    }

    /** A completed read: an error or the end of the stream closes the connection. */
    method OnRead(failed: bool, chunk: seq<Byte>, limit: U32)
      requires buf.Length >= HEADER && (chunk != [] ==> ServerCanTake(State(), |chunk|))
      modifies this, buf
      ensures State() == if failed || chunk == [] then old(State()).(closed := true)
        else ServerOnRead(old(State()), limit, chunk)
    {
      if failed || chunk == [] {
        closed := true;
        return;
      }
      Store(buf, progress, chunk);
      progress := progress + |chunk|;
      if progress < frameSize {
        return;
      }
      if phase == ReadHeader {
        StartReadPayload(limit);
      } else {
        StartWrite();
      }
    }

    method OnWrite(failed: bool, bytes: nat)
      requires ServerCanGive(State(), bytes)
      modifies this
      ensures State() == if failed then old(State()).(closed := true) else ServerOnWrite(old(State()), bytes)
    {
      if failed {
        closed := true;
        return;
      }
      progress := progress + bytes;
      if progress < frameSize {
        return;
      }
      StartReadHeader();
    }
  }

  class ClientConn {
    const buf: array<Byte>
    const size: U32
    var phase: Phase
    var progress: nat
    var sequence: U32
    var closed: bool
    var stalled: bool

    constructor (size: U32)
      ensures fresh(buf) && this.size == size && Allocated()
      ensures sequence == 0 && !closed && !stalled
    {
      this.size := size;
      buf := new Byte[FrameSize(size)];
      phase, progress, sequence, closed, stalled := Write, 0, 0, false, false;
    }

    ghost predicate Allocated() {
      buf.Length == FrameSize(size)
    }

    /** The buffer holds a whole frame. */
    ghost predicate Valid() {
      Allocated() && Fits(size)
    }

    function State(): Client
      reads this, buf
    {
      Client(phase, progress, sequence, buf[..], closed, stalled)
    }

    /** Derives every payload byte from the sequence number and its position. */
    method FillPayload()
      requires Valid()
      modifies buf
      ensures buf[..HEADER] == old(buf[..HEADER])
      ensures forall k | HEADER <= k < buf.Length :: buf[k] == (sequence + k) % 0x100
    {
      for i := HEADER to buf.Length
        invariant buf[..HEADER] == old(buf[..HEADER])
        invariant forall k | HEADER <= k < i :: buf[k] == (sequence + k) % 0x100
      {
        buf[i] := (sequence + i) % 0x100;
      }
    }

    method Send()
      requires Valid()
      modifies this, buf
      ensures State() == ClientSend(old(State()), size)
    {
      WriteHeader(buf, size, sequence);
      assert buf[..HEADER] == Header(size, sequence);
      FillPayload();
      IsFrame(buf[..], size, sequence);
      phase, progress := Write, 0;
    }

    method StartReadHeader()
      modifies this
      ensures State() == old(State()).(phase := ReadHeader, progress := 0)
    {
      phase, progress := ReadHeader, 0;
    }

    method StartReadPayload()
      requires Valid()
      modifies this
      ensures State() == ClientReadPayload(old(State()), size)
    {
      if PayloadSize(buf[..]) != size {
        closed := true;
        return;
      }
      phase, progress, stalled := ReadPayload, HEADER, size == 0;
    }

    method OnWrite(failed: bool, bytes: nat)
      requires ClientCanGive(State(), bytes)
      modifies this
      ensures State() == if failed then old(State()).(failed := true) else ClientOnWrite(old(State()), bytes)
    {
      if failed {
        closed := true;
        return;
      }
      progress := progress + bytes;
      if progress < buf.Length {
        return;
      }
      StartReadHeader();
    }

    method OnRead(failed: bool, chunk: seq<Byte>)
      requires Valid() && (chunk != [] ==> ClientCanTake(State(), |chunk|))
      modifies this, buf
      ensures State() == if failed || chunk == [] then old(State()).(failed := true)
        else ClientOnRead(old(State()), size, chunk)
    {
      if failed || chunk == [] {
        closed := true;
        return;
      }
      Store(buf, progress, chunk);
      progress := progress + |chunk|;
      if phase == ReadHeader {
        if progress == HEADER {
          StartReadPayload();
        }
      } else if progress == buf.Length {
        if Sequence(buf[..]) != sequence {
          closed := true;
          return;
        }
        sequence := ToU32(sequence + 1);
        Send();
      }
    }
  }
}
