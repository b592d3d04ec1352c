/** The poller's buffer of fake completions: a window that slides, is compacted and grows. */
module CompletionQueue {

  const GROWTH := 128

  class Queue<T(0)> {
    var events: array<T>
    var start: nat
    var count: nat
    /** Everything accepted and everything handed out since creation. */
    ghost var submitted: seq<T>
    ghost var polled: seq<T>

    /** What was handed out, followed by the live window, is what was accepted: a FIFO. */
    ghost predicate Valid()
      reads this, events
    {
      start + count <= events.Length && submitted == polled + events[start..start + count]
    }

    ghost function Pending(): seq<T>
      reads this, events
      requires Valid()
    {
      events[start..start + count]
    }

    constructor ()
      ensures Valid() && fresh(events) && submitted == [] && polled == []
    {
      events := new T[0];
      start, count := 0, 0;
      submitted, polled := [], [];
    }

    /** The `memmove` to the front of the buffer. */
    method Compact()
      requires Valid()
      modifies this`start, events
      ensures Valid() && start == 0 && Pending() == old(Pending())
    {
      forall i | 0 <= i < count {
        events[i] := events[start + i];
      }
      start := 0;
      assert events[..count] == old(Pending());
    }

    /** The reallocation of a full buffer. */
    method Grow()
      requires Valid() && start == 0
      modifies this`events
      ensures Valid() && fresh(events) && events.Length == old(events.Length) + GROWTH && Pending() == old(Pending())
    {
      var grown := new T[events.Length + GROWTH];
      forall i | 0 <= i < events.Length {
        grown[i] := events[i];
      }
      events := grown;
      assert events[..count] == old(Pending());
    }

    /** The event is stored behind the window. */
    method Append(event: T)
      requires Valid() && start + count < events.Length
      modifies this`count, this`submitted, events
      ensures Valid() && Pending() == old(Pending()) + [event] && submitted == old(submitted) + [event]
    {
      ghost var before := Pending();
      events[start + count] := event;
      count := count + 1;
      submitted := submitted + [event];
      assert events[start..start + count - 1] == before;
    }

    /** `epoll_poller_submit`; `memory` tells whether `realloc` succeeds. Fails only when every slot
        is live and no larger buffer can be had. */
    method Submit(event: T, memory: bool) returns (ok: bool)
      requires Valid()
      modifies this, events
      ensures Valid() && (events == old(events) || fresh(events))
      ensures ok == (memory || old(count) < old(events.Length))
      ensures polled == old(polled) && Pending() == if ok then old(Pending()) + [event] else old(Pending())
      ensures submitted == if ok then old(submitted) + [event] else old(submitted)
    {
      if start + count == events.Length && start > 0 {
        Compact();
      }
      if count == events.Length {
        if !memory {
          return false;
        }
        Grow();
      }
      Append(event);
      return true;
    }

    /** The draining part of `epoll_poller_poll`: takes from the front, at most `maxEvents`. The kernel
        is only asked when nothing is pending. */
    method Poll(maxEvents: nat) returns (batch: seq<T>)
      requires Valid()
      modifies this
      ensures Valid() && events == old(events)
      ensures |batch| == if old(count) <= maxEvents then old(count) else maxEvents
      ensures batch + Pending() == old(Pending())
      ensures polled == old(polled) + batch && submitted == old(submitted)
    {
      var n := if count > maxEvents then maxEvents else count;
      batch := events[start..start + n];
      assert Pending() == batch + events[start + n..start + count];
      assert polled + Pending() == polled + batch + events[start + n..start + count];
      polled := polled + batch;
      count := count - n;
      if count > 0 {
        start := start + n;
      } else {
        start := 0;
      }
    }
  }
}
