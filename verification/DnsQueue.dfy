/** The pool's queue of requests: a list linked through the requests, with a pointer to its last one. */
module DnsQueue {
  import opened Sequences

  class Request {
    var next: Request?
  }

  /** The links lead through `s` and end there. */
  ghost predicate Linked(s: seq<Request>)
    reads s`next
  {
    && (forall i, j | 0 <= i < j < |s| && j == i + 1 :: s[i].next == s[j])
    && (s != [] ==> s[|s| - 1].next == null)
  }

  class RequestQueue {
    var head: Request?
    var tail: Request?
    /** The waiting requests, oldest first. */
    ghost var nodes: seq<Request>

    ghost predicate Valid()
      reads this, nodes`next
    {
      && Linked(nodes) && Distinct(nodes)
      && head == (if nodes == [] then null else nodes[0])
      && tail == (if nodes == [] then null else nodes[|nodes| - 1])
    }

    constructor ()
      ensures Valid() && nodes == []
    {
      head, tail, nodes := null, null, [];
    }

    /** `dns_enqueue`. A request is queued at most once: its event is pending meanwhile. */
    method Enqueue(r: Request)
      requires Valid() && r !in nodes
      modifies this, r`next, nodes`next
      ensures Valid() && nodes == old(nodes) + [r]
    {
      r.next := null;
      if tail != null {
        tail.next := r;
      } else {
        head := r;
      }
      tail := r;
      nodes := nodes + [r];
    }

    /** What `dns_worker` does under the pool's lock. */
    method Dequeue() returns (r: Request?)
      requires Valid()
      modifies this, nodes`next
      ensures Valid()
      ensures old(nodes) == [] ==> r == null && nodes == []
      ensures old(nodes) != [] ==> r == old(nodes)[0] && nodes == old(nodes)[1..] && r.next == null
      ensures forall x | x in nodes :: x.next == old(x.next)
    {
      r := head;
      if r == null {
        return;
      }
      head := r.next;
      if head == null {
        tail := null;
      }
      r.next := null;
      nodes := nodes[1..];
    }
  }
}
