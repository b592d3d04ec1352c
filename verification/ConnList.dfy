/** The server's doubly linked list of open connections. */
module ConnList {
  import opened Sequences

  class Conn {
    var prev: Conn?
    var next: Conn?
    /** How often the memory has been given back. */
    ghost var releases: nat
  }

  /** Both links of every connection lead to its neighbours. */
  ghost predicate Linked(s: seq<Conn>)
    reads s`prev, s`next
  {
    && (forall i, j | 0 <= i < j < |s| && j == i + 1 :: s[i].next == s[j] && s[j].prev == s[i])
    && (s != [] ==> s[0].prev == null && s[|s| - 1].next == null)
  }

  function Without(s: seq<Conn>, k: nat): (r: seq<Conn>)
    requires k < |s|
    ensures |r| == |s| - 1 && forall i | 0 <= i < |r| :: r[i] == if i < k then s[i] else s[i + 1]
  {
    s[..k] + s[k + 1..]
  }

  lemma WithoutMembers(s: seq<Conn>, k: nat)
    requires k < |s| && Distinct(s)
    ensures forall x | x in s :: x in Without(s, k) <==> x != s[k]
    ensures forall x | x in Without(s, k) :: x in s
  {
    forall x | x in s && x != s[k] ensures x in Without(s, k) {
      var i :| 0 <= i < |s| && s[i] == x;
      assert Without(s, k)[if i < k then i else i - 1] == x;
    }
  }

  /** The neighbours of `s[k]` have been linked past it. */
  ghost predicate Bypassed(s: seq<Conn>, k: nat)
    requires k < |s|
    reads s`prev, s`next
  {
    && (forall i, j | 0 <= i < j < |s| && j == i + 1 && i != k && j != k :: s[i].next == s[j] && s[j].prev == s[i])
    && (0 < k < |s| - 1 ==> s[k - 1].next == s[k + 1] && s[k + 1].prev == s[k - 1])
    && (|s| > 1 ==> (if k == 0 then s[1] else s[0]).prev == null)
    && (|s| > 1 ==> (if k == |s| - 1 then s[k - 1] else s[|s| - 1]).next == null)
  }

  lemma BypassedIsLinked(s: seq<Conn>, k: nat)
    requires k < |s| && Bypassed(s, k) && Distinct(s)
    ensures Linked(Without(s, k)) && Distinct(Without(s, k)) && s[k] !in Without(s, k)
  {
    var r := Without(s, k);
    forall i, j | 0 <= i < j < |r| && j == i + 1 ensures r[i].next == r[j] && r[j].prev == r[i] {
      if i == k - 1 {
        assert r[i] == s[k - 1] && r[j] == s[k + 1];
      }
    }
  }

  class ConnList {
    var head: Conn?
    ghost var conns: seq<Conn>

    ghost predicate Valid()
      reads this, conns`prev, conns`next
    {
      head == (if conns == [] then null else conns[0]) && Linked(conns) && Distinct(conns)
    }

    constructor ()
      ensures Valid() && conns == []
    {
      head, conns := null, [];
    }

    /** `alloc_userdata` for a new connection, which comes zeroed. */
    method Add(c: Conn)
      requires Valid() && c !in conns && c.prev == null
      modifies this, c`next, conns`prev
      ensures Valid() && conns == [c] + old(conns)
    {
      c.next := head;
      if head != null {
        head.prev := c;
      }
      head := c;
      conns := [c] + conns;
    }

    /** The neighbours of the connection, or the list's head, are linked past it. */
    method LinkPast(c: Conn, ghost k: nat)
      requires Valid() && k < |conns| && conns[k] == c
      modifies this`head, conns`prev, conns`next
      ensures Bypassed(conns, k) && head == if |conns| == 1 then null else if k == 0 then conns[1] else conns[0]
    {
      assert k > 0 ==> c.prev == conns[k - 1];
      assert k < |conns| - 1 ==> c.next == conns[k + 1];
      if c.prev != null {
        c.prev.next := c.next;
      } else {
        head := c.next;
      }
      if c.next != null {
        c.next.prev := c.prev;
      }
    }

    /** `conn_unlink`. Both callers free the connection right after, so it is called on listed ones only. */
    method Unlink(c: Conn, ghost k: nat)
      requires Valid() && k < |conns| && conns[k] == c
      modifies this, conns`prev, conns`next
      ensures Valid() && conns == Without(old(conns), k) && c.prev == null && c.next == null
    {
      LinkPast(c, k);
      BypassedIsLinked(conns, k);
      c.prev := null;
      c.next := null;
      conns := Without(conns, k);
    }

    /** `conn_close` as far as the list and the memory go. */
    method Close(c: Conn, ghost k: nat)
      requires Valid() && k < |conns| && conns[k] == c
      modifies this, conns`prev, conns`next, c`releases
      ensures Valid() && conns == Without(old(conns), k) && c.releases == old(c.releases) + 1
      ensures forall x | x in old(conns) :: x in conns <==> x != c
      ensures forall x | x in conns :: x in old(conns)
    {
      WithoutMembers(conns, k);
      Unlink(c, k);
      c.releases := c.releases + 1;
    }

    /** `server_close_connections`: each connection is released once. */
    method CloseAll()
      requires Valid()
      modifies this, conns
      ensures Valid() && conns == []
      ensures forall c | c in old(conns) :: c.releases == old(c.releases) + 1
    {
      ghost var was := conns;
      while head != null
        invariant Valid() && forall i | 0 <= i < |conns| :: conns[i] in was
        invariant forall c | c in was :: c.releases == old(c.releases) + if c in conns then 0 else 1
        decreases |conns|
      {
        Close(head, 0);
      }
    }
  }
}
