/** The loop's list of lazily deleted events and the sweep that releases them. */
module EndgameList {
  import opened Sequences

  class Proactor {
    var reading: bool
    var writing: bool
    var deleted: bool
    var next: Proactor?
    /** How often the memory has been given back. */
    ghost var releases: nat

    /** `HAS_NO_OUTSTANDING_IO`. */
    predicate Idle()
      reads this`reading, this`writing
    {
      !writing && !reading
    }

    /** `tcp_free` on a swept node: nothing is outstanding, so the memory goes. */
    method Release()
      requires Idle()
      modifies this`releases
      ensures releases == old(releases) + 1
    {
      releases := releases + 1;
    }
  }

  /** The elements of `s` that are in `keep`, in their order. */
  ghost function Filter<T>(s: seq<T>, keep: set<T>): seq<T> {
    if s == [] then []
    else if s[0] in keep then [s[0]] + Filter(s[1..], keep)
    else Filter(s[1..], keep)
  }

  lemma {:induction false} FilterMembers<T>(s: seq<T>, keep: set<T>, x: T)
    ensures x in Filter(s, keep) <==> x in s && x in keep
  {
    if s == [] {
    } else {
      FilterMembers(s[1..], keep, x);
    }
  }

  /** What stays does so in its order, and as often. */
  lemma {:induction false} FilterAppend<T>(a: seq<T>, b: seq<T>, keep: set<T>)
    ensures Filter(a + b, keep) == Filter(a, keep) + Filter(b, keep)
    ensures Elements(a) <= keep ==> Filter(a, keep) == a
  {
    if a == [] {
      assert a + b == b;
    } else {
      assert (a + b)[1..] == a[1..] + b;
      assert forall x | x in a[1..] :: x in Elements(a);
      assert a[0] in Elements(a);
      FilterAppend(a[1..], b, keep);
    }
  }

  function First(s: seq<Proactor>, end: Proactor?): Proactor? {
    if s == [] then end else s[0]
  }

  /** The links lead through `s` and then to `end`. */
  ghost predicate Segment(s: seq<Proactor>, end: Proactor?)
    reads s`next
  {
    && (forall i, j | 0 <= i < j < |s| && j == i + 1 :: s[i].next == s[j])
    && (s != [] ==> s[|s| - 1].next == end)
  }

  class EndgameList {
    var head: Proactor?
    ghost var nodes: seq<Proactor>

    ghost predicate Valid()
      reads this, nodes
    {
      && head == First(nodes, null) && Segment(nodes, null) && Distinct(nodes)
      && forall p | p in nodes :: p.deleted
    }

    constructor ()
      ensures Valid() && nodes == []
    {
      head, nodes := null, [];
    }

    /** `add_endgame_proactor`. */
    method Add(p: Proactor)
      requires Valid() && p !in nodes && !p.deleted
      modifies this, p`deleted, p`next
      ensures Valid() && nodes == [p] + old(nodes)
    {
      p.deleted := true;
      p.next := head;
      head := p;
      nodes := [p] + nodes;
    }

    /** The chain in the middle of a sweep: `kept` is behind `cur`, `rest` starts at it. */
    ghost predicate Chain(kept: seq<Proactor>, rest: seq<Proactor>, prev: Proactor?, cur: Proactor?)
      reads this`head, kept`next, rest`next
    {
      && head == First(kept, cur) && Segment(kept, cur) && Distinct(kept)
      && cur == First(rest, null) && Segment(rest, null) && Distinct(rest)
      && prev == (if kept == [] then null else kept[|kept| - 1])
    }

    /** `*cur = next` in the sweep: the head or the link of the last kept node skips the first of `rest`,
        which is released by now; `next` was its link. */
    method Skip(prev: Proactor?, next: Proactor?, ghost cur: Proactor, ghost kept: seq<Proactor>,
                ghost rest: seq<Proactor>)
      requires Chain(kept, rest, prev, cur) && cur.next == next && forall p | p in kept :: p !in rest
      modifies this`head, (if prev == null then {} else {prev})`next
      ensures Chain(kept, rest[1..], prev, next)
    {
      if prev == null {
        head := next;
      } else {
        prev.next := next;
      }
    }

    method Keep(cur: Proactor, ghost kept: seq<Proactor>, ghost rest: seq<Proactor>, ghost prev: Proactor?)
      returns (next: Proactor?)
      requires Chain(kept, rest, prev, cur) && forall p | p in kept :: p !in rest
      ensures Chain(kept + [cur], rest[1..], cur, next)
    {
      assert cur in rest;
      next := cur.next;
    }

    /** Of all nodes, those in `alive` are untouched and the others were released once more than `before`. */
    ghost predicate Released(all: set<Proactor>, before: map<Proactor, nat>, alive: set<Proactor>)
      reads all`releases, all`deleted
    {
      && alive <= all
      && (forall p | p in all :: p in before && p.releases == before[p] + if p in alive then 0 else 1)
      && (forall p | p in all && p in alive :: p.deleted)
    }

    ghost predicate Parts(alive: set<Proactor>, kept: seq<Proactor>, rest: seq<Proactor>) {
      && (forall p | p in kept :: p in alive && p !in rest) && (forall p | p in rest :: p in alive)
      && (forall p | p in alive :: p in kept || p in rest)
    }

    /** Gives back the node `cur`, after dropping its flags when enforcing. */
    method Free(cur: Proactor, enforcing: bool, ghost all: set<Proactor>, ghost before: map<Proactor, nat>,
                ghost alive: set<Proactor>)
      requires cur in alive && (enforcing || cur.Idle()) && Released(all, before, alive)
      modifies cur`deleted, cur`reading, cur`writing, cur`releases
      ensures Released(all, before, alive - {cur})
    {
      if enforcing {
        cur.deleted, cur.reading, cur.writing := false, false, false;
      }
      cur.Release();
    }

    /** The nodes a sweep keeps. */
    ghost function Kept(enforcing: bool): set<Proactor>
      reads this, nodes
    {
      set p | p in nodes && !enforcing && !p.Idle()
    }

    /** The state in the middle of a sweep. */
    ghost predicate Sweeping(enforcing: bool, all: set<Proactor>, before: map<Proactor, nat>, keep: set<Proactor>,
                             kept: seq<Proactor>, rest: seq<Proactor>, alive: set<Proactor>, prev: Proactor?,
                             cur: Proactor?)
      reads this`head, kept`next, rest`next, all`releases, all`deleted, rest`reading, rest`writing
    {
      && Chain(kept, rest, prev, cur) && Parts(alive, kept, rest) && Released(all, before, alive)
      && forall p | p in rest :: p in keep <==> !enforcing && !p.Idle()
    }

    /** A node without outstanding I/O, or any when enforcing, is released and skipped. */
    method Drop(prev: Proactor?, cur: Proactor, enforcing: bool, ghost all: set<Proactor>,
                ghost before: map<Proactor, nat>, ghost kept: seq<Proactor>, ghost rest: seq<Proactor>,
                ghost alive: set<Proactor>, ghost keep: set<Proactor>)
      returns (next: Proactor?)
      requires Sweeping(enforcing, all, before, keep, kept, rest, alive, prev, cur) && (enforcing || cur.Idle())
      modifies this`head, all
      ensures Sweeping(enforcing, all, before, keep, kept, rest[1..], alive - {cur}, prev, next)
    {
      assert cur in rest && cur !in rest[1..];
      next := cur.next;
      Free(cur, enforcing, all, before, alive);
      Skip(prev, next, cur, kept, rest);
    }

    /** One round of the sweep, at the node `cur`. */
    method Visit(prev: Proactor?, cur: Proactor, enforcing: bool, ghost all: set<Proactor>,
                 ghost before: map<Proactor, nat>, ghost kept: seq<Proactor>, ghost rest: seq<Proactor>,
                 ghost alive: set<Proactor>, ghost keep: set<Proactor>)
      returns (prev': Proactor?, cur': Proactor?, ghost kept': seq<Proactor>, ghost alive': set<Proactor>)
      requires Sweeping(enforcing, all, before, keep, kept, rest, alive, prev, cur)
      modifies this`head, all
      ensures Sweeping(enforcing, all, before, keep, kept', rest[1..], alive', prev', cur')
      ensures kept + Filter(rest, keep) == kept' + Filter(rest[1..], keep)
    {
      assert cur in rest && cur !in rest[1..];
      if enforcing || cur.Idle() {
        kept', prev', alive' := kept, prev, alive - {cur};
        cur' := Drop(prev, cur, enforcing, all, before, kept, rest, alive, keep);
      } else {
        cur' := Keep(cur, kept, rest, prev);
        kept', prev', alive' := kept + [cur], cur, alive;
      }
    }

    /** The loop of the sweep. */
    method VisitAll(enforcing: bool, ghost all: set<Proactor>, ghost before: map<Proactor, nat>,
                    ghost keep: set<Proactor>)
      returns (ghost kept: seq<Proactor>, ghost alive: set<Proactor>)
      requires Sweeping(enforcing, all, before, keep, [], nodes, all, null, head)
      modifies this`head, all
      ensures Chain(kept, [], if kept == [] then null else kept[|kept| - 1], null)
      ensures Parts(alive, kept, []) && Released(all, before, alive) && kept == Filter(nodes, keep)
    {
      ghost var rest := nodes;
      kept, alive := [], all;
      var prev: Proactor?, cur := null, head;
      while cur != null
        invariant Sweeping(enforcing, all, before, keep, kept, rest, alive, prev, cur)
        invariant Filter(nodes, keep) == kept + Filter(rest, keep)
        decreases |rest|
      {
        prev, cur, kept, alive := Visit(prev, cur, enforcing, all, before, kept, rest, alive, keep);
        rest := rest[1..];
      }
    }

    /** `__process_endgame_proactor`: in one pass over the links, exactly the nodes without outstanding
        I/O (all nodes when enforcing) are released, each once, and the others stay in order. */
    method Sweep(enforcing: bool)
      requires Valid()
      modifies this, nodes
      ensures Valid() && nodes == Filter(old(nodes), old(Kept(enforcing)))
      ensures forall p | p in old(nodes) :: p.releases == old(p.releases) + if p in nodes then 0 else 1
    {
      ghost var keep, all := Kept(enforcing), set p | p in nodes;
      ghost var kept, alive := VisitAll(enforcing, all, map p | p in all :: p.releases, keep);
      nodes := kept;
    }
  }
}
