/** The timer heap: an array of node pointers, each node knowing its own position. */
module TimerHeap {
  import opened Sequences
  import opened Times
  import opened HeapOrder

  datatype Code = Success | Fail | InvalidArg | OutOfMemory

  /** `(unsigned int)-1`, the index of a node that is in no heap. */
  const INACTIVE := -1

  const GROWTH := 64

  /** A timer node together with the timer event it is embedded in. */
  class Node {
    var idx: int
    var timeout: TimeVal
    var after: TimeVal
    var repeat: bool
    var invoking: bool
    var deleted: bool
    /** The event's memory has been given back, and how often. */
    var released: bool
    ghost var releases: nat

    constructor ()
      ensures idx == INACTIVE && Normal(timeout) && Normal(after)
      ensures !repeat && !invoking && !deleted && !released && releases == 0
    {
      idx := INACTIVE;
      timeout, after := TimeVal(0, 0), TimeVal(0, 0);
      repeat, invoking, deleted, released, releases := false, false, false, false, 0;
    }

    predicate Active()
      reads this`idx
    {
      idx != INACTIVE
    }

    function Due(): int
      reads this`timeout
    {
      Micros(timeout)
    }
  }

  /** `ks` lists the deadlines of the nodes `vs`. */
  ghost predicate Keyed(vs: seq<Node>, ks: seq<int>)
    reads set i | 0 <= i < |vs| :: vs[i]
  {
    |ks| == |vs| && forall i | 0 <= i < |vs| :: ks[i] == vs[i].Due()
  }

  ghost function Deadlines(vs: seq<Node>): (ks: seq<int>)
    reads set i | 0 <= i < |vs| :: vs[i]
    ensures Keyed(vs, ks)
  {
    seq(|vs|, k requires 0 <= k < |vs| reads set i | 0 <= i < |vs| :: vs[i] => vs[k].Due())
  }

  class Heap {
    var events: array<Node?>
    var size: nat
    /** Every node that was ever initialised for this heap. */
    ghost var all: set<Node>
    /** `events[..size]`, without the possibility of null. */
    ghost var contents: seq<Node>

    constructor ()
      ensures Valid() && size == 0 && all == {} && events.Length == 0 && fresh(events)
    {
      events := new Node?[0];
      size, all, contents := 0, {}, [];
    }

    /** Positions and back indices agree, and nodes outside the heap carry no index. */
    ghost predicate Indexed()
      reads this, events, all`idx, all`timeout
    {
      && |contents| == size <= events.Length
      && (forall i | 0 <= i < size :: events[i] == contents[i] && contents[i] in all && contents[i].idx == i)
      && (forall n | n in all :: n.idx == INACTIVE || (0 <= n.idx < size && contents[n.idx] == n))
      && (forall n | n in all :: Normal(n.timeout))
    }

    ghost predicate Valid()
      reads this, events, all`idx, all`timeout
    {
      && Indexed()
      && (forall p, c | 0 <= p < c < size && IsChild(p, c) :: contents[p].Due() <= contents[c].Due())
    }

    /** `timer_node_init`. */
    method Adopt(node: Node)
      requires Valid() && !node.Active() && Normal(node.timeout)
      modifies this`all
      ensures Valid() && all == old(all) + {node}
    {
      all := all + {node};
    }

    /** The root has the earliest deadline of all active nodes. */
    lemma RootIsEarliest(n: Node)
      requires Valid() && n in all && n.Active()
      ensures size > 0 && contents[0].Due() <= n.Due()
    {
      var ks := Deadlines(contents);
      RootIsMin(ks, n.idx);
    }

    /** The reallocation of the array. */
    method Reallocate(capacity: nat)
      requires Valid() && capacity > events.Length
      modifies this`events
      ensures Valid() && fresh(events) && events.Length == capacity
    {
      var grown := new Node?[capacity];
      forall i | 0 <= i < events.Length {
        grown[i] := events[i];
      }
      events := grown;
    }

    /** `min_heap_reserve`; `memory` tells whether `realloc` succeeds. */
    method Reserve(required: nat, memory: bool) returns (code: Code)
      requires Valid()
      modifies this`events
      ensures Valid()
      ensures code == if required > old(events.Length) && !memory then OutOfMemory else Success
      ensures code == Success ==> events.Length >= required
      ensures events == old(events) || (fresh(events) && old(events.Length) < events.Length < required + GROWTH)
      ensures events == old(events) <==> (required <= old(events.Length) || !memory)
      ensures (events.Length - old(events.Length)) % GROWTH == 0
    {
      if events.Length < required {
        var capacity := events.Length;
        while capacity < required
          invariant events.Length <= capacity < required + GROWTH
          invariant (capacity - events.Length) % GROWTH == 0
        {
          capacity := capacity + GROWTH;
        }
        if !memory {
          return OutOfMemory;
        }
        Reallocate(capacity);
      }
      return Success;
    }

    /** The array holds the layout `ws`, except that slot `h` is still to be written. */
    ghost predicate HoleAt(ws: seq<Node>, h: int)
      reads this`events, events, Elements(ws)`idx, Elements(ws)`timeout
    {
      && 0 <= h < |ws| <= events.Length && Distinct(ws)
      && (forall i | 0 <= i < |ws| :: Normal(ws[i].timeout))
      && (forall i | 0 <= i < |ws| && i != h :: events[i] == ws[i] && ws[i].idx == i)
    }

    ghost predicate Filled(ws: seq<Node>)
      reads this`events, events, Elements(ws)`idx, Elements(ws)`timeout
    {
      && |ws| <= events.Length && Distinct(ws)
      && (forall i | 0 <= i < |ws| :: events[i] == ws[i] && ws[i].idx == i)
    }

    /** Moves the node at `from` into the hole, which opens a hole at `from`. */
    method Pull(h: nat, from: nat, ghost ws: seq<Node>, ghost js: seq<int>)
      requires HoleAt(ws, h) && from < |ws| && from != h && Keyed(ws, js)
      modifies events, Elements(ws)`idx
      ensures Elements(Swap(ws, from, h)) == Elements(ws)
      ensures HoleAt(Swap(ws, from, h), from) && Keyed(Swap(ws, from, h), Swap(js, from, h))
    {
      SwapKeepsElements(ws, from, h);
      assert ws[from] in Elements(ws);
      events[h] := events[from];
      events[h].idx := h;
    }

    method Fill(h: nat, node: Node, ghost ws: seq<Node>)
      requires HoleAt(ws, h) && ws[h] == node
      modifies events, node`idx
      ensures Filled(ws)
    {
      events[h] := node;
      node.idx := h;
    }

    /** `min_heap_shift_up`: `vs` is the layout with `node` placed in the hole. */
    method ShiftUp(hole: nat, node: Node, ghost vs: seq<Node>, ghost ks: seq<int>)
      returns (ghost ws: seq<Node>, ghost js: seq<int>)
      requires HoleAt(vs, hole) && vs[hole] == node
      requires Keyed(vs, ks) && OrderedAbove(ks, hole)
      modifies events, Elements(vs)`idx
      ensures |ws| == |vs| && Elements(ws) == Elements(vs)
      ensures Filled(ws) && Keyed(ws, js) && Ordered(js)
    {
      ws, js := vs, ks;
      var h := hole;
      while h > 0
        invariant |ws| == |vs| && Elements(ws) == Elements(vs)
        invariant HoleAt(ws, h) && ws[h] == node
        invariant Keyed(ws, js) && OrderedAbove(js, h)
      {
        var parent := (h - 1) / 2;
        if Cmp(events[parent].timeout, node.timeout) <= 0 {
          break;
        }
        SiftUpStep(js, h);
        Pull(h, parent, ws, js);
        ws, js := Swap(ws, parent, h), Swap(js, parent, h);
        h := parent;
      }
      SiftUpStop(js, h);
      assert ws[h] in Elements(vs);
      Fill(h, node, ws);
    }

    /** The child to compare with in one round of `min_heap_shift_down`. */
    method SmallestChild(h: nat, ghost ws: seq<Node>, ghost js: seq<int>) returns (minChild: nat)
      requires 2 * h + 2 <= size == |ws| <= events.Length && Keyed(ws, js)
      requires forall i | h < i < |ws| :: events[i] == ws[i] && Normal(ws[i].timeout)
      ensures MinChild(js, h, minChild)
    {
      minChild := 2 * h + 2;
      if minChild == size {
        minChild := minChild - 1;
      } else if Cmp(events[minChild].timeout, events[minChild - 1].timeout) > 0 {
        minChild := minChild - 1;
      }
    }

    /** `min_heap_shift_down`: `vs` is the layout with `node` placed in the hole. Erasing the
        last node passes a hole one past the end, where only the slot itself is written. */
    method ShiftDown(hole: nat, node: Node, ghost vs: seq<Node>, ghost ks: seq<int>)
      returns (ghost ws: seq<Node>, ghost js: seq<int>)
      requires HoleAt(vs, hole) && vs[hole] == node
      requires |vs| == if hole == size then size + 1 else size
      requires Keyed(vs, ks) && OrderedBelow(ks, hole)
      modifies events, Elements(vs)`idx
      ensures |ws| == |vs| && Elements(ws) == Elements(vs)
      ensures Filled(ws) && Keyed(ws, js) && Ordered(js)
      ensures hole == size ==> ws == vs
    {
      ws, js := vs, ks;
      var h := hole;
      ghost var m := 0;
      while 2 * h + 2 <= size
        invariant |ws| == |vs| && Elements(ws) == Elements(vs)
        invariant HoleAt(ws, h) && ws[h] == node
        invariant Keyed(ws, js) && OrderedBelow(js, h)
        invariant hole == size ==> h == hole && ws == vs
        decreases size - h
      {
        var minChild := SmallestChild(h, ws, js);
        m := minChild;
        if Cmp(node.timeout, events[minChild].timeout) <= 0 {
          break;
        }
        SiftDownStep(js, h, minChild);
        Pull(h, minChild, ws, js);
        ws, js := Swap(ws, minChild, h), Swap(js, minChild, h);
        h := minChild;
      }
      SiftDownStop(js, h, m);
      assert ws[h] in Elements(vs);
      Fill(h, node, ws);
    }

    /** A filled, ordered layout that holds every node with an index is a valid heap. */
    lemma LayoutIsValid(js: seq<int>)
      requires size == |contents| && Filled(contents) && Keyed(contents, js) && Ordered(js)
      requires Elements(contents) <= all && (forall n | n in all :: Normal(n.timeout))
      requires forall n | n in all && n !in Elements(contents) :: !n.Active()
      ensures Valid() && forall x | x in all :: x.Active() <==> x in Elements(contents)
    {
      forall i | 0 <= i < size ensures contents[i] in all {
        assert contents[i] in Elements(contents);
      }
      forall n | n in Elements(contents) ensures 0 <= n.idx < size && contents[n.idx] == n {
        var i :| 0 <= i < size && contents[i] == n;
      }
    }

    /** The last two lines of `min_heap_insert`, also used on their own to repeat a timer. */
    method Place(node: Node)
      requires Valid() && node in all && !node.Active() && size < events.Length
      modifies this`size, this`contents, events, all`idx
      ensures Valid() && size == old(size) + 1
      ensures forall x | x in all :: x.Active() <==> old(x.Active()) || x == node
    {
      ghost var vs := contents + [node];
      ghost var ks := Deadlines(contents);
      AppendAbove(ks, node.Due());
      assert Elements(vs) == Elements(contents) + {node};
      ghost var ws, js := ShiftUp(size, node, vs, ks + [node.Due()]);
      size := size + 1;
      contents := ws;
      LayoutIsValid(js);
    }

    /** `min_heap_insert`. */
    method Insert(node: Node, memory: bool) returns (code: Code)
      requires Valid() && node in all && !node.Active()
      modifies this`events, this`size, this`contents, events, all`idx
      ensures Valid() && (events == old(events) || (fresh(events) && old(events.Length) < events.Length))
      ensures code == if old(size) == old(events.Length) && !memory then OutOfMemory else Success
      ensures forall x | x in all :: x.Active() <==> old(x.Active()) || (code == Success && x == node)
      ensures if code == Success then size == old(size) + 1 else size == old(size) && events == old(events)
      ensures events.Length == if old(size) == old(events.Length) && memory
                               then old(events.Length) + GROWTH else old(events.Length)
    {
      code := Reserve(size + 1, memory);
      if code == Success {
        Place(node);
      }
    }

    /** Every node with an index is `node` itself or part of the layout `us`. */
    ghost predicate Covers(us: seq<Node>, node: Node)
      reads this`all, all`idx, all`timeout
    {
      && Elements(us) <= all && node in all
      && forall x | x in all :: Normal(x.timeout) && (x in Elements(us) || x == node || !x.Active())
    }

    /** Once the last node takes the place of `node`, every other active node is still in the layout. */
    lemma LastMovedCovers(node: Node)
      requires Indexed() && node in all && node.Active()
      ensures var us := LastMovedTo(contents, node.idx);
        && Covers(us, node) && (node in us <==> node.idx == size - 1)
        && forall x | x in all :: x.Active() <==> x in Elements(us) || x == node
    {
      LastMovedElements(contents, node.idx);
      assert forall x | x in all && x.Active() :: contents[x.idx] == x;
    }

    /** And its position is the only one to repair. */
    lemma LastTakesPlace(node: Node, ks: seq<int>)
      requires Valid() && node in all && node.Active() && Keyed(contents, ks)
      ensures var i, us, hs := node.idx, LastMovedTo(contents, node.idx), LastMovedTo(ks, node.idx);
        HoleAt(us, i) && Keyed(us, hs) && Repairable(hs, i, size - 1)
    {
      LastMovedElements(contents, node.idx);
      LastMovedOrder(ks, node.idx);
    }

    /** The choice of direction in `min_heap_erase`. */
    method Refill(i: nat, last: Node, ghost node: Node, ghost us: seq<Node>, ghost hs: seq<int>)
      returns (ghost ws: seq<Node>, ghost js: seq<int>)
      requires HoleAt(us, i) && us[i] == last && Keyed(us, hs) && Repairable(hs, i, size) && Covers(us, node)
      requires |us| == if i == size then size + 1 else size
      modifies events, Elements(us)`idx
      ensures |ws| == |us| && Elements(ws) == Elements(us) && (i == size ==> ws == us)
      ensures Filled(ws) && Keyed(ws, js) && Ordered(js) && Covers(ws, node)
    {
      if i > 0 && Cmp(events[(i - 1) / 2].timeout, last.timeout) > 0 {
        ws, js := ShiftUp(i, last, us, hs);
      } else {
        ws, js := ShiftDown(i, last, us, hs);
      }
    }

    /** The last line of `min_heap_erase`. */
    method Detach(node: Node, ghost ws: seq<Node>, ghost js: seq<int>)
      requires Filled(ws) && Keyed(ws, js) && Ordered(js) && Covers(ws, node)
      requires if node in Elements(ws) then |ws| == size + 1 && ws[size] == node else |ws| == size
      modifies this`contents, node`idx
      ensures Valid() && forall x | x in all :: x.Active() <==> x in Elements(ws) && x != node
    {
      node.idx := INACTIVE;
      contents := ws[..size];
      assert Elements(contents) == Elements(ws) - {node};
      LayoutIsValid(js[..size]);
    }

    /** `min_heap_erase`: does nothing to a node that is in no heap. */
    method Erase(node: Node)
      requires Valid() && node in all
      modifies this`size, this`contents, events, all`idx
      ensures Valid() && forall x | x in all :: x.Active() <==> old(x.Active()) && x != node
      ensures size == if old(node.Active()) then old(size) - 1 else old(size)
    {
      if node.Active() {
        EraseActive(node);
      }
    }

    method EraseActive(node: Node)
      requires Valid() && node in all && node.Active()
      modifies this`size, this`contents, events, all`idx
      ensures Valid() && size == old(size) - 1
      ensures forall x | x in all :: x.Active() <==> old(x.Active()) && x != node
    {
      ghost var ks := Deadlines(contents);
      LastTakesPlace(node, ks);
      LastMovedCovers(node);
      ghost var us, hs := LastMovedTo(contents, node.idx), LastMovedTo(ks, node.idx);
      size := size - 1;
      ghost var ws, js := Refill(node.idx, events[size], node, us, hs);
      Detach(node, ws, js);
    }
  }
}
