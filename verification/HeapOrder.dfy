/** Heap order on a sequence of keys, with one position allowed to be out of place. */
module HeapOrder {
  import opened Sequences

  predicate IsChild(p: int, c: int) {
    c == 2 * p + 1 || c == 2 * p + 2
  }

  ghost predicate Ordered(ks: seq<int>) {
    forall p, c | 0 <= p < c < |ks| && IsChild(p, c) :: ks[p] <= ks[c]
  }

  /** The neighbours of position `h` are in order across it. */
  ghost predicate Bridged(ks: seq<int>, h: int) {
    forall p, c | 0 <= p < h < c < |ks| && IsChild(p, h) && IsChild(h, c) :: ks[p] <= ks[c]
  }

  /** Ordered, except that the key at `h` may be smaller than its parent. */
  ghost predicate OrderedAbove(ks: seq<int>, h: int) {
    && (forall p, c | 0 <= p < c < |ks| && IsChild(p, c) && c != h :: ks[p] <= ks[c])
    && Bridged(ks, h)
  }

  /** Ordered, except that the key at `h` may be larger than its children. */
  ghost predicate OrderedBelow(ks: seq<int>, h: int) {
    && (forall p, c | 0 <= p < c < |ks| && IsChild(p, c) && p != h :: ks[p] <= ks[c])
    && Bridged(ks, h)
  }

  function Swap<T>(s: seq<T>, i: int, j: int): (r: seq<T>)
    requires 0 <= i < |s| && 0 <= j < |s|
    ensures |r| == |s| && r[i] == s[j] && r[j] == s[i]
    ensures forall k | 0 <= k < |s| && k != i && k != j :: r[k] == s[k]
  {
    s[i := s[j]][j := s[i]]
  }

  lemma SwapKeepsElements<T>(s: seq<T>, i: int, j: int)
    requires 0 <= i < |s| && 0 <= j < |s| && Distinct(s)
    ensures Elements(Swap(s, i, j)) == Elements(s) && Distinct(Swap(s, i, j))
  {
    var r := Swap(s, i, j);
    forall x | x in s ensures x in r {
      var k :| 0 <= k < |s| && s[k] == x;
      assert r[if k == i then j else if k == j then i else k] == x;
    }
  }

  /** The root of an ordered heap holds the smallest key. */
  lemma {:induction false} RootIsMin(ks: seq<int>, i: int)
    requires Ordered(ks) && 0 <= i < |ks|
    ensures ks[0] <= ks[i]
    decreases i
  {
    if i == 0 {
    } else {
      var p := (i - 1) / 2;
      assert IsChild(p, i);
      RootIsMin(ks, p);
    }
  }

  /** Moving a too small key one level up leaves it the only key out of place. */
  lemma SiftUpStep(ks: seq<int>, h: int)
    requires 0 < h < |ks| && OrderedAbove(ks, h) && ks[(h - 1) / 2] > ks[h]
    ensures OrderedAbove(Swap(ks, (h - 1) / 2, h), (h - 1) / 2)
  {
    var q := (h - 1) / 2;
    var js := Swap(ks, q, h);
    assert IsChild(q, h);
    forall p, c | 0 <= p < c < |js| && IsChild(p, c) && c != q ensures js[p] <= js[c] {
      if p == q { if c != h { assert ks[q] <= ks[c]; } }
    }
    forall p, c | 0 <= p < q < c < |js| && IsChild(p, q) && IsChild(q, c) ensures js[p] <= js[c] {
      assert ks[p] <= ks[q];
      if c != h { assert ks[q] <= ks[c]; }
    }
  }

  /** A key no smaller than its parent needs no further move up. */
  lemma SiftUpStop(ks: seq<int>, h: int)
    requires 0 <= h < |ks| && OrderedAbove(ks, h)
    requires h == 0 || ks[(h - 1) / 2] <= ks[h]
    ensures Ordered(ks)
  {
    forall p, c | 0 <= p < c < |ks| && IsChild(p, c) ensures ks[p] <= ks[c] {
      if c == h { assert p == (h - 1) / 2; }
    }
  }

  /** `m` is a smallest child of `h`. */
  ghost predicate MinChild(ks: seq<int>, h: int, m: int) {
    && 0 <= h < m < |ks| && IsChild(h, m)
    && forall c | h < c < |ks| && IsChild(h, c) :: ks[m] <= ks[c]
  }

  /** Moving a too large key below its smallest child leaves it the only key out of place. */
  lemma SiftDownStep(ks: seq<int>, h: int, m: int)
    requires MinChild(ks, h, m) && OrderedBelow(ks, h) && ks[h] > ks[m]
    ensures OrderedBelow(Swap(ks, m, h), m)
  {
    var js := Swap(ks, m, h);
    forall p, c | 0 <= p < c < |js| && IsChild(p, c) && p != m ensures js[p] <= js[c] {
      if p == h { assert ks[m] <= ks[c]; }
      else if c == h { assert ks[p] <= ks[m]; }
    }
    forall p, c | 0 <= p < m < c < |js| && IsChild(p, m) && IsChild(m, c) ensures js[p] <= js[c] {
      assert p == h;
      assert ks[m] <= ks[c];
    }
  }

  /** A key no larger than its smallest child, or without children, needs no further move down. */
  lemma SiftDownStop(ks: seq<int>, h: int, m: int)
    requires 0 <= h < |ks| && OrderedBelow(ks, h)
    requires 2 * h + 1 >= |ks| || (MinChild(ks, h, m) && ks[h] <= ks[m])
    ensures Ordered(ks)
  {
    forall p, c | 0 <= p < c < |ks| && IsChild(p, c) ensures ks[p] <= ks[c] {
      if p == h { assert ks[m] <= ks[c]; }
    }
  }

  /** Appending a key leaves it the only one that may be out of place. */
  lemma AppendAbove(ks: seq<int>, k: int)
    requires Ordered(ks)
    ensures OrderedAbove(ks + [k], |ks|)
  {
  }

  /** Position `i` overwritten with the last element; the last position is dropped unless it is `i`. */
  function LastMovedTo<T>(s: seq<T>, i: int): (r: seq<T>)
    requires 0 <= i < |s|
    ensures |r| == if i == |s| - 1 then |s| else |s| - 1
    ensures r[i] == s[|s| - 1]
    ensures forall k | 0 <= k < |r| && k != i :: r[k] == s[k]
  {
    if i == |s| - 1 then s else s[..|s| - 1][i := s[|s| - 1]]
  }

  lemma LastMovedElements<T>(s: seq<T>, i: int)
    requires 0 <= i < |s| && Distinct(s)
    ensures Distinct(LastMovedTo(s, i))
    ensures Elements(LastMovedTo(s, i)) == if i == |s| - 1 then Elements(s) else Elements(s) - {s[i]}
  {
    var r := LastMovedTo(s, i);
    forall x | x in s && x != s[i] ensures x in r {
      var k :| 0 <= k < |s| && s[k] == x;
      assert r[if k == |s| - 1 then i else k] == x;
    }
  }

  /** Only the key at `i` is out of place, and comparing it with its parent tells the direction.
      A key standing at `n`, one past the end, is never moved up. */
  ghost predicate Repairable(js: seq<int>, i: int, n: int) {
    && 0 <= i < |js|
    && if i > 0 && js[(i - 1) / 2] > js[i] then i < n && OrderedAbove(js, i) else OrderedBelow(js, i)
  }

  lemma LastMovedOrder(ks: seq<int>, i: int)
    requires Ordered(ks) && 0 <= i < |ks|
    ensures Repairable(LastMovedTo(ks, i), i, |ks| - 1)
  {
    var js := LastMovedTo(ks, i);
    forall p, c | 0 <= p < i < c < |js| && IsChild(p, i) && IsChild(i, c) ensures js[p] <= js[c] {
      assert ks[p] <= ks[i] <= ks[c];
    }
    if i > 0 && js[(i - 1) / 2] > js[i] {
      var q := (i - 1) / 2;
      assert IsChild(q, i);
      forall p, c | 0 <= p < c < |js| && IsChild(p, c) && c != i ensures js[p] <= js[c] {
        if p == i { assert ks[q] <= ks[i] <= ks[c]; }
      }
    } else {
      forall p, c | 0 <= p < c < |js| && IsChild(p, c) && p != i ensures js[p] <= js[c] {
        if c == i { assert p == (i - 1) / 2; }
      }
    }
  }
}
