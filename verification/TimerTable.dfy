/** The timers of a loop as their users see them, without the heap: what calls, firings and passes do to them. */
module TimerTable {
  import opened Sequences
  import opened Times
  import opened TimerHeap

  /** One call user code may make on a timer; `memory` is the outcome of a reallocation. */
  datatype Action =
    | Arm(node: Node, after: TimeVal, repeat: bool, memory: bool)
    | Disarm(node: Node)
    | Free(node: Node)

  /** What can go wrong: a timer is put back behind the end of a full array, or its memory is given back while
      its node is in the heap. */
  datatype Fault = Sound | Overrun | Dangling

  datatype Timer = Timer(armed: bool, timeout: TimeVal, after: TimeVal, repeat: bool,
                         invoking: bool, deleted: bool, released: bool, releases: nat)
  {
    function Due(): int {
      Micros(timeout)
    }
  }

  /** All timers, how many are armed, and how many the array of the heap has room for. */
  datatype Table = Table(timers: map<Node, Timer>, size: int, capacity: int)

  /** Timers are marked as freed only inside their own callback, and none is released twice. */
  ghost predicate SaneTimer(x: Timer) {
    && Normal(x.timeout) && Normal(x.after)
    && (x.deleted ==> x.invoking && !x.released)
    && x.releases == if x.released then 1 else 0
  }

  ghost predicate Sane(t: Table) {
    t.size <= t.capacity && forall n | n in t.timers :: SaneTimer(t.timers[n])
  }

  /** No released timer is armed. */
  ghost predicate Clean(t: Table) {
    forall n | n in t.timers :: t.timers[n].released ==> !t.timers[n].armed
  }

  /** No timer is inside its callback. */
  ghost predicate Quiet(t: Table) {
    forall n | n in t.timers :: !t.timers[n].invoking && !t.timers[n].deleted
  }

  /** Skipped are only calls on memory that is gone, and freeing a timer twice, which the code asserts against. */
  ghost predicate Skipped(x: Timer, a: Action) {
    x.released || (a.Free? && x.deleted)
  }

  /** The result of a call on the timer `x`; `full` tells that the array has no free slot. */
  ghost function Outcome(x: Timer, full: bool, a: Action): Code {
    if Skipped(x, a) then Fail else
      match a
      case Arm(_, after, _, memory) =>
        if x.armed then Fail
        else if !Normal(after) then InvalidArg
        else if full && !memory then OutOfMemory
        else Success
      case Disarm(_) => if x.invoking || x.armed then Success else Fail
      case Free(_) => Success
  }

  /** The instant `after` from `now`, for proper values of both. */
  ghost function Deadline(now: TimeVal, after: TimeVal): TimeVal {
    if Normal(now) && Normal(after) then Add(now, after) else now
  }

  /** The timer `x` after a call on it. Inside its own callback a deletion only stops the repetition. */
  ghost function Acted(x: Timer, full: bool, a: Action, now: TimeVal): Timer {
    if Skipped(x, a) then x else
      match a
      case Arm(_, after, repeat, memory) =>
        if x.armed || !Normal(after) then x
        else x.(armed := !full || memory, timeout := Deadline(now, after), after := after, repeat := repeat)
      case Disarm(_) => if x.invoking then x.(repeat := false) else x.(armed := false)
      case Free(_) =>
        if x.invoking then x.(armed := false, repeat := false, deleted := true)
        else x.(armed := false, released := true, releases := x.releases + 1)
  }

  ghost function Count(b: bool): nat {
    if b then 1 else 0
  }

  /** The array has no free slot. */
  ghost predicate Full(t: Table) {
    t.size == t.capacity
  }

  ghost function CodeOf(t: Table, a: Action): Code {
    if a.node in t.timers then Outcome(t.timers[a.node], Full(t), a) else Fail
  }

  /** The table with `y` in place of a timer. */
  ghost function With(t: Table, n: Node, y: Timer, capacity: int): (u: Table)
    requires n in t.timers
    ensures u.timers.Keys == t.timers.Keys
  {
    Table(t.timers[n := y], t.size + Count(y.armed) - Count(t.timers[n].armed), capacity)
  }

  lemma WithTwice(t: Table, n: Node, y: Timer, z: Timer, c: int, capacity: int)
    requires n in t.timers
    ensures With(With(t, n, y, c), n, z, capacity) == With(t, n, z, capacity)
  {
    assert With(With(t, n, y, c), n, z, capacity).timers == With(t, n, z, capacity).timers;
  }

  /** One call. */
  ghost function Called(t: Table, a: Action, now: TimeVal): (u: Table)
    ensures u.timers.Keys == t.timers.Keys
  {
    if a.node !in t.timers then t else
      var x := t.timers[a.node];
      var y := Acted(x, Full(t), a, now);
      With(t, a.node, y, t.capacity + if Full(t) && y.armed && !x.armed then GROWTH else 0)
  }

  /** User code: any finite sequence of calls. */
  ghost function Ran(t: Table, calls: seq<Action>, now: TimeVal): (u: Table)
    ensures u.timers.Keys == t.timers.Keys
  {
    if calls == [] then t
    else Called(Ran(t, calls[..|calls| - 1], now), calls[|calls| - 1], now)
  }

  ghost function Codes(t: Table, calls: seq<Action>, now: TimeVal): (codes: seq<Code>)
    ensures |codes| == |calls|
  {
    if calls == [] then []
    else
      var k := |calls| - 1;
      Codes(t, calls[..k], now) + [CodeOf(Ran(t, calls[..k], now), calls[k])]
  }

  ghost predicate Unnamed(n: Node, calls: seq<Action>) {
    forall a | a in calls :: a.node != n
  }

  /** Whatever is armed is armed with a delay of at least `d` microseconds. */
  ghost predicate Delayed(calls: seq<Action>, d: nat) {
    forall a | a in calls && a.Arm? && Normal(a.after) :: d <= Micros(a.after)
  }

  /** What `calls` on any timers do to one timer `n`: nothing if they do not name it, they free it if they say so
      and not otherwise, and what they arm lies at least `d` after `now`. */
  ghost predicate Moves(n: Node, x: Timer, y: Timer, calls: seq<Action>, now: TimeVal, d: nat) {
    && SaneTimer(y) && y.invoking == x.invoking
    && (Unnamed(n, calls) ==> y == x)
    && (y.deleted || y.released <==> x.deleted || x.released || Free(n) in calls)
    && (if x.invoking then y.released == x.released else y.deleted == x.deleted)
    && (y.armed ==> (x.armed && y.timeout == x.timeout) || Micros(now) + d <= y.Due())
    && (y.repeat ==> (x.repeat && y.after == x.after) || d <= Micros(y.after))
    && (y.released && y.armed ==> x.released && x.armed)
  }

  lemma ActedMoves(n: Node, x: Timer, full: bool, a: Action, now: TimeVal, d: nat)
    requires Normal(now) && SaneTimer(x) && Delayed([a], d) && a.node == n
    ensures Moves(n, x, Acted(x, full, a, now), [a], now, d)
  {
    assert a in [a];
  }

  lemma MovesOn(n: Node, x: Timer, y: Timer, z: Timer, calls: seq<Action>, a: Action, now: TimeVal, d: nat)
    requires Moves(n, x, y, calls, now, d)
    requires if a.node == n then Moves(n, y, z, [a], now, d) else z == y
    ensures Moves(n, x, z, calls + [a], now, d)
  {
    assert forall b | b in calls :: b in calls + [a];
    assert a in calls + [a];
  }

  lemma {:induction false} CallsMove(t: Table, n: Node, calls: seq<Action>, now: TimeVal, d: nat)
    requires Sane(t) && Normal(now) && n in t.timers && Delayed(calls, d)
    ensures Moves(n, t.timers[n], Ran(t, calls, now).timers[n], calls, now, d)
  {
    if calls == [] {
    } else {
      var k := |calls| - 1;
      var a := calls[k];
      var u := Ran(t, calls[..k], now);
      assert calls == calls[..k] + [a];
      CallsMove(t, n, calls[..k], now, d);
      if a.node == n {
        ActedMoves(n, u.timers[n], Full(u), a, now, d);
      }
      MovesOn(n, t.timers[n], u.timers[n], Called(u, a, now).timers[n], calls[..k], a, now, d);
    }
  }

  lemma CallKeeps(t: Table, a: Action, now: TimeVal)
    requires Sane(t) && Normal(now)
    ensures Sane(Called(t, a, now)) && t.capacity <= Called(t, a, now).capacity
  {
    if a.node in t.timers {
      ActedMoves(a.node, t.timers[a.node], Full(t), a, now, 0);
    }
  }

  lemma {:induction false} CallsKeep(t: Table, calls: seq<Action>, now: TimeVal)
    requires Sane(t) && Normal(now)
    ensures Sane(Ran(t, calls, now)) && t.capacity <= Ran(t, calls, now).capacity
  {
    if calls == [] {
    } else {
      CallsKeep(t, calls[..|calls| - 1], now);
      CallKeeps(Ran(t, calls[..|calls| - 1], now), calls[|calls| - 1], now);
    }
  }

  /** The call puts a timer into the heap, or takes one out. */
  ghost predicate Enters(t: Table, a: Action, now: TimeVal) {
    a.node in t.timers && !t.timers[a.node].armed && Called(t, a, now).timers[a.node].armed
  }

  ghost predicate Leaves(t: Table, a: Action, now: TimeVal) {
    a.node in t.timers && t.timers[a.node].armed && !Called(t, a, now).timers[a.node].armed
  }

  ghost function Entering(t: Table, calls: seq<Action>, now: TimeVal): nat {
    if calls == [] then 0 else
      var k := |calls| - 1;
      Entering(t, calls[..k], now) + Count(Enters(Ran(t, calls[..k], now), calls[k], now))
  }

  ghost function Leaving(t: Table, calls: seq<Action>, now: TimeVal): nat {
    if calls == [] then 0 else
      var k := |calls| - 1;
      Leaving(t, calls[..k], now) + Count(Leaves(Ran(t, calls[..k], now), calls[k], now))
  }

  lemma {:induction false} SizeIsConserved(t: Table, calls: seq<Action>, now: TimeVal)
    ensures Ran(t, calls, now).size == t.size + Entering(t, calls, now) - Leaving(t, calls, now)
  {
    if calls == [] {
    } else {
      SizeIsConserved(t, calls[..|calls| - 1], now);
    }
  }

  /** The calls free `n` and later add it again with a proper delay. */
  ghost predicate AddsAfterFree(n: Node, calls: seq<Action>, i: int, j: int) {
    0 <= i < j < |calls| && calls[i] == Free(n) && Adds(n, calls[j])
  }

  ghost predicate Adds(n: Node, a: Action) {
    a.Arm? && a.node == n && Normal(a.after)
  }

  /** An array without a free slot is reallocated. */
  ghost predicate Fits(t: Table, a: Action) {
    Full(t) && a.Arm? ==> a.memory
  }

  ghost predicate Readds(t: Table, n: Node, calls: seq<Action>, now: TimeVal) {
    exists i, j :: AddsAfterFree(n, calls, i, j) && Fits(Ran(t, calls[..j], now), calls[j])
  }

  lemma ReaddsNext(t: Table, n: Node, calls: seq<Action>, a: Action, now: TimeVal)
    ensures Readds(t, n, calls + [a], now) <==>
      Readds(t, n, calls, now) || (Free(n) in calls && Adds(n, a) && Fits(Ran(t, calls, now), a))
  {
    var all := calls + [a];
    assert all[..|calls|] == calls && forall j | 0 <= j < |calls| :: all[..j] == calls[..j];
    if Readds(t, n, calls, now) {
      var i, j :| AddsAfterFree(n, calls, i, j) && Fits(Ran(t, calls[..j], now), calls[j]);
      assert AddsAfterFree(n, all, i, j) && all[..j] == calls[..j];
    } else if Free(n) in calls && Adds(n, a) && Fits(Ran(t, calls, now), a) {
      var i :| 0 <= i < |calls| && calls[i] == Free(n);
      assert AddsAfterFree(n, all, i, |calls|);
    }
    if Readds(t, n, all, now) {
      var i, j :| AddsAfterFree(n, all, i, j) && Fits(Ran(t, all[..j], now), all[j]);
      assert j < |calls| ==> AddsAfterFree(n, calls, i, j);
    }
  }

  /** A timer freed inside its own callback is armed at the end exactly when it is added again afterwards. */
  lemma {:induction false} MarkedIsArmedIff(t: Table, n: Node, calls: seq<Action>, now: TimeVal)
    requires Sane(t) && Normal(now) && n in t.timers
    requires t.timers[n].invoking && !t.timers[n].deleted && !t.timers[n].released
    ensures var y := Ran(t, calls, now).timers[n];
      !y.released && (y.deleted <==> Free(n) in calls) && (y.deleted ==> (y.armed <==> Readds(t, n, calls, now)))
  {
    if calls == [] {
    } else {
      var k := |calls| - 1;
      assert calls == calls[..k] + [calls[k]];
      MarkedIsArmedIff(t, n, calls[..k], now);
      CallsMove(t, n, calls, now, 0);
      ReaddsNext(t, n, calls[..k], calls[k], now);
    }
  }

  /** The timer leaves the heap and its callback is entered. */
  ghost function Started(t: Table, n: Node): (u: Table)
    ensures u.timers.Keys == t.timers.Keys
  {
    if n !in t.timers then t
    else With(t, n, t.timers[n].(armed := false, invoking := true), t.capacity)
  }

  /** What is wrong when the user callback of `x` has returned. */
  ghost function FaultAt(x: Timer, full: bool): Fault {
    if x.deleted then if x.armed then Dangling else Sound
    else if x.repeat && !x.armed && full then Overrun
    else Sound
  }

  /** A marked timer is released and a repeating one put back, unless there is no slot for it. */
  ghost function Left(x: Timer, full: bool, now: TimeVal): Timer {
    if x.deleted then x.(invoking := false, deleted := false, released := true, releases := x.releases + 1)
    else if x.repeat && !x.armed then x.(invoking := false, armed := !full, timeout := Deadline(now, x.after))
    else x.(invoking := false)
  }

  ghost function Returned(t: Table, n: Node, now: TimeVal): (u: Table)
    ensures u.timers.Keys == t.timers.Keys
  {
    if n !in t.timers then t
    else With(t, n, Left(t.timers[n], Full(t), now), t.capacity)
  }

  /** The timer `n` fires and its callback makes `calls`. */
  ghost function Fired(t: Table, n: Node, calls: seq<Action>, now: TimeVal): (u: Table)
    ensures u.timers.Keys == t.timers.Keys
  {
    Returned(Ran(Started(t, n), calls, now), n, now)
  }

  ghost function FaultOf(t: Table, n: Node, calls: seq<Action>, now: TimeVal): Fault {
    var u := Ran(Started(t, n), calls, now);
    if n in u.timers then FaultAt(u.timers[n], Full(u)) else Sound
  }

  /** Between callbacks, when no fault has happened. */
  ghost predicate AtRest(t: Table) {
    Sane(t) && Quiet(t) && Clean(t)
  }

  /** A released timer is left in the heap if and only if its callback frees it and then adds it again, there being
      room. */
  lemma DanglesIff(t: Table, n: Node, calls: seq<Action>, now: TimeVal)
    requires AtRest(t) && Normal(now) && n in t.timers && !t.timers[n].released
    ensures FaultOf(t, n, calls, now) == Dangling <==> Readds(Started(t, n), n, calls, now)
  {
    var s := Started(t, n);
    MarkedIsArmedIff(s, n, calls, now);
    if Readds(s, n, calls, now) {
      var i, j :| AddsAfterFree(n, calls, i, j) && Fits(Ran(s, calls[..j], now), calls[j]);
      assert calls[i] in calls;
    }
  }

  /** Every reallocation succeeds. */
  ghost predicate Plenty(calls: seq<Action>) {
    forall a | a in calls && a.Arm? :: a.memory
  }

  /** With memory at hand the calls alone decide. */
  lemma DanglesWithMemoryIff(t: Table, n: Node, calls: seq<Action>, now: TimeVal)
    requires AtRest(t) && Normal(now) && n in t.timers && !t.timers[n].released && Plenty(calls)
    ensures FaultOf(t, n, calls, now) == Dangling <==> exists i, j :: AddsAfterFree(n, calls, i, j)
  {
    DanglesIff(t, n, calls, now);
    forall i, j | AddsAfterFree(n, calls, i, j) ensures Fits(Ran(Started(t, n), calls[..j], now), calls[j]) {
      assert calls[j] in calls;
    }
  }

  /** The array is overrun only by a callback whose calls put more timers into the heap than they take out. */
  lemma OverrunNeedsEntries(t: Table, n: Node, calls: seq<Action>, now: TimeVal)
    requires AtRest(t) && Normal(now) && n in t.timers && Started(t, n).size < t.capacity
    requires FaultOf(t, n, calls, now) == Overrun
    ensures Entering(Started(t, n), calls, now) > Leaving(Started(t, n), calls, now)
  {
    CallsKeep(Started(t, n), calls, now);
    SizeIsConserved(Started(t, n), calls, now);
  }

  lemma {:induction false} EntriesNeedArm(t: Table, calls: seq<Action>, now: TimeVal)
    requires forall a | a in calls :: !a.Arm?
    ensures Entering(t, calls, now) == 0
  {
    if calls == [] {
    } else {
      assert calls[|calls| - 1] in calls;
      EntriesNeedArm(t, calls[..|calls| - 1], now);
    }
  }

  /** In particular a callback that arms nothing does not overrun it. */
  lemma OverrunNeedsArm(t: Table, n: Node, calls: seq<Action>, now: TimeVal)
    requires AtRest(t) && Normal(now) && n in t.timers && Started(t, n).size < t.capacity
    requires forall a | a in calls :: !a.Arm?
    ensures FaultOf(t, n, calls, now) != Overrun
  {
    EntriesNeedArm(Started(t, n), calls, now);
    if FaultOf(t, n, calls, now) == Overrun {
      OverrunNeedsEntries(t, n, calls, now);
    }
  }

  /** What a fault of the callback of `n` says about its calls, made from `t` on. */
  ghost predicate Explained(t: Table, n: Node, calls: seq<Action>, now: TimeVal, fault: Fault) {
    && (fault == Dangling <==> Readds(t, n, calls, now))
    && (Plenty(calls) ==> (fault == Dangling <==> exists i, j :: AddsAfterFree(n, calls, i, j)))
    && (fault == Overrun ==> Entering(t, calls, now) > Leaving(t, calls, now) && exists a :: a in calls && a.Arm?)
  }

  /** When the callback returns its timer is still there, and its calls tell the fault. */
  lemma FaultIsExplained(t: Table, n: Node, calls: seq<Action>, now: TimeVal)
    requires AtRest(t) && Normal(now) && n in t.timers && !t.timers[n].released && Started(t, n).size < t.capacity
    ensures var y := Ran(Started(t, n), calls, now).timers[n]; SaneTimer(y) && y.invoking && !y.released
    ensures Explained(Started(t, n), n, calls, now, FaultOf(t, n, calls, now))
  {
    CallsMove(Started(t, n), n, calls, now, 0);
    DanglesIff(t, n, calls, now);
    if Plenty(calls) {
      DanglesWithMemoryIff(t, n, calls, now);
    }
    if FaultOf(t, n, calls, now) == Overrun {
      OverrunNeedsEntries(t, n, calls, now);
      if forall a | a in calls :: !a.Arm? {
        OverrunNeedsArm(t, n, calls, now);
      }
    }
  }
}
