/** Timer events on top of the heap: arming, disarming, freeing, and firing with reentrant callbacks. Every method
    does to the heap what `TimerTable` says about the timers it stands for. */
module Timers {
  import opened Times
  import opened TimerHeap
  import opened TimerTable
  import opened TimerPass

  /** A timer as its users see it. */
  ghost function Of(n: Node): Timer
    reads n
  {
    Timer(n.Active(), n.timeout, n.after, n.repeat, n.invoking, n.deleted, n.released, n.releases)
  }

  ghost function View(h: Heap): (t: Table)
    reads h, h.all
    ensures t.timers.Keys == h.all && forall n | n in h.all :: t.timers[n] == Of(n)
  {
    Table(map n | n in h.all :: Of(n), h.size, h.events.Length)
  }

  /** The array is the same, or a larger copy. */
  twostate predicate Grown(h: Heap)
    reads h
  {
    h.events == old(h.events) || (fresh(h.events) && old(h.events.Length) < h.events.Length)
  }

  /** Other timers stay as they are. */
  twostate predicate OthersStay(h: Heap, n: Node)
    reads h, h.all
  {
    h.all == old(h.all) && forall x | x in old(h.all) && x != n :: Of(x) == old(Of(x))
  }

  /** The number of armed timers follows the timer `n`. */
  twostate predicate Counts(h: Heap, n: Node)
    reads h, n
  {
    h.size == old(h.size) + Count(n.Active()) - Count(old(n.Active()))
  }

  /** The deadline and the period of a timer about to be armed. */
  method Prepare(h: Heap, n: Node, now: TimeVal, after: TimeVal, repeat: bool)
    requires h.Valid() && n in h.all && !n.Active() && Normal(now) && Normal(after)
    modifies n`after, n`repeat, n`timeout
    ensures h.Valid() && n.after == after && n.repeat == repeat && n.timeout == Deadline(now, after)
  {
    n.after := after;
    n.repeat := repeat;
    n.timeout := Add(now, after);
  }

  /** `nanoev_timer_add`, given the loop's current time. It does not ask whether the timer is marked as freed. */
  method TimerAdd(h: Heap, n: Node, now: TimeVal, after: TimeVal, repeat: bool, memory: bool) returns (code: Code)
    requires h.Valid() && n in h.all && !n.released && Normal(now)
    modifies h, h.events, h.all`idx, n`after, n`repeat, n`timeout
    ensures h.Valid() && Grown(h) && OthersStay(h, n) && Counts(h, n)
    ensures Of(n) == Acted(old(Of(n)), old(h.size == h.events.Length), Arm(n, after, repeat, memory), now)
    ensures h.events.Length == old(h.events.Length) +
      if code == Success && old(h.size == h.events.Length) then GROWTH else 0
    ensures code == if old(n.Active()) then Fail else if !Normal(after) then InvalidArg
                    else if old(h.size == h.events.Length) && !memory then OutOfMemory else Success
    ensures code == Success ==> n.Active() && n.Due() == Micros(now) + Micros(after)
  {
    if n.Active() {
      return Fail;
    }
    if after.sec < 0 || after.usec < 0 || after.usec >= MICROS {
      return InvalidArg;
    }
    Prepare(h, n, now, after, repeat);
    code := h.Insert(n, memory);
  }

  /** `nanoev_timer_del`. Inside the timer's own callback it only stops the repetition, so a timer
      that its callback has armed again stays armed although the call reports success. */
  method TimerDel(h: Heap, n: Node) returns (code: Code)
    requires h.Valid() && n in h.all && !n.released
    modifies h, h.events, h.all`idx, n`repeat
    ensures h.Valid() && h.events == old(h.events) && OthersStay(h, n) && Counts(h, n)
    ensures Of(n) == if n.invoking then old(Of(n)).(repeat := false) else old(Of(n)).(armed := false)
    ensures code == if old(n.invoking || n.Active()) then Success else Fail
  {
    if n.invoking {
      n.repeat := false;
      return Success;
    }
    if !n.Active() {
      return Fail;
    }
    h.Erase(n);
    return Success;
  }

  /** Gives back the timer's memory. */
  method Release(n: Node)
    modifies n`released, n`releases
    ensures n.released && n.releases == old(n.releases) + 1
  {
    n.released := true;
    n.releases := n.releases + 1;
  }

  /** `timer_free`: at once, or at the end of the timer's own callback. */
  method TimerFree(h: Heap, n: Node)
    requires h.Valid() && n in h.all && !n.deleted && !n.released
    modifies h, h.events, h.all`idx, n`repeat, n`deleted, n`released, n`releases
    ensures h.Valid() && h.events == old(h.events) && OthersStay(h, n) && Counts(h, n)
    ensures !n.Active() && n.deleted == n.invoking == !n.released && n.repeat == (old(n.repeat) && n.released)
    ensures n.releases == old(n.releases) + Count(n.released)
  {
    h.Erase(n);
    if !n.invoking {
      Release(n);
    } else {
      n.repeat := false;
      n.deleted := true;
    }
  }

  /** The view of a heap in which only the timer `n` has changed since it was `t`. */
  lemma ViewIs(h: Heap, t: Table, n: Node)
    requires n in h.all && t.timers.Keys == h.all && forall x | x in h.all && x != n :: Of(x) == t.timers[x]
    requires h.size == t.size + Count(n.Active()) - Count(t.timers[n].armed)
    ensures View(h) == With(t, n, Of(n), h.events.Length)
  {
    assert View(h).timers == t.timers[n := Of(n)];
  }

  /** The call, unless it is one the model skips. */
  method Dispatch(h: Heap, a: Action, now: TimeVal) returns (code: Code)
    requires h.Valid() && Normal(now) && a.node in h.all
    modifies h, h.events, h.all
    ensures h.Valid() && Grown(h) && OthersStay(h, a.node) && Counts(h, a.node)
    ensures Of(a.node) == Acted(old(Of(a.node)), old(h.size == h.events.Length), a, now)
    ensures code == Outcome(old(Of(a.node)), old(h.size == h.events.Length), a)
    ensures h.events.Length == old(h.events.Length) +
      if a.Arm? && code == Success && old(h.size == h.events.Length) then GROWTH else 0
  {
    if a.node.released || (a.Free? && a.node.deleted) {
      return Fail;
    }
    match a {
      case Arm(n, after, repeat, memory) => code := TimerAdd(h, n, now, after, repeat, memory);
      case Disarm(n) => code := TimerDel(h, n);
      case Free(n) =>
        TimerFree(h, n);
        code := Success;
    }
  }

  /** One call from user code. */
  method Perform(h: Heap, a: Action, now: TimeVal) returns (code: Code)
    requires h.Valid() && Normal(now) && a.node in h.all
    modifies h, h.events, h.all
    ensures h.Valid() && h.all == old(h.all) && Grown(h)
    ensures View(h) == Called(old(View(h)), a, now) && code == CodeOf(old(View(h)), a)
  {
    ghost var t := View(h);
    code := Dispatch(h, a, now);
    ViewIs(h, t, a.node);
  }

  /** A user callback: any finite sequence of calls. */
  method RunCalls(h: Heap, calls: seq<Action>, now: TimeVal) returns (codes: seq<Code>)
    requires h.Valid() && Normal(now) && forall a | a in calls :: a.node in h.all
    modifies h, h.events, h.all
    ensures h.Valid() && h.all == old(h.all) && Grown(h)
    ensures View(h) == Ran(old(View(h)), calls, now) && codes == Codes(old(View(h)), calls, now)
  {
    codes := [];
    for i := 0 to |calls|
      invariant h.Valid() && h.all == old(h.all) && Grown(h)
      invariant View(h) == Ran(old(View(h)), calls[..i], now) && codes == Codes(old(View(h)), calls[..i], now)
    {
      assert calls[..i + 1][..i] == calls[..i] && calls[i] in calls;
      var code := Perform(h, calls[i], now);
      codes := codes + [code];
    }
    assert calls[..|calls|] == calls;
  }

  /** Puts a repeating timer back without reserving space for it. `overrun` tells that the array was full and
      the node would be stored behind its end. */
  method PutBack(h: Heap, n: Node, now: TimeVal) returns (overrun: bool)
    requires h.Valid() && Normal(now) && n in h.all && !n.Active() && Normal(n.after)
    modifies h`size, h`contents, h.events, h.all`idx, n`timeout
    ensures h.Valid() && OthersStay(h, n) && Counts(h, n)
    ensures overrun == old(h.size == h.events.Length) == !n.Active() && n.timeout == Deadline(now, n.after)
  {
    overrun := h.size == h.events.Length;
    n.timeout := Add(now, n.after);
    if !overrun {
      h.Place(n);
    }
  }

  method ReleaseMarked(n: Node)
    modifies n`released, n`releases, n`deleted
    ensures !n.deleted && n.released && n.releases == old(n.releases) + 1
  {
    Release(n);
    n.deleted := false;
  }

  /** The part of `timer_event_node_callback` after the user callback has returned: frees a marked timer without
      looking at its node, or puts a repeating one back. */
  method AfterCallback(h: Heap, n: Node, now: TimeVal) returns (fault: Fault)
    requires h.Valid() && Normal(now) && n in h.all && n.invoking && !n.released && Normal(n.after)
    modifies h`size, h`contents, h.events, h.all`idx, n
    ensures h.Valid() && OthersStay(h, n) && Counts(h, n)
    ensures Of(n) == Left(old(Of(n)), old(h.size == h.events.Length), now)
    ensures fault == Overrun <==> old(!n.deleted && n.repeat && !n.Active() && h.size == h.events.Length)
    ensures fault == Dangling <==> old(n.deleted && n.Active())
    ensures fault == Dangling <==> n.released && n.Active()
  {
    fault := Sound;
    n.invoking := false;
    if n.deleted {
      fault := if n.Active() then Dangling else Sound;
      ReleaseMarked(n);
    } else if n.repeat && !n.Active() {
      var overrun := PutBack(h, n, now);
      fault := if overrun then Overrun else Sound;
    }
  }

  /** The flag that tells a timer is inside its callback is set. */
  method Enter(h: Heap, n: Node)
    requires n in h.all && !n.Active()
    modifies n`invoking
    ensures View(h) == Started(old(View(h)), n)
  {
    ghost var t := View(h);
    n.invoking := true;
    ViewIs(h, t, n);
  }

  method Return(h: Heap, n: Node, now: TimeVal) returns (fault: Fault)
    requires h.Valid() && Normal(now) && n in h.all && n.invoking && !n.released && Normal(n.after)
    modifies h`size, h`contents, h.events, h.all`idx, n
    ensures h.Valid() && View(h) == Returned(old(View(h)), n, now)
    ensures fault == FaultAt(old(Of(n)), old(h.size == h.events.Length))
  {
    ghost var t := View(h);
    fault := AfterCallback(h, n, now);
    ViewIs(h, t, n);
  }

  /** The user callback of `n` runs. */
  method CallUser(h: Heap, n: Node, now: TimeVal, calls: seq<Action>)
    requires h.Valid() && Normal(now) && n in h.all && !n.Active() && forall a | a in calls :: a.node in h.all
    modifies h, h.events, h.all
    ensures h.Valid() && h.all == old(h.all) && Grown(h) && View(h) == Ran(Started(old(View(h)), n), calls, now)
  {
    Enter(h, n);
    var codes := RunCalls(h, calls, now);
  }

  /** The steps of `timer_event_node_callback`. */
  method Invoke(h: Heap, n: Node, now: TimeVal, calls: seq<Action>) returns (fault: Fault)
    requires h.Valid() && Normal(now) && n in h.all && !n.Active() && forall a | a in calls :: a.node in h.all
    requires var y := Ran(Started(View(h), n), calls, now).timers[n]; y.invoking && !y.released && Normal(y.after)
    modifies h, h.events, h.all
    ensures h.Valid() && h.all == old(h.all) && Grown(h)
    ensures View(h) == Fired(old(View(h)), n, calls, now) && fault == FaultOf(old(View(h)), n, calls, now)
  {
    CallUser(h, n, now, calls);
    fault := Return(h, n, now);
  }

  /** `timer_event_node_callback` on a timer just taken from the heap. A released timer is in the heap afterwards
      exactly when the callback frees its own timer and then adds it again. */
  method NodeCallback(h: Heap, n: Node, now: TimeVal, calls: seq<Action>) returns (fault: Fault)
    requires h.Valid() && AtRest(View(h)) && Normal(now) && (forall a | a in calls :: a.node in h.all)
    requires n in h.all && !n.Active() && !n.released && h.size < h.events.Length
    modifies h, h.events, h.all
    ensures h.Valid() && h.all == old(h.all) && Grown(h)
    ensures View(h) == Fired(old(View(h)), n, calls, now) && fault == FaultOf(old(View(h)), n, calls, now)
    ensures Explained(Started(old(View(h)), n), n, calls, now, fault)
  {
    FaultIsExplained(View(h), n, calls, now);
    fault := Invoke(h, n, now, calls);
  }

  /** The timer has left the heap and its callback is yet to be entered. */
  ghost function Taken(t: Table, n: Node): Table
    requires n in t.timers
  {
    With(t, n, t.timers[n].(armed := false), t.capacity)
  }

  lemma TakenFires(t: Table, n: Node, calls: seq<Action>, now: TimeVal)
    requires AtRest(t) && n in t.timers
    ensures AtRest(Taken(t, n)) && Started(Taken(t, n), n) == Started(t, n)
    ensures Fired(Taken(t, n), n, calls, now) == Fired(t, n, calls, now)
    ensures FaultOf(Taken(t, n), n, calls, now) == FaultOf(t, n, calls, now)
  {
    WithTwice(t, n, t.timers[n].(armed := false), Started(t, n).timers[n], t.capacity, t.capacity);
  }

  lemma RootBounds(h: Heap)
    requires h.Valid() && h.size > 0
    ensures NoneBefore(View(h), h.contents[0].Due())
  {
    forall n | n in h.all && n.Active() ensures h.contents[0].Due() <= n.Due() {
      h.RootIsEarliest(n);
    }
  }

  /** The root, if it is due, is an earliest due timer; otherwise nothing is due. */
  lemma RootFiresNext(h: Heap, now: TimeVal)
    requires h.Valid()
    ensures if h.size > 0 && h.contents[0].Due() <= Micros(now) then FiresNext(View(h), h.contents[0], now)
            else DueNodes(View(h), now) == {}
  {
    if h.size > 0 {
      RootBounds(h);
    }
  }

  /** The root is erased. */
  method TakeTop(h: Heap, now: TimeVal) returns (n: Node)
    requires h.Valid() && h.size > 0 && h.contents[0].Due() <= Micros(now)
    modifies h, h.events, h.all`idx
    ensures h.Valid() && h.all == old(h.all) && h.events == old(h.events)
    ensures FiresNext(old(View(h)), n, now) && View(h) == Taken(old(View(h)), n)
    ensures n in h.all && !n.Active() && h.size < h.events.Length
  {
    RootFiresNext(h, now);
    ghost var t := View(h);
    n := h.events[0];
    h.Erase(n);
    ViewIs(h, t, n);
  }

  /** One round of `timers_process`: erase the root, then run its callback. */
  method FireTop(h: Heap, now: TimeVal, calls: seq<Action>) returns (n: Node, fault: Fault)
    requires h.Valid() && AtRest(View(h)) && Normal(now) && (forall a | a in calls :: a.node in h.all)
    requires h.size > 0 && h.contents[0].Due() <= Micros(now)
    modifies h, h.events, h.all
    ensures h.Valid() && h.all == old(h.all) && Grown(h) && FiresNext(old(View(h)), n, now)
    ensures View(h) == Fired(old(View(h)), n, calls, now) && fault == FaultOf(old(View(h)), n, calls, now)
    ensures Explained(Started(old(View(h)), n), n, calls, now, fault)
  {
    ghost var t := View(h);
    n := TakeTop(h, now);
    TakenFires(t, n, calls, now);
    fault := NodeCallback(h, n, now, calls);
  }

  /** The heap stands for the timers after those in `fired` have fired. */
  ghost predicate Passing(h: Heap, t: Table, now: TimeVal, script: seq<seq<Action>>, fired: seq<Node>)
    reads h, h.events, h.all
  {
    && h.Valid() && |fired| <= |script| && IsPass(t, now, script, fired)
    && View(h) == After(t, now, script, fired)
  }

  /** The test that ends `timers_process`. */
  predicate NothingDue(h: Heap, now: TimeVal)
    reads h, h.events, h.all
    requires h.Valid() && Normal(now)
  {
    h.size == 0 || Cmp(h.events[0].timeout, now) > 0
  }

  lemma NothingIsDue(h: Heap, now: TimeVal)
    requires h.Valid() && Normal(now)
    ensures NothingDue(h, now) <==> DueNodes(View(h), now) == {}
  {
    RootFiresNext(h, now);
    if !NothingDue(h, now) {
      assert h.contents[0] in DueNodes(View(h), now);
    }
  }

  method FireNext(h: Heap, ghost t: Table, now: TimeVal, script: seq<seq<Action>>, fired: seq<Node>)
    returns (n: Node, fault: Fault)
    requires AtRest(t) && Normal(now) && Passing(h, t, now, script, fired) && LastFault(t, now, script, fired) == Sound
    requires |fired| < |script| && forall a | a in script[|fired|] :: a.node in h.all
    requires !NothingDue(h, now)
    modifies h, h.events, h.all
    ensures h.all == old(h.all) && Grown(h) && Passing(h, t, now, script, fired + [n])
    ensures fault == LastFault(t, now, script, fired + [n])
  {
    PassKeeps(t, now, script, fired);
    n, fault := FireTop(h, now, script[|fired|]);
    PassNext(t, now, script, fired, n);
  }

  /** The loop of `timers_process`. */
  method Rounds(h: Heap, now: TimeVal, script: seq<seq<Action>>) returns (fired: seq<Node>, done: bool, fault: Fault)
    requires h.Valid() && AtRest(View(h)) && Normal(now)
    requires forall calls, a | calls in script && a in calls :: a.node in h.all
    modifies h, h.events, h.all
    ensures h.all == old(h.all) && Grown(h) && Passing(h, old(View(h)), now, script, fired)
    ensures fault == LastFault(old(View(h)), now, script, fired)
    ensures done <==> fault == Sound && DueNodes(View(h), now) == {}
    ensures !done && fault == Sound ==> |fired| == |script|
  {
    ghost var t := View(h);
    fired, fault := [], Sound;
    while fault == Sound && |fired| < |script| && !NothingDue(h, now)
      invariant h.all == old(h.all) && Grown(h) && Passing(h, t, now, script, fired)
      invariant fault == LastFault(t, now, script, fired)
      decreases |script| - |fired|
    {
      assert script[|fired|] in script;
      var n;
      n, fault := FireNext(h, t, now, script, fired);
      fired := fired + [n];
    }
    NothingIsDue(h, now);
    done := fault == Sound && NothingDue(h, now);
  }

  /** `timers_process`. `script[i]` is what the i-th user callback does, so a script of every length
      covers every finite part of a run; `done` tells that the loop was left by its own test. */
  method Process(h: Heap, now: TimeVal, script: seq<seq<Action>>) returns (fired: seq<Node>, done: bool, fault: Fault)
    requires h.Valid() && AtRest(View(h)) && Normal(now)
    requires forall calls, a | calls in script && a in calls :: a.node in h.all
    modifies h, h.events, h.all
    ensures h.Valid() && h.all == old(h.all) && Grown(h) && Sane(View(h)) && Quiet(View(h))
    ensures |fired| <= |script| && IsPass(old(View(h)), now, script, fired)
    ensures View(h) == After(old(View(h)), now, script, fired)
    ensures fault == LastFault(old(View(h)), now, script, fired) && (fault != Dangling <==> Clean(View(h)))
    ensures done <==> fault == Sound && DueNodes(View(h), now) == {}
    ensures !done && fault == Sound ==> |fired| == |script|
    // deadlines fire in order, and none early
    ensures InOrder(FiringTimes(old(View(h)), now, script, fired), View(h), now)
    // exactly the timers freed by some callback are released, each once
    ensures forall n | n in h.all :: n.released <==> old(n.released) || FreedIn(n, script[..|fired|])
    // a fault comes from the calls of the last callback
    ensures fired != [] ==> LastIsExplained(old(View(h)), now, script, fired, fault)
    // a pass that ends has fired every due timer no callback named, and none of them has period zero
    ensures done ==> EndsWell(old(View(h)), now, script, fired)
    // when callbacks arm strictly later and no due timer has period zero, each due timer fires at most once
    ensures AllDelayed(script) && NoneSpins(old(View(h)), now) ==> OnceEach(old(View(h)), View(h), now, fired)
    // and then the pass ends
    ensures AllDelayed(script) && NoneSpins(old(View(h)), now) && |DueNodes(old(View(h)), now)| <= |script| ==>
      done || fault != Sound
  {
    ghost var t := View(h);
    fired, done, fault := Rounds(h, now, script);
    PassKeeps(t, now, script, fired);
    PassIsInOrder(t, now, script, fired);
    forall n | n in h.all ensures n.released <==> t.timers[n].released || FreedIn(n, script[..|fired|]) {
      PassReleases(t, now, script, fired, n);
    }
    if fired != [] {
      LastFaultIsExplained(t, now, script, fired);
    }
    if done {
      EndedPassEndsWell(t, now, script, fired);
    }
    if AllDelayed(script) && NoneSpins(t, now) {
      PassFiresOnce(t, now, script, fired);
      if !done && fault == Sound {
        DueTimerIsYetToFire(t, now, script, fired);
      }
    }
  }

  /** Callbacks that arm strictly later and name no due timer: the pass ends within the number of due timers if and
      only if none of these repeats with period zero. */
  method ProcessEndsIff(h: Heap, now: TimeVal, script: seq<seq<Action>>) returns (done: bool, fault: Fault)
    requires h.Valid() && AtRest(View(h)) && Normal(now)
    requires forall calls, a | calls in script && a in calls :: a.node in h.all
    requires AllDelayed(script) && forall n | n in DueNodes(View(h), now) :: UnnamedBy(n, script)
    requires |script| >= |DueNodes(View(h), now)|
    modifies h, h.events, h.all
    ensures fault == Sound ==> (done <==> NoneSpins(old(View(h)), now))
  {
    ghost var t := View(h);
    var fired;
    fired, done, fault := Rounds(h, now, script);
    if fault == Sound {
      PassEndsIff(t, now, script, fired);
    }
  }
}
