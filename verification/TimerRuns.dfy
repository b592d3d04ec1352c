/** From an empty heap to the situations in which timers do not behave as the calls suggest. */
module TimerRuns {
  import opened Times
  import opened TimerHeap
  import opened TimerTable
  import opened TimerPass
  import opened Timers
  import opened LoopClock

  method NewTimer(h: Heap) returns (n: Node)
    requires h.Valid() && AtRest(View(h))
    modifies h`all
    ensures fresh(n) && h.Valid() && AtRest(View(h)) && h.all == old(h.all) + {n}
    ensures !n.Active() && !n.invoking && !n.deleted && !n.released && h.size == old(h.size)
  {
    n := new Node();
    h.Adopt(n);
  }

  lemma CallKeepsRest(t: Table, a: Action, now: TimeVal)
    requires AtRest(t) && Normal(now)
    ensures AtRest(Called(t, a, now))
  {
    assert [a][..0] == [] && Ran(t, [a], now) == Called(t, a, now);
    CallsKeepRest(t, [a], now);
  }

  /** The timer is armed; others stay as they are. */
  method Put(h: Heap, n: Node, now: TimeVal, after: TimeVal, repeat: bool)
    requires h.Valid() && AtRest(View(h)) && Normal(now) && Normal(after)
    requires n in h.all && !n.Active() && !n.released
    modifies h, h.events, h.all
    ensures h.Valid() && AtRest(View(h)) && Grown(h) && OthersStay(h, n) && h.size == old(h.size) + 1
    ensures n.Active() && n.repeat == repeat && n.after == after && n.Due() == Micros(now) + Micros(after)
    ensures h.events.Length == old(h.events.Length) + if old(h.size == h.events.Length) then GROWTH else 0
  {
    ghost var t := View(h);
    CallKeepsRest(t, Arm(n, after, repeat, true), now);
    var code := TimerAdd(h, n, now, after, repeat, true);
    ViewIs(h, t, n);
  }

  /** One armed timer, which is due. */
  method ArmedTimer(now: TimeVal, repeat: bool) returns (h: Heap, n: Node)
    requires Normal(now)
    ensures fresh(h) && fresh(h.events) && fresh(h.all) && h.Valid() && AtRest(View(h)) && h.all == {n}
    ensures n.Active() && n.Due() == Micros(now) && n.repeat == repeat && Micros(n.after) == 0 && h.size == 1
  {
    h := new Heap();
    n := NewTimer(h);
    Put(h, n, now, TimeVal(0, 0), repeat);
  }

  /** The timer fires and its callback makes `calls`. */
  method FireOnly(h: Heap, n: Node, now: TimeVal, calls: seq<Action>) returns (fault: Fault)
    requires h.Valid() && AtRest(View(h)) && Normal(now) && h.all == {n} && (forall a | a in calls :: a.node == n)
    requires n.Active() && n.Due() <= Micros(now)
    modifies h, h.events, h.all
    ensures h.Valid() && h.all == old(h.all) && View(h) == Fired(old(View(h)), n, calls, now)
    ensures Explained(Started(old(View(h)), n), n, calls, now, fault)
  {
    var m;
    m, fault := FireTop(h, now, calls);
  }

  /** Two calls, one after the other. */
  lemma RanTwo(t: Table, a: Action, b: Action, now: TimeVal)
    ensures Ran(t, [a, b], now) == Called(Called(t, a, now), b, now)
    ensures Codes(t, [a, b], now) == [CodeOf(t, a), CodeOf(Called(t, a, now), b)]
  {
    assert [a, b][..1] == [a] && [a][..0] == [];
    assert Ran(t, [a], now) == Called(t, a, now) && Codes(t, [a], now) == [CodeOf(t, a)];
  }

  /** Whenever a callback arms its own timer and then deletes it, both calls succeed, and the timer is armed when
      the callback has returned. */
  lemma DeletedStaysArmed(t: Table, n: Node, now: TimeVal, after: TimeVal, repeat: bool)
    requires AtRest(t) && Normal(after) && n in t.timers && t.timers[n].armed
    ensures var calls := [Arm(n, after, repeat, true), Disarm(n)];
      && Codes(Started(t, n), calls, now) == [Success, Success]
      && Fired(t, n, calls, now).timers[n].armed && FaultOf(t, n, calls, now) == Sound
  {
    RanTwo(Started(t, n), Arm(n, after, repeat, true), Disarm(n), now);
  }

  /** It happens from an empty heap on. */
  method DeletedTimerStaysArmed(now: TimeVal, after: TimeVal) returns (h: Heap, n: Node)
    requires Normal(now) && Normal(after)
    ensures fresh(h) && h.Valid() && n in h.all && n.Active() && !n.invoking
  {
    h, n := ArmedTimer(now, false);
    DeletedStaysArmed(View(h), n, now, after, false);
    FiringKeeps(View(h), n, [Arm(n, after, false, true), Disarm(n)], now);
    var fault := FireOnly(h, n, now, [Arm(n, after, false, true), Disarm(n)]);
    assert View(h).timers[n] == Of(n);
  }

  /** Whenever a callback frees its own timer and then adds it again, the timer's memory is given back while its
      node is in the heap. */
  lemma FreedStaysInHeap(t: Table, n: Node, now: TimeVal, after: TimeVal, repeat: bool)
    requires AtRest(t) && Normal(now) && Normal(after) && n in t.timers && t.timers[n].armed
    ensures var calls := [Free(n), Arm(n, after, repeat, true)];
      && Codes(Started(t, n), calls, now) == [Success, Success]
      && Fired(t, n, calls, now).timers[n].released && Fired(t, n, calls, now).timers[n].armed
  {
    RanTwo(Started(t, n), Free(n), Arm(n, after, repeat, true), now);
  }

  /** It happens from an empty heap on. */
  method FreedTimerStaysInHeap(now: TimeVal, after: TimeVal) returns (h: Heap, n: Node)
    requires Normal(now) && Normal(after)
    ensures fresh(h) && n in h.all && n.released && n.Active() && !Clean(View(h))
  {
    h, n := ArmedTimer(now, false);
    FreedStaysInHeap(View(h), n, now, after, false);
    var fault := FireOnly(h, n, now, [Free(n), Arm(n, after, false, true)]);
    assert View(h).timers[n] == Of(n);
  }

  /** Callbacks that do nothing cause no fault. */
  lemma IdlePassIsSound(t: Table, now: TimeVal, script: seq<seq<Action>>, fired: seq<Node>)
    requires AtRest(t) && Normal(now) && |fired| <= |script| && IsPass(t, now, script, fired)
    requires forall calls | calls in script :: calls == []
    ensures LastFault(t, now, script, fired) == Sound
  {
    if fired != [] {
      assert script[|fired| - 1] in script;
      LastFaultIsExplained(t, now, script, fired);
    }
  }

  /** A timer armed to fire at once and to repeat without delay keeps one pass over the timers going for any number
      of rounds, with callbacks that do nothing. */
  method ZeroPeriodNeverEnds(now: TimeVal, rounds: nat) returns (done: bool, fired: seq<Node>)
    requires Normal(now)
    ensures !done && |fired| == rounds
  {
    var h, n := ArmedTimer(now, true);
    var script: seq<seq<Action>> := seq(rounds, i => []);
    assert forall calls | calls in script :: calls == [];
    ghost var t := View(h);
    assert t.timers[n] == Of(n) && n in DueNodes(t, now) && Spins(t, n, now);
    var fault;
    fired, done, fault := Rounds(h, now, script);
    IdlePassIsSound(t, now, script, fired);
    if done {
      EndedPassEndsWell(t, now, script, fired);
    }
  }

  /** A timer armed like that and deleted again leaves nothing behind that would keep a pass going. */
  method DeletedSpinnerIsHarmless(now: TimeVal) returns (done: bool)
    requires Normal(now)
    ensures done
  {
    var h, n := ArmedTimer(now, true);
    CallKeepsRest(View(h), Disarm(n), now);
    var code := Perform(h, Disarm(n), now);
    assert View(h).timers[n] == Of(n) && DueNodes(View(h), now) == {};
    var fired, fault;
    fired, done, fault := Process(h, now, []);
  }

  /** A new repeating timer. */
  method AddTimer(h: Heap, now: TimeVal, after: TimeVal) returns (n: Node)
    requires h.Valid() && AtRest(View(h)) && Normal(now) && Normal(after)
    modifies h, h.events, h.all
    ensures fresh(n) && h.Valid() && AtRest(View(h)) && h.all == old(h.all) + {n} && Grown(h)
    ensures forall x | x in old(h.all) :: Of(x) == old(Of(x))
    ensures n.Active() && n.repeat && n.Due() == Micros(now) + Micros(after)
    ensures h.size == old(h.size) + 1
    ensures h.events.Length == old(h.events.Length) + if old(h.size == h.events.Length) then GROWTH else 0
  {
    n := NewTimer(h);
    Put(h, n, now, after, true);
  }

  /** As many repeating timers as the first allocation holds. */
  method FillArray(now: TimeVal, after: TimeVal) returns (h: Heap)
    requires Normal(now) && Normal(after)
    ensures fresh(h) && fresh(h.events) && fresh(h.all) && h.Valid() && AtRest(View(h))
    ensures h.size == h.events.Length == GROWTH
    ensures forall n | n in h.all :: n.Active() && n.repeat && n.Due() == Micros(now) + Micros(after)
  {
    h := new Heap();
    for i := 0 to GROWTH
      invariant fresh(h) && fresh(h.events) && fresh(h.all) && h.Valid() && AtRest(View(h)) && h.size == i
      invariant h.events.Length == if i == 0 then 0 else GROWTH
      invariant forall n | n in h.all :: n.Active() && n.repeat && n.Due() == Micros(now) + Micros(after)
    {
      var n := AddTimer(h, now, after);
    }
  }

  /** The root fires and its callback arms one more timer. */
  method FireAndArm(h: Heap, spare: Node, now: TimeVal, after: TimeVal) returns (fault: Fault)
    requires h.Valid() && AtRest(View(h)) && Normal(now) && Normal(after)
    requires h.size > 0 && h.contents[0].Due() <= Micros(now)
    requires spare in h.all && !spare.Active() && !spare.released
    requires forall n | n in h.all && n.Active() :: n.repeat
    modifies h, h.events, h.all
    ensures fault == Overrun <==> old(h.size == h.events.Length)
  {
    ghost var t := View(h);
    assert forall n | n in h.all :: t.timers[n] == Of(n);
    var n;
    n, fault := FireTop(h, now, [Arm(spare, after, false, true)]);
    OneMoreOverrunsIff(t, n, spare, now, after);
  }

  /** A full array overruns. */
  method OverrunIsReached(now: TimeVal, after: TimeVal) returns (h: Heap, fault: Fault)
    requires Normal(now) && Normal(after)
    ensures fresh(h) && fault == Overrun
  {
    h := FillArray(now, after);
    var spare := NewTimer(h);
    assert h.contents[0].Active();
    fault := FireAndArm(h, spare, Add(now, after), after);
  }
}
