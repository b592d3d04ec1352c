/** The loop's clock: stepping it backwards, the length of a wait, and a whole run of turns. */
module LoopClock {
  import opened Times
  import opened TimerHeap
  import opened TimerTable
  import opened TimerPass
  import opened Timers

  /** The timeout `off` earlier, where `time_sub` is in order. */
  ghost function Earlier(timeout: TimeVal, off: TimeVal): TimeVal {
    if Normal(timeout) && Normal(off) && SubAsserts(timeout, off) then Sub(timeout, off) else timeout
  }

  ghost function ShiftedTimer(x: Timer, off: TimeVal): Timer {
    if x.armed then x.(timeout := Earlier(x.timeout, off)) else x
  }

  /** Every armed deadline moves by `off`. */
  ghost function Shifted(t: Table, off: TimeVal): (u: Table)
    ensures u.timers.Keys == t.timers.Keys
  {
    Table(map n | n in t.timers :: ShiftedTimer(t.timers[n], off), t.size, t.capacity)
  }

  /** The clock goes from `now` to `tv`: one that goes back takes all deadlines with it. */
  ghost function Clocked(t: Table, now: TimeVal, tv: TimeVal): (u: Table)
    ensures u.timers.Keys == t.timers.Keys
  {
    if Micros(tv) < Micros(now) then Shifted(t, Earlier(now, tv)) else t
  }

  /** The clock can be set to `tv`: if that is a step back, no deadline is below the length of the step. */
  ghost predicate CanSet(t: Table, now: TimeVal, tv: TimeVal) {
    Micros(tv) < Micros(now) ==> NoneBefore(t, Micros(now) - Micros(tv))
  }

  /** A clock that goes back leaves every armed timer its remaining delay. */
  lemma DelaysAreKept(t: Table, now: TimeVal, tv: TimeVal, n: Node)
    requires Sane(t) && Normal(now) && Normal(tv) && CanSet(t, now, tv) && n in t.timers && t.timers[n].armed
    ensures var y := Clocked(t, now, tv).timers[n];
      && y.armed && Normal(y.timeout)
      && y.Due() - Micros(tv) == t.timers[n].Due() - if Micros(tv) < Micros(now) then Micros(now) else Micros(tv)
  {
    if Micros(tv) < Micros(now) {
      SubAssertsIffNotLess(now, tv);
      SubAssertsIffNotLess(t.timers[n].timeout, Sub(now, tv));
    }
  }

  lemma ClockKeepsRest(t: Table, now: TimeVal, tv: TimeVal)
    requires AtRest(t) && Normal(now) && Normal(tv) && CanSet(t, now, tv)
    ensures AtRest(Clocked(t, now, tv))
  {
    forall n | n in t.timers && t.timers[n].armed ensures Normal(Clocked(t, now, tv).timers[n].timeout) {
      DelaysAreKept(t, now, tv, n);
    }
  }

  /** Every subtraction of `off` from an armed deadline meets its assertions exactly when none is below `off`. */
  lemma AdjustIsSafeIff(t: Table, off: TimeVal)
    requires Sane(t) && Normal(off)
    ensures (forall n | n in t.timers && t.timers[n].armed :: SubAsserts(t.timers[n].timeout, off)) <==>
      NoneBefore(t, Micros(off))
  {
    forall n | n in t.timers ensures SubAsserts(t.timers[n].timeout, off) <==> Micros(off) <= t.timers[n].Due() {
      SubAssertsIffNotLess(t.timers[n].timeout, off);
    }
  }

  /** What happens in one turn: the clock reading, the timer callbacks, and the calls of other callbacks. */
  datatype Tick = Tick(tv: TimeVal, script: seq<seq<Action>>, calls: seq<Action>)

  /** The calls name timers of the heap. */
  ghost predicate Knows(h: Heap, tick: Tick)
    reads h
  {
    && (forall calls, a | calls in tick.script && a in calls :: a.node in h.all)
    && (forall a | a in tick.calls :: a.node in h.all)
  }

  /** The timers after the pass of one turn. */
  ghost function PassOf(t: Table, now: TimeVal, tick: Tick, fired: seq<Node>): Table
    requires |fired| <= |tick.script|
  {
    After(Clocked(t, now, tick.tv), tick.tv, tick.script, fired)
  }

  ghost predicate IsTurn(t: Table, now: TimeVal, tick: Tick, fired: seq<Node>) {
    |fired| <= |tick.script| && IsPass(Clocked(t, now, tick.tv), tick.tv, tick.script, fired)
  }

  /** The pass of the turn is sound and leaves nothing due. */
  ghost predicate Completes(t: Table, now: TimeVal, tick: Tick, fired: seq<Node>)
    requires |fired| <= |tick.script|
  {
    && LastFault(Clocked(t, now, tick.tv), tick.tv, tick.script, fired) == Sound
    && DueNodes(PassOf(t, now, tick, fired), tick.tv) == {}
  }

  /** The timers after one turn; the calls of other callbacks follow a completed pass. */
  ghost function TurnOf(t: Table, now: TimeVal, tick: Tick, fired: seq<Node>): (u: Table)
    requires |fired| <= |tick.script|
    ensures u.timers.Keys == t.timers.Keys
  {
    var u := PassOf(t, now, tick, fired);
    if Completes(t, now, tick, fired) then Ran(u, tick.calls, tick.tv) else u
  }

  /** Calls arm nothing before `now`. */
  lemma CallsKeepRest(t: Table, calls: seq<Action>, now: TimeVal)
    requires AtRest(t) && Normal(now)
    ensures AtRest(Ran(t, calls, now)) && (NoneBefore(t, Micros(now)) ==> NoneBefore(Ran(t, calls, now), Micros(now)))
  {
    CallsKeep(t, calls, now);
    forall n | n in t.timers ensures Moves(n, t.timers[n], Ran(t, calls, now).timers[n], calls, now, 0) {
      CallsMove(t, n, calls, now, 0);
    }
  }

  /** A completed turn leaves no deadline before the loop's time. */
  lemma TurnSettles(t: Table, now: TimeVal, tick: Tick, fired: seq<Node>)
    requires AtRest(t) && Normal(now) && Normal(tick.tv) && CanSet(t, now, tick.tv) && IsTurn(t, now, tick, fired)
    ensures var u := TurnOf(t, now, tick, fired);
      && Sane(u) && Quiet(u)
      && (Completes(t, now, tick, fired) ==> Clean(u) && NoneBefore(u, Micros(tick.tv)))
  {
    ClockKeepsRest(t, now, tick.tv);
    PassKeeps(Clocked(t, now, tick.tv), tick.tv, tick.script, fired);
    if Completes(t, now, tick, fired) {
      NothingDueIsSettled(PassOf(t, now, tick, fired), tick.tv);
      CallsKeepRest(PassOf(t, now, tick, fired), tick.calls, tick.tv);
    }
  }

  /** The calls of dispatched callbacks come after the pass and take effect: a timer that the last of them arms is armed
      from the loop's time on. */
  lemma TurnArms(t: Table, now: TimeVal, tick: Tick, fired: seq<Node>, calls: seq<Action>, a: Action)
    requires Normal(tick.tv) && |fired| <= |tick.script| && Completes(t, now, tick, fired)
    requires tick.calls == calls + [a] && a.Arm? && Normal(a.after) && a.memory && a.node in t.timers
    requires var x := Ran(PassOf(t, now, tick, fired), calls, tick.tv).timers;
      a.node in x && !x[a.node].armed && !x[a.node].released
    ensures var y := TurnOf(t, now, tick, fired).timers[a.node];
      y.armed && y.Due() == Micros(tick.tv) + Micros(a.after) && y.repeat == a.repeat
  {
    assert tick.calls[..|calls|] == calls && tick.calls[|calls|] == a;
  }

  lemma NothingDueIsSettled(t: Table, now: TimeVal)
    requires DueNodes(t, now) == {}
    ensures NoneBefore(t, Micros(now))
  {
    assert forall n | n in t.timers && t.timers[n].armed :: n !in DueNodes(t, now);
  }

  /** What fired in each turn of a run. */
  ghost predicate IsLog(ticks: seq<Tick>, log: seq<seq<Node>>) {
    |log| <= |ticks| && forall k | 0 <= k < |log| :: |log[k]| <= |ticks[k].script|
  }

  /** The loop's time after `k` turns. */
  ghost function NowAt(start: TimeVal, ticks: seq<Tick>, k: nat): TimeVal
    requires k <= |ticks|
  {
    if k == 0 then start else ticks[k - 1].tv
  }

  /** The timers after the turns in `log`. */
  ghost function Turned(t: Table, start: TimeVal, ticks: seq<Tick>, log: seq<seq<Node>>): (u: Table)
    requires IsLog(ticks, log)
    ensures u.timers.Keys == t.timers.Keys
    decreases |log|
  {
    if log == [] then t else
      var k := |log| - 1;
      TurnOf(Turned(t, start, ticks, log[..k]), NowAt(start, ticks, k), ticks[k], log[k])
  }

  ghost predicate AllComplete(t: Table, start: TimeVal, ticks: seq<Tick>, log: seq<seq<Node>>)
    requires IsLog(ticks, log)
    decreases |log|
  {
    log == [] ||
    var k := |log| - 1;
    && AllComplete(t, start, ticks, log[..k])
    && Completes(Turned(t, start, ticks, log[..k]), NowAt(start, ticks, k), ticks[k], log[k])
  }

  /** Every turn is one from where the turn before has completed. */
  ghost predicate IsRun(t: Table, start: TimeVal, ticks: seq<Tick>, log: seq<seq<Node>>)
    requires IsLog(ticks, log)
    decreases |log|
  {
    log == [] ||
    var k := |log| - 1;
    && IsRun(t, start, ticks, log[..k]) && AllComplete(t, start, ticks, log[..k])
    && IsTurn(Turned(t, start, ticks, log[..k]), NowAt(start, ticks, k), ticks[k], log[k])
  }

  /** Clock readings are proper, and the first is no step back below some deadline. */
  ghost predicate Startable(t: Table, start: TimeVal, ticks: seq<Tick>) {
    && AtRest(t) && Normal(start) && (forall k | 0 <= k < |ticks| :: Normal(ticks[k].tv))
    && (ticks != [] ==> CanSet(t, start, ticks[0].tv))
  }

  lemma SettledCanSet(t: Table, now: TimeVal, tv: TimeVal)
    requires NoneBefore(t, Micros(now)) && Normal(tv)
    ensures CanSet(t, now, tv)
  {
  }

  /** What holds after completed turns. */
  ghost predicate SettledAt(u: Table, start: TimeVal, ticks: seq<Tick>, k: nat)
    requires k <= |ticks|
  {
    && AtRest(u) && (k > 0 ==> NoneBefore(u, Micros(NowAt(start, ticks, k))))
    && (k < |ticks| ==> CanSet(u, NowAt(start, ticks, k), ticks[k].tv))
  }

  lemma TurnKeepsSettled(u: Table, start: TimeVal, ticks: seq<Tick>, k: nat, fired: seq<Node>)
    requires k < |ticks| && SettledAt(u, start, ticks, k) && Normal(start)
    requires forall i | 0 <= i < |ticks| :: Normal(ticks[i].tv)
    requires IsTurn(u, NowAt(start, ticks, k), ticks[k], fired) && Completes(u, NowAt(start, ticks, k), ticks[k], fired)
    ensures SettledAt(TurnOf(u, NowAt(start, ticks, k), ticks[k], fired), start, ticks, k + 1)
  {
    TurnSettles(u, NowAt(start, ticks, k), ticks[k], fired);
    if k + 1 < |ticks| {
      SettledCanSet(TurnOf(u, NowAt(start, ticks, k), ticks[k], fired), ticks[k].tv, ticks[k + 1].tv);
    }
  }

  /** Whatever the clock shows, completed turns leave no deadline before the loop's time, and the next reading can
      be set: every `time_sub` is in order. */
  lemma {:induction false} RunSettles(t: Table, start: TimeVal, ticks: seq<Tick>, log: seq<seq<Node>>)
    requires Startable(t, start, ticks) && IsLog(ticks, log)
    requires IsRun(t, start, ticks, log) && AllComplete(t, start, ticks, log)
    ensures SettledAt(Turned(t, start, ticks, log), start, ticks, |log|)
    decreases |log|
  {
    if log == [] {
    } else {
      var k := |log| - 1;
      RunSettles(t, start, ticks, log[..k]);
      TurnKeepsSettled(Turned(t, start, ticks, log[..k]), start, ticks, k, log[k]);
    }
  }

  /** Also when the last turn does not complete, no timer is inside its callback and none is released twice. */
  lemma RunKeeps(t: Table, start: TimeVal, ticks: seq<Tick>, log: seq<seq<Node>>)
    requires Startable(t, start, ticks) && IsLog(ticks, log) && IsRun(t, start, ticks, log)
    ensures Sane(Turned(t, start, ticks, log)) && Quiet(Turned(t, start, ticks, log))
  {
    if log != [] {
      var k := |log| - 1;
      RunSettles(t, start, ticks, log[..k]);
      TurnSettles(Turned(t, start, ticks, log[..k]), NowAt(start, ticks, k), ticks[k], log[k]);
    }
  }

  lemma LogNext(ticks: seq<Tick>, log: seq<seq<Node>>, fired: seq<Node>)
    requires IsLog(ticks, log) && |log| < |ticks| && |fired| <= |ticks[|log|].script|
    ensures IsLog(ticks, log + [fired]) && (log + [fired])[..|log|] == log
  {
  }

  lemma RunNext(t: Table, start: TimeVal, ticks: seq<Tick>, log: seq<seq<Node>>, fired: seq<Node>)
    requires IsLog(ticks, log) && |log| < |ticks| && IsRun(t, start, ticks, log) && AllComplete(t, start, ticks, log)
    requires IsTurn(Turned(t, start, ticks, log), NowAt(start, ticks, |log|), ticks[|log|], fired)
    ensures var u, now, tick := Turned(t, start, ticks, log), NowAt(start, ticks, |log|), ticks[|log|];
      && IsLog(ticks, log + [fired]) && IsRun(t, start, ticks, log + [fired])
      && Turned(t, start, ticks, log + [fired]) == TurnOf(u, now, tick, fired)
      && (AllComplete(t, start, ticks, log + [fired]) <==> Completes(u, now, tick, fired))
  {
    LogNext(ticks, log, fired);
    ghost var next := log + [fired];
    assert next[|next| - 1] == fired && next[..|next| - 1] == log;
  }

  method Advance(node: Node, off: TimeVal)
    requires Normal(node.timeout) && Normal(off) && Micros(off) <= node.Due()
    modifies node`timeout
    ensures Normal(node.timeout) && node.Due() == old(node.Due()) - Micros(off)
    ensures node.timeout == Earlier(old(node.timeout), off)
  {
    SubAssertsIffNotLess(node.timeout, off);
    node.timeout := Sub(node.timeout, off);
  }

  /** The loop of `timers_adjust_backward`. The subtraction needs every deadline to be at least `off`. */
  method AdvanceAll(h: Heap, off: TimeVal)
    requires h.Valid() && Normal(off) && forall n | n in h.all && n.Active() :: Micros(off) <= n.Due()
    modifies h.all`timeout
    ensures h.Valid()
    ensures forall n | n in h.all ::
      n.timeout == if n.Active() then Earlier(old(n.timeout), off) else old(n.timeout)
  {
    for i := 0 to h.size
      invariant h.Indexed()
      invariant forall n | n in h.all && 0 <= n.idx < i ::
        n.timeout == Earlier(old(n.timeout), off) && n.Due() == old(n.Due()) - Micros(off)
      invariant forall n | n in h.all && !(0 <= n.idx < i) :: n.timeout == old(n.timeout)
    {
      var node: Node := h.events[i];
      Advance(node, off);
    }
  }

  lemma ShiftedView(h: Heap, t: Table, off: TimeVal)
    requires t.timers.Keys == h.all && t.size == h.size && t.capacity == h.events.Length
    requires forall n | n in h.all :: Of(n) == ShiftedTimer(t.timers[n], off)
    ensures View(h) == Shifted(t, off)
  {
    assert View(h).timers == Shifted(t, off).timers;
  }

  /** `timers_adjust_backward`. */
  method AdjustBackward(h: Heap, off: TimeVal)
    requires h.Valid() && Normal(off) && NoneBefore(View(h), Micros(off))
    modifies h.all`timeout
    ensures h.Valid() && View(h) == Shifted(old(View(h)), off)
  {
    ghost var t := View(h);
    assert forall n | n in h.all && n.Active() :: t.timers[n].armed;
    AdvanceAll(h, off);
    ShiftedView(h, t, off);
  }

  class Loop {
    const timers: Heap
    var now: TimeVal

    constructor (timers: Heap, now: TimeVal)
      ensures this.timers == timers && this.now == now
    {
      this.timers, this.now := timers, now;
    }

    method Rewind(tv: TimeVal)
      requires timers.Valid() && Normal(now) && Normal(tv) && CanSet(View(timers), now, tv)
      modifies timers.all`timeout
      ensures timers.Valid() && View(timers) == Clocked(old(View(timers)), now, tv)
    {
      if Cmp(tv, now) < 0 {
        SubAssertsIffNotLess(now, tv);
        var off := Sub(now, tv);
        AdjustBackward(timers, off);
      }
    }

    /** `__update_time`: a clock that went back takes all deadlines with it. */
    method UpdateTime(tv: TimeVal)
      requires timers.Valid() && Normal(now) && Normal(tv) && CanSet(View(timers), now, tv)
      modifies this`now, timers.all`timeout
      ensures timers.Valid() && now == tv && View(timers) == Clocked(old(View(timers)), old(now), tv)
    {
      Rewind(tv);
      now := tv;
    }

    /** The first part of a turn: read the clock and fire what is due. */
    method UpdateAndFire(tick: Tick) returns (fired: seq<Node>, done: bool)
      requires timers.Valid() && AtRest(View(timers)) && Normal(now) && Normal(tick.tv)
      requires Knows(timers, tick) && CanSet(View(timers), now, tick.tv)
      modifies this`now, timers, timers.events, timers.all
      ensures timers.Valid() && Grown(timers) && now == tick.tv && timers.all == old(timers.all)
      ensures IsTurn(old(View(timers)), old(now), tick, fired)
      ensures View(timers) == PassOf(old(View(timers)), old(now), tick, fired)
      ensures done <==> Completes(old(View(timers)), old(now), tick, fired)
    {
      ClockKeepsRest(View(timers), now, tick.tv);
      UpdateTime(tick.tv);
      var fault;
      fired, done, fault := Rounds(timers, now, tick.script);
    }

    /** One turn of `nanoev_loop_run` as far as timers go: read the clock, fire what is due, and let the
        callbacks of dispatched events call into the timers. */
    method Turn(tick: Tick) returns (fired: seq<Node>, done: bool)
      requires timers.Valid() && AtRest(View(timers)) && Normal(now) && Normal(tick.tv)
      requires Knows(timers, tick) && CanSet(View(timers), now, tick.tv)
      modifies this`now, timers, timers.events, timers.all
      ensures timers.Valid() && Grown(timers) && now == tick.tv && timers.all == old(timers.all)
      ensures IsTurn(old(View(timers)), old(now), tick, fired)
      ensures View(timers) == TurnOf(old(View(timers)), old(now), tick, fired)
      ensures done <==> Completes(old(View(timers)), old(now), tick, fired)
      ensures Sane(View(timers)) && Quiet(View(timers))
      ensures done ==> Clean(View(timers)) && NoneBefore(View(timers), Micros(now))
    {
      ghost var t, before := View(timers), now;
      fired, done := UpdateAndFire(tick);
      if done {
        var codes := RunCalls(timers, tick.calls, now);
      }
      TurnSettles(t, before, tick, fired);
    }
  
    /** The timers and the time are those after the turns in `log`. */
    ghost predicate RunsAt(t: Table, start: TimeVal, ticks: seq<Tick>, log: seq<seq<Node>>)
      reads this, timers, timers.events, timers.all
    {
      && timers.Valid() && IsLog(ticks, log) && IsRun(t, start, ticks, log) && now == NowAt(start, ticks, |log|)
      && View(timers) == Turned(t, start, ticks, log)
    }

    method NextTurn(ghost t: Table, ghost start: TimeVal, ticks: seq<Tick>, log: seq<seq<Node>>)
      returns (fired: seq<Node>, done: bool)
      requires Startable(t, start, ticks) && RunsAt(t, start, ticks, log) && AllComplete(t, start, ticks, log)
      requires |log| < |ticks| && Knows(timers, ticks[|log|])
      modifies this`now, timers, timers.events, timers.all
      ensures Grown(timers) && timers.all == old(timers.all) && RunsAt(t, start, ticks, log + [fired])
      ensures done <==> AllComplete(t, start, ticks, log + [fired])
    {
      RunSettles(t, start, ticks, log);
      fired, done := Turn(ticks[|log|]);
      RunNext(t, start, ticks, log, fired);
    }

    /** `nanoev_loop_run`, turn by turn, whatever the clock shows. Only the first turn needs an assumption, as
        `now` is overwritten without adjusting deadlines: the clock does not go back between the first two
        readings by more than some deadline. From then on every `time_sub` is in order. */
    method Run(start: TimeVal, ticks: seq<Tick>) returns (log: seq<seq<Node>>, done: bool)
      requires timers.Valid() && Startable(View(timers), start, ticks)
      requires forall k | 0 <= k < |ticks| :: Knows(timers, ticks[k])
      modifies this`now, timers, timers.events, timers.all
      ensures Grown(timers) && timers.all == old(timers.all) && RunsAt(old(View(timers)), start, ticks, log)
      ensures done <==> AllComplete(old(View(timers)), start, ticks, log)
      ensures Sane(View(timers)) && Quiet(View(timers))
      ensures done ==> |log| == |ticks| && Clean(View(timers)) && (log != [] ==> NoneBefore(View(timers), Micros(now)))
    {
      ghost var t := View(timers);
      now := start;
      log, done := [], true;
      while done && |log| < |ticks|
        invariant Grown(timers) && timers.all == old(timers.all) && RunsAt(t, start, ticks, log)
        invariant done <==> AllComplete(t, start, ticks, log)
        decreases |ticks| - |log|
      {
        var fired;
        fired, done := NextTurn(t, start, ticks, log);
        log := log + [fired];
      }
      RunKeeps(t, start, ticks, log);
      if done {
        RunSettles(t, start, ticks, log);
      }
    }
  }

  /** `timers_timeout`; a negative number of seconds stands for no timeout. */
  method NextTimeout(h: Heap, now: TimeVal) returns (t: TimeVal)
    requires h.Valid() && Normal(now)
    ensures h.size == 0 ==> t.sec == -1
    ensures h.size > 0 ==> Normal(t)
    ensures h.size > 0 ==>
      Micros(t) == if h.contents[0].Due() <= Micros(now) then 0 else h.contents[0].Due() - Micros(now)
  {
    if h.size == 0 {
      return TimeVal(-1, 0);
    }
    t := h.events[0].timeout;
    if Cmp(t, now) <= 0 {
      return TimeVal(0, 0);
    }
    SubAssertsIffNotLess(t, now);
    t := Sub(t, now);
  }

  /** Conversion of a `long` to a 32-bit `int`. */
  function ToInt32(x: int): (r: int)
    ensures -0x8000_0000 <= r < 0x8000_0000
    ensures r == x <==> -0x8000_0000 <= x < 0x8000_0000
  {
    (x + 0x8000_0000) % 0x1_0000_0000 - 0x8000_0000
  }

  /** The timeout handed to `epoll_wait`: minus one means to wait without limit. */
  function WaitMs(t: TimeVal): int {
    if t.sec != -1 then ToInt32(t.sec * 1000 + t.usec / 1000) else -1
  }

  /** Waits that fit 32 bits of milliseconds: exactly these end no later than the deadline and less
      than a millisecond before it. */
  lemma WaitIsTightIffItFits(t: TimeVal)
    requires Normal(t)
    ensures WaitMs(t) * 1000 <= Micros(t) < WaitMs(t) * 1000 + 1000 <==> Micros(t) < 0x8000_0000 * 1000
  {
    var ms := t.sec * 1000 + t.usec / 1000;
    assert Micros(t) == ms * 1000 + t.usec % 1000;
  }

  /** About 49.7 days ahead the conversion yields minus one: a timer is armed, yet the wait has no limit. */
  lemma LongWaitBecomesEndless()
    ensures var t := TimeVal(4_294_967, 295_000); Normal(t) && WaitMs(t) == -1
  {
  }

  /** The wait ends at no deadline too late, and less than a millisecond before the earliest. */
  ghost predicate WithinAMillisecond(h: Heap, now: TimeVal, ms: int)
    reads h, h.all
  {
    && (forall n | n in h.all && n.Active() :: Micros(now) + ms * 1000 <= n.Due())
    && (exists n :: n in h.all && n.Active() && n.Due() < Micros(now) + ms * 1000 + 1000)
  }

  /** The wait computed for one turn: endless without timers, zero when one is due, and otherwise right to the
      millisecond exactly when the earliest deadline is less than 2^31 ms ahead. */
  method ComputeWait(h: Heap, now: TimeVal) returns (ms: int)
    requires h.Valid() && Normal(now)
    ensures h.size == 0 <==> forall n | n in h.all :: !n.Active()
    ensures h.size == 0 ==> ms == -1
    ensures DueNodes(View(h), now) != {} ==> ms == 0
    ensures h.size > 0 && DueNodes(View(h), now) == {} ==>
      (WithinAMillisecond(h, now, ms) <==> h.contents[0].Due() - Micros(now) < 0x8000_0000 * 1000)
  {
    var t := NextTimeout(h, now);
    ms := ToWait(t);
    SizeIsActivity(h);
    if h.size > 0 {
      RootDecides(h, now);
      WithinIsRootWithin(h, now, ms);
    }
  }

  /** The conversion in `epoll_poller_poll`. */
  method ToWait(t: TimeVal) returns (ms: int)
    requires Normal(t) || t.sec == -1
    ensures t.sec == -1 ==> ms == -1
    ensures t.sec != -1 ==> (ms * 1000 <= Micros(t) < ms * 1000 + 1000 <==> Micros(t) < 0x8000_0000 * 1000)
    ensures t.sec != -1 && Micros(t) == 0 ==> ms == 0
  {
    ms := WaitMs(t);
    if t.sec != -1 {
      WaitIsTightIffItFits(t);
    }
  }

  lemma SizeIsActivity(h: Heap)
    requires h.Valid()
    ensures h.size == 0 <==> forall n | n in h.all :: !n.Active()
  {
    if h.size > 0 {
      assert h.contents[0] in h.all && h.contents[0].Active();
    }
  }

  /** Something is due exactly when the root is. */
  lemma RootDecides(h: Heap, now: TimeVal)
    requires h.Valid() && h.size > 0
    ensures DueNodes(View(h), now) != {} <==> h.contents[0].Due() <= Micros(now)
  {
    RootBounds(h);
    if h.contents[0].Due() <= Micros(now) {
      assert h.contents[0] in DueNodes(View(h), now);
    }
  }

  lemma WithinIsRootWithin(h: Heap, now: TimeVal, ms: int)
    requires h.Valid() && h.size > 0
    ensures WithinAMillisecond(h, now, ms) <==>
      Micros(now) + ms * 1000 <= h.contents[0].Due() < Micros(now) + ms * 1000 + 1000
  {
    RootBounds(h);
    assert h.contents[0] in h.all && h.contents[0].Active();
  }

  /** A callback that arms one more timer overruns the array exactly when the array is full and the root repeats. */
  lemma OneMoreOverrunsIff(t: Table, n: Node, spare: Node, now: TimeVal, after: TimeVal)
    requires AtRest(t) && Normal(after) && n in t.timers && t.timers[n].armed
    requires spare in t.timers && !t.timers[spare].armed && !t.timers[spare].released
    ensures FaultOf(t, n, [Arm(spare, after, false, true)], now) == Overrun <==> Full(t) && t.timers[n].repeat
  {
    var a := Arm(spare, after, false, true);
    assert [a][..0] == [];
    assert Ran(Started(t, n), [a], now) == Called(Started(t, n), a, now);
  }
}
