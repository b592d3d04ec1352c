/** Passes over the due timers: the order of firing, what is released, what is left, and when a pass ends. */
module TimerPass {
  import opened Sequences
  import opened Times
  import opened TimerHeap
  import opened TimerTable

  /** A firing moves the other timers as the calls of its callback do. */
  lemma FiringMoves(t: Table, n: Node, m: Node, calls: seq<Action>, now: TimeVal, d: nat)
    requires AtRest(t) && Normal(now) && n in t.timers && m in t.timers && m != n && Delayed(calls, d)
    ensures Moves(m, t.timers[m], Fired(t, n, calls, now).timers[m], calls, now, d)
  {
    CallsMove(Started(t, n), m, calls, now, d);
  }

  /** And the timer `n` itself: it is released if and only if its callback frees it, and armed only for later. */
  ghost predicate Turns(n: Node, x: Timer, y: Timer, calls: seq<Action>, now: TimeVal, d: nat, fault: Fault) {
    && SaneTimer(y) && !y.invoking && !y.deleted
    && (y.released <==> Free(n) in calls) && (y.released && y.armed <==> fault == Dangling)
    && (y.armed ==> Micros(now) + d <= y.Due())
    && (y.repeat ==> (x.repeat && y.after == x.after) || d <= Micros(y.after))
    && (Unnamed(n, calls) && fault == Sound ==>
        y.repeat == x.repeat == y.armed && y.after == x.after && (y.armed ==> y.Due() == Micros(now) + Micros(x.after)))
  }

  lemma FiringTurns(t: Table, n: Node, calls: seq<Action>, now: TimeVal, d: nat)
    requires AtRest(t) && Normal(now) && n in t.timers && t.timers[n].armed && Delayed(calls, d)
    requires t.timers[n].repeat ==> d <= Micros(t.timers[n].after)
    ensures Turns(n, t.timers[n], Fired(t, n, calls, now).timers[n], calls, now, d, FaultOf(t, n, calls, now))
  {
    CallsMove(Started(t, n), n, calls, now, d);
  }

  lemma FiringKeeps(t: Table, n: Node, calls: seq<Action>, now: TimeVal)
    requires AtRest(t) && Normal(now) && n in t.timers && t.timers[n].armed
    ensures var u := Fired(t, n, calls, now);
      Sane(u) && Quiet(u) && (Clean(u) <==> FaultOf(t, n, calls, now) != Dangling)
  {
    CallsKeep(Started(t, n), calls, now);
    FiringTurns(t, n, calls, now, 0);
    forall m | m in t.timers && m != n
      ensures Moves(m, t.timers[m], Fired(t, n, calls, now).timers[m], calls, now, 0)
    {
      FiringMoves(t, n, m, calls, now, 0);
    }
  }

  /** The timers after those in `fired` have fired; `script[k]` is what the k-th callback does. */
  ghost function After(t: Table, now: TimeVal, script: seq<seq<Action>>, fired: seq<Node>): (u: Table)
    requires |fired| <= |script|
    ensures u.timers.Keys == t.timers.Keys
    decreases |fired|
  {
    if fired == [] then t else
      var k := |fired| - 1;
      Fired(After(t, now, script, fired[..k]), fired[k], script[k], now)
  }

  /** The fault of the last firing. */
  ghost function LastFault(t: Table, now: TimeVal, script: seq<seq<Action>>, fired: seq<Node>): Fault
    requires |fired| <= |script|
  {
    if fired == [] then Sound else
      var k := |fired| - 1;
      FaultOf(After(t, now, script, fired[..k]), fired[k], script[k], now)
  }

  /** No armed timer is due before `bound`. */
  ghost predicate NoneBefore(t: Table, bound: int) {
    forall n | n in t.timers && t.timers[n].armed :: bound <= t.timers[n].Due()
  }

  ghost predicate IsDue(t: Table, n: Node, now: TimeVal) {
    n in t.timers && t.timers[n].armed && t.timers[n].Due() <= Micros(now)
  }

  ghost function DueNodes(t: Table, now: TimeVal): set<Node> {
    set n | n in t.timers && IsDue(t, n, now)
  }

  /** A due timer that no armed timer precedes. */
  ghost predicate FiresNext(t: Table, n: Node, now: TimeVal) {
    IsDue(t, n, now) && NoneBefore(t, t.timers[n].Due())
  }

  /** Each firing takes an earliest due timer, and a fault ends the pass. */
  ghost predicate IsPass(t: Table, now: TimeVal, script: seq<seq<Action>>, fired: seq<Node>)
    decreases |fired|
  {
    fired == [] ||
    var k := |fired| - 1;
    && k < |script| && IsPass(t, now, script, fired[..k]) && LastFault(t, now, script, fired[..k]) == Sound
    && FiresNext(After(t, now, script, fired[..k]), fired[k], now)
  }

  lemma PassNext(t: Table, now: TimeVal, script: seq<seq<Action>>, fired: seq<Node>, n: Node)
    requires |fired| < |script| && IsPass(t, now, script, fired) && LastFault(t, now, script, fired) == Sound
    requires FiresNext(After(t, now, script, fired), n, now)
    ensures var s, calls := After(t, now, script, fired), script[|fired|];
      && IsPass(t, now, script, fired + [n]) && After(t, now, script, fired + [n]) == Fired(s, n, calls, now)
      && LastFault(t, now, script, fired + [n]) == FaultOf(s, n, calls, now)
  {
    assert (fired + [n])[..|fired|] == fired;
  }

  /** Between the firings of a pass no timer is inside its callback, none is released twice, and a released timer is
      in the heap only after the fault that says so. */
  lemma {:induction false} PassKeeps(t: Table, now: TimeVal, script: seq<seq<Action>>, fired: seq<Node>)
    requires AtRest(t) && Normal(now) && |fired| <= |script| && IsPass(t, now, script, fired)
    ensures var u := After(t, now, script, fired);
      Sane(u) && Quiet(u) && (Clean(u) <==> LastFault(t, now, script, fired) != Dangling)
    decreases |fired|
  {
    if fired == [] {
    } else {
      var k := |fired| - 1;
      PassKeeps(t, now, script, fired[..k]);
      FiringKeeps(After(t, now, script, fired[..k]), fired[k], script[k], now);
    }
  }

  /** The last callback made calls that brought the fault about. */
  ghost predicate LastIsExplained(t: Table, now: TimeVal, script: seq<seq<Action>>, fired: seq<Node>, fault: Fault)
    requires 0 < |fired| <= |script|
  {
    var k := |fired| - 1;
    Explained(Started(After(t, now, script, fired[..k]), fired[k]), fired[k], script[k], now, fault)
  }

  lemma LastFaultIsExplained(t: Table, now: TimeVal, script: seq<seq<Action>>, fired: seq<Node>)
    requires AtRest(t) && Normal(now) && 0 < |fired| <= |script| && IsPass(t, now, script, fired)
    ensures LastIsExplained(t, now, script, fired, LastFault(t, now, script, fired))
  {
    var k := |fired| - 1;
    PassKeeps(t, now, script, fired[..k]);
    FaultIsExplained(After(t, now, script, fired[..k]), fired[k], script[k], now);
  }

  /** Some callback frees the timer. */
  ghost predicate FreedIn(n: Node, script: seq<seq<Action>>) {
    exists calls | calls in script :: Free(n) in calls
  }

  lemma FreedInNext(n: Node, script: seq<seq<Action>>, k: nat)
    requires k < |script|
    ensures FreedIn(n, script[..k + 1]) <==> FreedIn(n, script[..k]) || Free(n) in script[k]
  {
    assert script[..k + 1] == script[..k] + [script[k]];
    if Free(n) in script[k] {
      assert script[k] in script[..k + 1];
    }
  }

  /** Exactly the timers released before and those that some callback frees are released, each once. */
  lemma {:induction false} PassReleases(t: Table, now: TimeVal, script: seq<seq<Action>>, fired: seq<Node>, m: Node)
    requires AtRest(t) && Normal(now) && |fired| <= |script| && IsPass(t, now, script, fired) && m in t.timers
    ensures var y := After(t, now, script, fired).timers[m];
      && (y.released <==> t.timers[m].released || FreedIn(m, script[..|fired|]))
      && y.releases == Count(y.released)
    decreases |fired|
  {
    if fired == [] {
    } else {
      var k := |fired| - 1;
      var s := After(t, now, script, fired[..k]);
      PassReleases(t, now, script, fired[..k], m);
      PassKeeps(t, now, script, fired[..k]);
      FreedInNext(m, script, k);
      if m == fired[k] {
        FiringTurns(s, m, script[k], now, 0);
      } else {
        FiringMoves(s, fired[k], m, script[k], now, 0);
      }
    }
  }

  /** The deadlines at which the timers of a pass fire. */
  ghost function FiringTimes(t: Table, now: TimeVal, script: seq<seq<Action>>, fired: seq<Node>): (r: seq<int>)
    requires IsPass(t, now, script, fired)
    ensures |r| == |fired|
    decreases |fired|
  {
    if fired == [] then [] else
      var k := |fired| - 1;
      FiringTimes(t, now, script, fired[..k]) + [After(t, now, script, fired[..k]).timers[fired[k]].Due()]
  }

  ghost predicate Sorted(s: seq<int>) {
    forall i, j | 0 <= i < j < |s| :: s[i] <= s[j]
  }

  /** A firing leaves no armed timer due before its own deadline. */
  lemma FiringOvertakesNone(t: Table, n: Node, calls: seq<Action>, now: TimeVal)
    requires AtRest(t) && Normal(now) && FiresNext(t, n, now)
    ensures NoneBefore(Fired(t, n, calls, now), t.timers[n].Due())
  {
    FiringTurns(t, n, calls, now, 0);
    forall m | m in t.timers && m != n && Fired(t, n, calls, now).timers[m].armed
      ensures t.timers[n].Due() <= Fired(t, n, calls, now).timers[m].Due()
    {
      FiringMoves(t, n, m, calls, now, 0);
    }
  }

  /** The firings so far are in order, none is early, and no armed timer of `t` is due before the last one. */
  ghost predicate InOrder(deadlines: seq<int>, t: Table, now: TimeVal) {
    && Sorted(deadlines) && (forall k | 0 <= k < |deadlines| :: deadlines[k] <= Micros(now))
    && (deadlines != [] ==> NoneBefore(t, deadlines[|deadlines| - 1]))
  }

  lemma InOrderNext(deadlines: seq<int>, t: Table, n: Node, calls: seq<Action>, now: TimeVal)
    requires AtRest(t) && Normal(now) && FiresNext(t, n, now) && InOrder(deadlines, t, now)
    ensures InOrder(deadlines + [t.timers[n].Due()], Fired(t, n, calls, now), now)
  {
    FiringOvertakesNone(t, n, calls, now);
  }

  /** Deadlines fire in order and never early, and no armed timer is due before those that have fired. */
  lemma {:induction false} PassIsInOrder(t: Table, now: TimeVal, script: seq<seq<Action>>, fired: seq<Node>)
    requires AtRest(t) && Normal(now) && |fired| <= |script| && IsPass(t, now, script, fired)
    ensures InOrder(FiringTimes(t, now, script, fired), After(t, now, script, fired), now)
    decreases |fired|
  {
    if fired == [] {
    } else {
      var k := |fired| - 1;
      PassIsInOrder(t, now, script, fired[..k]);
      PassKeeps(t, now, script, fired[..k]);
      InOrderNext(FiringTimes(t, now, script, fired[..k]), After(t, now, script, fired[..k]), fired[k], script[k], now);
    }
  }

  ghost predicate UnnamedBy(n: Node, script: seq<seq<Action>>) {
    forall calls | calls in script :: Unnamed(n, calls)
  }

  lemma UnnamedByPrefix(n: Node, script: seq<seq<Action>>, k: nat)
    requires k < |script| && UnnamedBy(n, script[..k + 1])
    ensures UnnamedBy(n, script[..k]) && Unnamed(n, script[k])
  {
    assert script[..k + 1] == script[..k] + [script[k]];
    assert script[k] in script[..k + 1];
  }

  /** A timer that no callback names stays as it is until it fires. */
  lemma {:induction false} PassLeavesUnnamed(t: Table, now: TimeVal, script: seq<seq<Action>>, fired: seq<Node>,
                                             m: Node)
    requires AtRest(t) && Normal(now) && |fired| <= |script| && IsPass(t, now, script, fired)
    requires m in t.timers && m !in fired && UnnamedBy(m, script[..|fired|])
    ensures After(t, now, script, fired).timers[m] == t.timers[m]
    decreases |fired|
  {
    if fired == [] {
    } else {
      var k := |fired| - 1;
      UnnamedByPrefix(m, script, k);
      PassLeavesUnnamed(t, now, script, fired[..k], m);
      PassKeeps(t, now, script, fired[..k]);
      assert fired[k] in fired;
      FiringMoves(After(t, now, script, fired[..k]), fired[k], m, script[k], now, 0);
    }
  }

  /** A due timer repeating with a zero period. */
  ghost predicate Spins(t: Table, n: Node, now: TimeVal) {
    IsDue(t, n, now) && t.timers[n].repeat && Micros(t.timers[n].after) == 0
  }

  ghost predicate NoneSpins(t: Table, now: TimeVal) {
    forall n | n in t.timers :: !Spins(t, n, now)
  }

  ghost predicate AllDelayed(script: seq<seq<Action>>) {
    forall calls | calls in script :: Delayed(calls, 1)
  }

  /** Every timer due after a firing was due before, and is another one; none spins. */
  lemma FiringLeavesFewer(t: Table, n: Node, calls: seq<Action>, now: TimeVal)
    requires AtRest(t) && Normal(now) && FiresNext(t, n, now) && Delayed(calls, 1) && NoneSpins(t, now)
    ensures var u := Fired(t, n, calls, now);
      NoneSpins(u, now) && forall m | m in u.timers && IsDue(u, m, now) :: IsDue(t, m, now) && m != n
  {
    var u := Fired(t, n, calls, now);
    forall m | m in u.timers && IsDue(u, m, now) ensures IsDue(t, m, now) && m != n && !Spins(u, m, now) {
      if m == n {
        FiringTurns(t, n, calls, now, 1);
      } else {
        FiringMoves(t, n, m, calls, now, 1);
      }
    }
  }

  /** Whatever is due in `u` was due in `t` and has not fired. */
  ghost predicate OnceEach(t: Table, u: Table, now: TimeVal, fired: seq<Node>) {
    && Distinct(fired) && (forall m | m in fired :: IsDue(t, m, now))
    && forall m | m in u.timers && IsDue(u, m, now) :: IsDue(t, m, now) && m !in fired
  }

  lemma OnceEachNext(t: Table, s: Table, u: Table, now: TimeVal, fired: seq<Node>, n: Node)
    requires OnceEach(t, s, now, fired) && n in s.timers && IsDue(s, n, now)
    requires forall m | m in u.timers && IsDue(u, m, now) :: m in s.timers && IsDue(s, m, now) && m != n
    ensures OnceEach(t, u, now, fired + [n])
  {
  }

  /** When callbacks arm strictly later and no due timer spins, only timers due at the start fire, each once. */
  lemma {:induction false} PassFiresOnce(t: Table, now: TimeVal, script: seq<seq<Action>>, fired: seq<Node>)
    requires AtRest(t) && Normal(now) && |fired| <= |script| && IsPass(t, now, script, fired)
    requires AllDelayed(script) && NoneSpins(t, now)
    ensures OnceEach(t, After(t, now, script, fired), now, fired) && NoneSpins(After(t, now, script, fired), now)
    decreases |fired|
  {
    if fired == [] {
    } else {
      var k := |fired| - 1;
      assert fired == fired[..k] + [fired[k]] && script[k] in script;
      PassFiresOnce(t, now, script, fired[..k]);
      PassKeeps(t, now, script, fired[..k]);
      FiringLeavesFewer(After(t, now, script, fired[..k]), fired[k], script[k], now);
      OnceEachNext(t, After(t, now, script, fired[..k]), After(t, now, script, fired), now, fired[..k], fired[k]);
    }
  }

  /** A spinning timer that no callback names keeps spinning. */
  lemma {:induction false} PassKeepsSpinning(t: Table, now: TimeVal, script: seq<seq<Action>>, fired: seq<Node>,
                                             m: Node)
    requires AtRest(t) && Normal(now) && |fired| <= |script| && IsPass(t, now, script, fired)
    requires LastFault(t, now, script, fired) == Sound
    requires m in t.timers && UnnamedBy(m, script[..|fired|]) && Spins(t, m, now)
    ensures Spins(After(t, now, script, fired), m, now)
    decreases |fired|
  {
    if fired == [] {
    } else {
      var k := |fired| - 1;
      var s := After(t, now, script, fired[..k]);
      UnnamedByPrefix(m, script, k);
      PassKeepsSpinning(t, now, script, fired[..k], m);
      PassKeeps(t, now, script, fired[..k]);
      if m == fired[k] {
        FiringTurns(s, m, script[k], now, 0);
      } else {
        FiringMoves(s, fired[k], m, script[k], now, 0);
      }
    }
  }

  lemma {:induction false} DistinctFits<T>(s: seq<T>, bound: set<T>)
    requires Distinct(s) && Elements(s) <= bound
    ensures |s| <= |bound|
  {
    if s == [] {
    } else {
      var last := s[|s| - 1];
      var rest := s[..|s| - 1];
      assert last in Elements(s);
      assert forall x | x in rest :: x in Elements(s);
      DistinctFits(rest, bound - {last});
    }
  }

  lemma OnceEachBounds(t: Table, u: Table, now: TimeVal, fired: seq<Node>)
    requires OnceEach(t, u, now, fired) && DueNodes(u, now) != {}
    ensures |fired| < |DueNodes(t, now)|
  {
    var m :| m in DueNodes(u, now);
    DistinctFits(fired + [m], DueNodes(t, now));
  }

  /** While a timer is due, fewer have fired than were due at the start. */
  lemma DueTimerIsYetToFire(t: Table, now: TimeVal, script: seq<seq<Action>>, fired: seq<Node>)
    requires AtRest(t) && Normal(now) && |fired| <= |script| && IsPass(t, now, script, fired)
    requires AllDelayed(script) && NoneSpins(t, now) && DueNodes(After(t, now, script, fired), now) != {}
    ensures |fired| < |DueNodes(t, now)|
  {
    PassFiresOnce(t, now, script, fired);
    OnceEachBounds(t, After(t, now, script, fired), now, fired);
  }

  /** A pass that ends with nothing due has fired every due timer that no callback names, and none of them spun. */
  lemma EndedPassFiresDue(t: Table, now: TimeVal, script: seq<seq<Action>>, fired: seq<Node>, m: Node)
    requires AtRest(t) && Normal(now) && |fired| <= |script| && IsPass(t, now, script, fired)
    requires LastFault(t, now, script, fired) == Sound && DueNodes(After(t, now, script, fired), now) == {}
    requires m in DueNodes(t, now) && UnnamedBy(m, script[..|fired|])
    ensures m in fired && !Spins(t, m, now)
  {
    var u := After(t, now, script, fired);
    assert m in u.timers && m !in DueNodes(u, now);
    if m !in fired {
      PassLeavesUnnamed(t, now, script, fired, m);
    } else if Spins(t, m, now) {
      PassKeepsSpinning(t, now, script, fired, m);
    }
  }

  ghost predicate EndsWell(t: Table, now: TimeVal, script: seq<seq<Action>>, fired: seq<Node>) {
    forall n | n in DueNodes(t, now) && UnnamedBy(n, script) :: n in fired && !Spins(t, n, now)
  }

  lemma EndedPassEndsWell(t: Table, now: TimeVal, script: seq<seq<Action>>, fired: seq<Node>)
    requires AtRest(t) && Normal(now) && |fired| <= |script| && IsPass(t, now, script, fired)
    requires LastFault(t, now, script, fired) == Sound && DueNodes(After(t, now, script, fired), now) == {}
    ensures EndsWell(t, now, script, fired)
  {
    forall n | n in DueNodes(t, now) && UnnamedBy(n, script) ensures n in fired && !Spins(t, n, now) {
      assert forall calls | calls in script[..|fired|] :: calls in script;
      EndedPassFiresDue(t, now, script, fired, n);
    }
  }

  /** Callbacks that arm strictly later and name no due timer: a pass that may fire as many timers as are due leaves
      nothing due if and only if no due timer repeats with period zero. */
  lemma PassEndsIff(t: Table, now: TimeVal, script: seq<seq<Action>>, fired: seq<Node>)
    requires AtRest(t) && Normal(now) && |fired| <= |script| && IsPass(t, now, script, fired)
    requires LastFault(t, now, script, fired) == Sound && AllDelayed(script)
    requires forall m | m in DueNodes(t, now) :: UnnamedBy(m, script)
    requires DueNodes(After(t, now, script, fired), now) == {} || |fired| >= |DueNodes(t, now)|
    ensures DueNodes(After(t, now, script, fired), now) == {} <==> NoneSpins(t, now)
  {
    if NoneSpins(t, now) {
      if DueNodes(After(t, now, script, fired), now) != {} {
        DueTimerIsYetToFire(t, now, script, fired);
      }
    } else {
      var m :| m in t.timers && Spins(t, m, now);
      assert m in DueNodes(t, now) && forall calls | calls in script[..|fired|] :: calls in script;
      if DueNodes(After(t, now, script, fired), now) == {} {
        EndedPassFiresDue(t, now, script, fired, m);
      }
    }
  }
}
