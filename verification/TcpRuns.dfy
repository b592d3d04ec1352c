/** Runs from the initial state to the states in which the code does not do what one expects. */
module TcpRuns {
  import opened TcpEvent
  import opened TcpInvariant
  import opened TcpOutcomes
  import opened TcpLoop
  import opened TcpTheorems
  import opened TcpInterest

  ghost predicate Leads(steps: seq<Step>, w: World, stuck: set<Id>) {
    IsRun(Init(Reactor), steps) && After(Init(Reactor), steps) == w && Stuck(Init(Reactor), steps, {}) == stuck
  }

  /** Some run of a reactor loop ends in `w`, with the history `stuck`. */
  ghost predicate Reachable(w: World, stuck: set<Id>) {
    exists steps :: Leads(steps, w, stuck)
  }

  /** A run goes on with one more step. */
  lemma {:induction false} Append(w: World, steps: seq<Step>, s: Step, stuck: set<Id>)
    requires IsRun(w, steps) && Enabled(After(w, steps), s)
    ensures IsRun(w, steps + [s]) && After(w, steps + [s]) == Apply(After(w, steps), s)
    ensures Stuck(w, steps + [s], stuck) == StuckStep(After(w, steps), s, Stuck(w, steps, stuck))
    decreases |steps|
  {
    if steps == [] {
      assert [s][1..] == [] && IsRun(Apply(w, s), []);
    } else {
      Append(Apply(w, steps[0]), steps[1..], s, StuckStep(w, steps[0], stuck));
      assert (steps + [s])[1..] == steps[1..] + [s];
    }
  }

  lemma Goes(w: World, s: Step, w': World, stuck: set<Id>)
    requires Reachable(w, stuck) && Enabled(w, s) && Apply(w, s) == w'
    ensures Reachable(w', StuckStep(w, s, stuck))
  {
    var steps :| Leads(steps, w, stuck);
    Append(Init(Reactor), steps, s, {});
    assert Leads(steps + [s], w', StuckStep(w, s, stuck));
  }

  /** A reactor loop with a single event. */
  function Solo(phase: Phase, t: Tcp, fake: seq<Ev>, batch: seq<Ev>, seen: set<Ev>, ops: map<Token, Op>,
                log: seq<Entry>): World {
    World(Reactor, phase, map[0 := t], 1, fake, {}, batch, seen, [], ops, |ops|, log, map[], {}, false)
  }

  lemma TurnBegins(phase: Phase, t: Tcp, fake: seq<Ev>, seen: set<Ev>, ops: map<Token, Op>, log: seq<Entry>)
    requires Reachable(Solo(phase, t, fake, [], seen, ops, log), {}) && (phase == Outside || phase == Dispatching)
    ensures Reachable(Solo(Firing, t, fake, [], seen, ops, log), {})
  {
    Goes(Solo(phase, t, fake, [], seen, ops, log), BeginTurn, Solo(Firing, t, fake, [], seen, ops, log), {});
  }

  lemma SweepDoesNothing(t: Tcp, fake: seq<Ev>, seen: set<Ev>, ops: map<Token, Op>, log: seq<Entry>)
    requires Reachable(Solo(Firing, t, fake, [], seen, ops, log), {})
    ensures Reachable(Solo(Swept, t, fake, [], seen, ops, log), {})
  {
    var w := Solo(Firing, t, fake, [], seen, ops, log);
    assert Idle(w) == {} && w.objs - {} == w.objs;
    Goes(w, Step.Sweep, Solo(Swept, t, fake, [], seen, ops, log), {});
  }

  const WORKS := Env(GoodSocket, Done, true, true, true)
  const WAITS := Env(GoodSocket, InProgress, true, true, true)
  const UNTIMED := Args(true, false)
  const TIMED := Args(true, true)

  const DIALLING := FRESH.(open := true, writing := true, onConnect := Of(0))
  const DIALLED := map[0 := Op(0, Connecting)]

  lemma NewIsReached()
    ensures Reachable(Solo(Outside, FRESH, [], [], {}, map[], []), {})
  {
    assert Leads([], Init(Reactor), {});
    Goes(Init(Reactor), New, Solo(Outside, FRESH, [], [], {}, map[], []), {});
  }

  lemma DiallingIsReached()
    ensures Reachable(Solo(Outside, DIALLING, [Ev(0, Wr)], [], {}, DIALLED, []), {})
  {
    NewIsReached();
    var w := Solo(Outside, FRESH, [], [], {}, map[], []);
    Goes(w, StartCall(0, Connecting, UNTIMED, WORKS), Solo(Outside, DIALLING, [Ev(0, Wr)], [], {}, DIALLED, []), {});
  }

  lemma DialledIsDispatched()
    ensures Reachable(Solo(Dispatching, DIALLING, [], [Ev(0, Wr)], {}, DIALLED, []), {})
  {
    DiallingIsReached();
    TurnBegins(Outside, DIALLING, [Ev(0, Wr)], {}, DIALLED, []);
    SweepDoesNothing(DIALLING, [Ev(0, Wr)], {}, DIALLED, []);
    var w := Solo(Swept, DIALLING, [Ev(0, Wr)], [], {}, DIALLED, []);
    Goes(w, DrainFake, Solo(Dispatching, DIALLING, [], [Ev(0, Wr)], {}, DIALLED, []), {});
  }

  const LOG := [Entry(0, Call(0, Connecting, 0, Null))]

  lemma ConnectedIsReached()
    ensures Reachable(Solo(Dispatching, CLIENT, [], [], {}, DIALLED, LOG), {})
  {
    DialledIsDispatched();
    var w := Solo(Dispatching, DIALLING, [], [Ev(0, Wr)], {}, DIALLED, []);
    Goes(w, Deliver(true, false), Solo(Dispatching, CLIENT, [], [], {}, DIALLED, LOG), {});
  }

  const WRITING := CLIENT.(writing := true, evWrite := true, data := Buffers(Null, Of(1)), onWrite := Of(1))
  const BOTH := map[0 := Op(0, Connecting), 1 := Op(0, Writing)]

  lemma WriteWaits()
    ensures Write(Reactor, CLIENT, UNTIMED, 1, WAITS) == Started(WRITING, Success, false)
  {
  }

  lemma WritingIsReached()
    ensures Reachable(Solo(Dispatching, WRITING, [], [], {}, BOTH, LOG), {})
  {
    ConnectedIsReached();
    WriteWaits();
    assert DIALLED[1 := Op(0, Writing)] == BOTH;
    var w := Solo(Dispatching, CLIENT, [], [], {}, DIALLED, LOG);
    Goes(w, StartCall(0, Writing, UNTIMED, WAITS), Solo(Dispatching, WRITING, [], [], {}, BOTH, LOG), {});
  }

  lemma WaitIsReached()
    ensures Reachable(Solo(Collecting, WRITING, [], [], {}, BOTH, LOG), {})
  {
    WritingIsReached();
    TurnBegins(Dispatching, WRITING, [], {}, BOTH, LOG);
    SweepDoesNothing(WRITING, [], {}, BOTH, LOG);
    Goes(Solo(Swept, WRITING, [], [], {}, BOTH, LOG), BeginWait, Solo(Collecting, WRITING, [], [], {}, BOTH, LOG), {});
  }

  lemma WriteIsReported()
    ensures Reachable(Solo(Dispatching, WRITING, [], [Ev(0, Wr)], {Ev(0, Wr)}, BOTH, LOG), {})
  {
    WaitIsReached();
    var w1 := Solo(Collecting, WRITING, [], [Ev(0, Wr)], {Ev(0, Wr)}, BOTH, LOG);
    assert map[0 := WRITING][0 := WRITING] == map[0 := WRITING];
    Goes(Solo(Collecting, WRITING, [], [], {}, BOTH, LOG), ReportReady(0, Wr, Status(0)), w1, {});
    Goes(w1, EndWait, Solo(Dispatching, WRITING, [], [Ev(0, Wr)], {Ev(0, Wr)}, BOTH, LOG), {});
  }

  const WRITTEN := WRITING.(writing := false, onWrite := Null)
  const LONGER_LOG := LOG + [Entry(0, Call(1, Writing, 0, Of(1)))]

  lemma WriteIsOver()
    ensures Complete(Reactor, WRITING, Wr, false) == Delivered(WRITTEN, Runs(Call(1, Writing, 0, Of(1))), false)
  {
  }

  lemma StuckIsReached()
    ensures Reachable(Solo(Dispatching, WRITTEN, [], [], {Ev(0, Wr)}, BOTH, LONGER_LOG), {0})
  {
    WriteIsReported();
    WriteIsOver();
    var w := Solo(Dispatching, WRITING, [], [Ev(0, Wr)], {Ev(0, Wr)}, BOTH, LOG);
    Goes(w, Deliver(false, false), Solo(Dispatching, WRITTEN, [], [], {Ev(0, Wr)}, BOTH, LONGER_LOG), {});
    assert {} + {0} == {0};
  }

  /** A write had to wait, and dropping the interest failed when it was done: the next write passes its checks
      and fails its assertion. */
  lemma WriteAssertionFails()
    ensures exists w, stuck :: Reachable(w, stuck) && 0 in stuck && 0 in w.objs
                               && Admitted(w.objs[0], Writing, UNTIMED) && w.objs[0].evWrite
  {
    StuckIsReached();
  }

  const WAITING := DIALLING.(evWrite := true)

  lemma WaitingIsReached()
    ensures Reachable(Solo(Outside, WAITING, [], [], {}, DIALLED, []), {})
  {
    NewIsReached();
    var w := Solo(Outside, FRESH, [], [], {}, map[], []);
    Goes(w, StartCall(0, Connecting, UNTIMED, WAITS), Solo(Outside, WAITING, [], [], {}, DIALLED, []), {});
  }

  /** A connection attempt under way, and the event freed: nothing gives it back while the loop lives. */
  lemma StrandedIsReached()
    ensures exists w :: Reachable(w, {}) && Stranded(w, 0, Wr)
  {
    WaitingIsReached();
    var w := Solo(Outside, WAITING, [], [], {}, DIALLED, []);
    var w' := w.(objs := map[0 := WAITING.(open := false, deleted := true)], endgame := [0], freed := map[0 := 0]);
    Goes(w, FreeCall(0), w', {});
  }

  const THREE := BOTH[2 := Op(0, Reading)]
  const EXPIRING := WRITING.(reading := true, data := Buffers(Of(2), Of(1)), onRead := Of(2), opRead := For(Reading),
                             armedRead := true)

  lemma ReadWaits()
    ensures Read(Reactor, WRITING, TIMED, 2, WAITS) == Started(EXPIRING, Success, false)
  {
  }

  lemma ExpiringIsReached()
    ensures Reachable(Solo(Firing, EXPIRING, [], [], {}, THREE, LOG), {})
  {
    WritingIsReached();
    ReadWaits();
    var w := Solo(Dispatching, WRITING, [], [], {}, BOTH, LOG);
    Goes(w, StartCall(0, Reading, TIMED, WAITS), Solo(Dispatching, EXPIRING, [], [], {}, THREE, LOG), {});
    TurnBegins(Dispatching, EXPIRING, [], {}, THREE, LOG);
  }

  const EXPIRED := EXPIRING.(reading := false, open := false, error := true, onRead := Null, opRead := NoTimeout,
                             armedRead := false)
  const TIMEOUT_LOG := LOG + [Entry(0, Call(2, Reading, TIMED_OUT, Of(2)))]

  lemma ReadExpires()
    ensures Timeout(Reactor, EXPIRING, Rd, true) == Delivered(EXPIRED, Runs(Call(2, Reading, TIMED_OUT, Of(2))), false)
  {
  }

  lemma ExpiredIsReached()
    ensures Reachable(Solo(Firing, EXPIRED, [], [], {}, THREE, TIMEOUT_LOG), {})
  {
    ExpiringIsReached();
    ReadExpires();
    var w := Solo(Firing, EXPIRING, [], [], {}, THREE, LOG);
    Goes(w, TimeoutFires(0, Rd, true), Solo(Firing, EXPIRED, [], [], {}, THREE, TIMEOUT_LOG), {});
  }

  /** A read times out while a write is pending: a closed event on which a new connection attempt would run the
      old write's callback. */
  lemma MisroutableIsReached()
    ensures exists w :: Reachable(w, {}) && 0 in w.objs && TcpOk(Reactor, w.objs[0]) && !w.objs[0].open
                        && !w.objs[0].deleted && w.objs[0].connected && w.objs[0].writing
  {
    ExpiredIsReached();
  }
}
