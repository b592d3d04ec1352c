/** Cross-thread notification: any number of sending threads, one loop thread, a pipe and a flag. */
module Async {

  /** Where the loop thread is with this event: not concerned with it, holding a completion read from the
      pipe, or about to run the callback after having cleared the flag under the lock. */
  datatype LoopPc = Idle | Drained(readOk: bool) | Running

  /** What has happened so far: a send that wrote to the pipe, one that found a notification outstanding,
      one that failed, a callback that started, a notification suppressed because of deletion, the deletion. */
  datatype Mark = Wrote | Joined | Refused | Started | Suppressed | Deleted

  /** `sent` is `async_sent`, `pipe` the number of bytes in the pipe. `sending`: some thread holds the lock
      in `nanoev_async_send`, between writing its byte and setting the flag. */
  datatype Async = Async(sent: bool, sending: bool, pipe: nat, pc: LoopPc, deleted: bool, history: seq<Mark>)

  const INIT := Async(false, false, 0, Idle, false, [])

  datatype Step = Send(writeOk: bool) | FinishSend | Drain | Clear | RunCallback | Delete

  /** Senders stop once the event is deleted; the kernel reports the pipe only when it can be read, and the
      loop thread turns to a new batch only when it is done with the previous one. The event may be freed
      by another callback of the batch that has its notification, but not between clearing the flag and
      starting its own callback, where the loop thread is busy. The lock keeps
      other senders and the locked part of the loop's callback out; reading the pipe needs no lock. */
  predicate Enabled(s: Async, a: Step) {
    match a
    case Send(_) => !s.deleted && !s.sending
    case FinishSend => s.sending
    case Drain => s.pc == Idle && s.pipe > 0
    case Clear => s.pc.Drained? && !s.sending
    case RunCallback => s.pc == Running
    case Delete => s.pc != Running && !s.deleted && !s.sending
  }

  function Note(s: Async, m: Mark): Async {
    s.(history := s.history + [m])
  }

  /** `nanoev_async_send` up to the write, and on to the end unless a byte was written. */
  function ApplySend(s: Async, writeOk: bool): Async {
    if s.sent then Note(s, Joined)
    else if !writeOk then Note(s, Refused)
    else s.(sending := true, pipe := s.pipe + 1)
  }

  /** The flag is set and the lock released. */
  function ApplyFinish(s: Async): Async {
    Note(s.(sent := true, sending := false), Wrote)
  }

  /** `reactor_cb`, without the lock. */
  function ApplyDrain(s: Async): Async {
    if s.pipe > 0 then s.(pipe := s.pipe - 1, pc := Drained(true)) else s.(pc := Drained(false))
  }

  /** The locked part of `__async_proactor_callback` and the test after it. */
  function ApplyClear(s: Async): Async
    requires s.pc.Drained?
  {
    var notify, s' := s.sent && s.pc.readOk, s.(sent := false);
    if !notify then s'.(pc := Idle)
    else if s.deleted then Note(s'.(pc := Idle), Suppressed)
    else s'.(pc := Running)
  }

  function Apply(s: Async, a: Step): Async
    requires Enabled(s, a)
  {
    match a
    case Send(ok) => ApplySend(s, ok)
    case FinishSend => ApplyFinish(s)
    case Drain => ApplyDrain(s)
    case Clear => ApplyClear(s)
    case RunCallback => Note(s.(pc := Idle), Started)
    case Delete => Note(s.(deleted := true), Deleted)
  }

  ghost predicate IsRun(s: Async, run: seq<Step>)
    decreases |run|
  {
    run == [] || (Enabled(s, run[0]) && IsRun(Apply(s, run[0]), run[1..]))
  }

  ghost function After(s: Async, run: seq<Step>): Async
    requires IsRun(s, run)
    decreases |run|
  {
    if run == [] then s else After(Apply(s, run[0]), run[1..])
  }

  function Count(h: seq<Mark>, m: Mark): nat {
    if h == [] then 0 else (if h[|h| - 1] == m then 1 else 0) + Count(h[..|h| - 1], m)
  }

  lemma CountAppend(h: seq<Mark>, x: Mark, m: Mark)
    ensures Count(h + [x], m) == Count(h, m) + if x == m then 1 else 0
  {
    assert (h + [x])[..|h|] == h;
  }

  /** Some send that reported success has no callback after it yet. */
  ghost predicate Unanswered(h: seq<Mark>) {
    exists i :: 0 <= i < |h| && (h[i] == Wrote || h[i] == Joined) && forall j | i < j < |h| :: h[j] != Started
  }

  /** Outside the critical section, bytes in the pipe plus the completion in the loop's hands are exactly
      what the flag says; inside it, the flag is about to say so. */
  ghost predicate TokenOk(s: Async) {
    && s.pipe + (if s.pc.Drained? then 1 else 0) == (if s.sent || s.sending then 1 else 0)
    && !(s.sent && s.sending)
    && (s.pc.Drained? ==> s.pc.readOk)
  }

  /** Each byte written has led, or is about to lead, to one callback, unless the event was deleted. */
  ghost predicate Conserved(s: Async) {
    Count(s.history, Wrote) ==
      Count(s.history, Started) + Count(s.history, Suppressed)
      + (if s.sent then 1 else 0) + (if s.pc == Running then 1 else 0)
  }

  /** A send not yet answered is on its way. */
  ghost predicate OnItsWay(s: Async) {
    !s.deleted && Unanswered(s.history) ==> s.sent || s.pc == Running
  }

  /** Callbacks start only before the deletion, and notifications are suppressed only after it. */
  ghost predicate DeletionOk(s: Async) {
    && (s.deleted <==> Deleted in s.history) && (s.pc == Running ==> !s.deleted)
    && (forall i, j | 0 <= i < j < |s.history| && s.history[i] == Deleted :: s.history[j] != Started)
    && (forall j | 0 <= j < |s.history| && s.history[j] == Suppressed :: Deleted in s.history[..j])
  }

  ghost predicate Inv(s: Async) {
    TokenOk(s) && Conserved(s) && OnItsWay(s) && DeletionOk(s)
  }

  lemma NoteKeepsDeletion(s: Async, m: Mark, s': Async)
    requires DeletionOk(s) && s'.history == s.history + [m] && s'.deleted == (s.deleted || m == Deleted)
    requires s'.pc == Running ==> !s'.deleted
    requires (m == Started ==> !s.deleted) && (m == Suppressed ==> s.deleted)
    ensures DeletionOk(s')
  {
    forall j | 0 <= j < |s'.history| && s'.history[j] == Suppressed ensures Deleted in s'.history[..j] {
      assert j < |s.history| ==> s'.history[..j] == s.history[..j];
      assert j == |s.history| ==> s'.history[..j] == s.history;
    }
  }

  lemma NoteKeepsUnanswered(h: seq<Mark>, m: Mark)
    ensures m == Started ==> !Unanswered(h + [m])
    ensures m in {Refused, Suppressed, Deleted} ==> (Unanswered(h + [m]) ==> Unanswered(h))
  {
    if m == Started {
      assert (h + [m])[|h|] == Started;
    } else if Unanswered(h + [m]) && m in {Refused, Suppressed, Deleted} {
      var g := h + [m];
      var i :| 0 <= i < |g| && (g[i] == Wrote || g[i] == Joined) && forall j | i < j < |g| :: g[j] != Started;
      assert h[i] == g[i] && forall j | i < j < |h| :: h[j] == g[j];
    }
  }

  /** What a step adds to the history. */
  lemma NoteKeepsCounts(h: seq<Mark>, m: Mark)
    ensures Count(h + [m], Wrote) == Count(h, Wrote) + if m == Wrote then 1 else 0
    ensures Count(h + [m], Started) == Count(h, Started) + if m == Started then 1 else 0
    ensures Count(h + [m], Suppressed) == Count(h, Suppressed) + if m == Suppressed then 1 else 0
  {
    CountAppend(h, m, Wrote);
    CountAppend(h, m, Started);
    CountAppend(h, m, Suppressed);
  }

  lemma SendKeeps(s: Async, writeOk: bool)
    requires Inv(s) && Enabled(s, Send(writeOk))
    ensures Inv(ApplySend(s, writeOk))
  {
    if s.sent || !writeOk {
      var m := if s.sent then Joined else Refused;
      NoteKeepsCounts(s.history, m);
      NoteKeepsUnanswered(s.history, m);
      NoteKeepsDeletion(s, m, ApplySend(s, writeOk));
    }
  }

  lemma FinishKeeps(s: Async)
    requires Inv(s) && Enabled(s, FinishSend)
    ensures Inv(ApplyFinish(s))
  {
    NoteKeepsCounts(s.history, Wrote);
    NoteKeepsDeletion(s, Wrote, ApplyFinish(s));
  }

  lemma ClearKeeps(s: Async)
    requires Inv(s) && Enabled(s, Clear)
    ensures Inv(ApplyClear(s))
  {
    if s.sent && s.deleted {
      NoteKeepsCounts(s.history, Suppressed);
      NoteKeepsUnanswered(s.history, Suppressed);
      NoteKeepsDeletion(s, Suppressed, ApplyClear(s));
    }
  }

  lemma RunCallbackKeeps(s: Async)
    requires Inv(s) && Enabled(s, RunCallback)
    ensures Inv(Apply(s, RunCallback))
  {
    NoteKeepsCounts(s.history, Started);
    NoteKeepsUnanswered(s.history, Started);
    NoteKeepsDeletion(s, Started, Apply(s, RunCallback));
  }

  lemma DeleteKeeps(s: Async)
    requires Inv(s) && Enabled(s, Delete)
    ensures Inv(Apply(s, Delete))
  {
    NoteKeepsCounts(s.history, Deleted);
    NoteKeepsUnanswered(s.history, Deleted);
    NoteKeepsDeletion(s, Deleted, Apply(s, Delete));
  }

  lemma StepKeeps(s: Async, a: Step)
    requires Inv(s) && Enabled(s, a)
    ensures Inv(Apply(s, a))
  {
    match a
    case Send(ok) => SendKeeps(s, ok);
    case FinishSend => FinishKeeps(s);
    case Clear => ClearKeeps(s);
    case RunCallback => RunCallbackKeeps(s);
    case Delete => DeleteKeeps(s);
    case Drain =>
  }

  lemma {:induction false} RunKeeps(s: Async, run: seq<Step>)
    requires Inv(s) && IsRun(s, run)
    ensures Inv(After(s, run))
    decreases |run|
  {
    if run == [] {
    } else {
      StepKeeps(s, run[0]);
      RunKeeps(Apply(s, run[0]), run[1..]);
    }
  }

  /** Under every interleaving: at most one byte is in the pipe, the read on readiness never fails, and
      once nothing is left in flight every successful send is followed by a callback that started
      after it. */
  lemma EverySendIsAnswered(run: seq<Step>, i: nat)
    requires IsRun(INIT, run)
    ensures var s := After(INIT, run);
      && s.pipe <= 1 && (s.pc.Drained? ==> s.pc.readOk)
      && (!s.sending ==> s.pipe + (if s.pc.Drained? then 1 else 0) == if s.sent then 1 else 0)
      && (!s.deleted && s.pipe == 0 && s.pc == Idle && i < |s.history| && s.history[i] in {Wrote, Joined}
          ==> exists j :: i < j < |s.history| && s.history[j] == Started)
  {
    assert !Unanswered([]);
    RunKeeps(INIT, run);
  }

  /** A notification in flight can always be delivered: the loop thread alone gets to a callback. */
  lemma InFlightIsDeliverable(s: Async) returns (run: seq<Step>)
    requires Inv(s) && !s.deleted && (s.sent || s.pc == Running)
    ensures IsRun(s, run) && After(s, run).history == s.history + [Started] && |run| <= 3
  {
    if s.pc == Running {
      run := [RunCallback];
      assert IsRun(Apply(s, RunCallback), []) && run[1..] == [];
    } else if s.pc.Drained? {
      run := [Clear, RunCallback];
      var s1 := Apply(s, Clear);
      assert run[1..] == [RunCallback] && [RunCallback][1..] == [];
      assert IsRun(Apply(s1, RunCallback), []) && IsRun(s1, [RunCallback]);
    } else {
      run := [Drain, Clear, RunCallback];
      var s1 := Apply(s, Drain);
      var s2 := Apply(s1, Clear);
      assert run[1..] == [Clear, RunCallback] && [Clear, RunCallback][1..] == [RunCallback] && [RunCallback][1..] == [];
      assert IsRun(Apply(s2, RunCallback), []) && IsRun(s2, [RunCallback]) && IsRun(s1, [Clear, RunCallback]);
    }
  }

  /** Which sends succeed: one is refused exactly when no notification is outstanding and its byte cannot be written. It
      joins a notification exactly when one is outstanding, and otherwise its byte is in the pipe and the flag is set
      before the lock is released. */
  lemma SendIsRefusedIff(s: Async, writeOk: bool)
    requires Inv(s) && Enabled(s, Send(writeOk))
    ensures var s' := Apply(s, Send(writeOk));
      && (s'.history == s.history + [Refused] <==> !s.sent && !writeOk)
      && (s'.history == s.history + [Joined] <==> s.sent)
      && (s'.sending <==> !s.sent && writeOk)
      && (s'.sending ==> s'.pipe == s.pipe + 1 && s'.history == s.history && Enabled(s', FinishSend)
                         && Apply(s', FinishSend).sent && Apply(s', FinishSend).history == s.history + [Wrote])
      && (!s'.sending ==> s'.sent == s.sent && s'.pipe == s.pipe)
  {
    var h := s.history;
    assert (h + [Joined])[|h|] == Joined && (h + [Refused])[|h|] == Refused;
  }

  lemma {:induction false} RunsOn(s: Async, run1: seq<Step>, run2: seq<Step>)
    requires IsRun(s, run1) && IsRun(After(s, run1), run2)
    ensures IsRun(s, run1 + run2) && After(s, run1 + run2) == After(After(s, run1), run2)
    decreases |run1|
  {
    if run1 == [] {
      assert run1 + run2 == run2;
    } else {
      RunsOn(Apply(s, run1[0]), run1[1..], run2);
      assert (run1 + run2)[1..] == run1[1..] + run2;
    }
  }

  lemma OneStep(s: Async, a: Step)
    requires Enabled(s, a)
    ensures IsRun(s, [a]) && After(s, [a]) == Apply(s, a)
  {
    assert [a][1..] == [] && IsRun(Apply(s, a), []);
  }

  /** The send is over: it has joined the outstanding notification or written its byte. */
  lemma SendSucceeds(s: Async) returns (run: seq<Step>, m: Mark)
    requires Inv(s) && !s.deleted && !s.sending
    ensures IsRun(s, run) && |run| <= 2 && m in {Wrote, Joined}
    ensures var s' := After(s, run);
      s'.history == s.history + [m] && s'.sent && !s'.deleted && Inv(s') && run != [] && run[0] == Send(true)
  {
    SendIsRefusedIff(s, true);
    StepKeeps(s, Send(true));
    OneStep(s, Send(true));
    var s1 := Apply(s, Send(true));
    if s.sent {
      run, m := [Send(true)], Joined;
    } else {
      StepKeeps(s1, FinishSend);
      OneStep(s1, FinishSend);
      RunsOn(s, [Send(true)], [FinishSend]);
      run, m := [Send(true)] + [FinishSend], Wrote;
    }
  }

  /** From every state that can be reached, a send whose byte can be written succeeds, and the loop thread alone gets
      from there to a callback that starts after it. */
  lemma SendIsFollowedByCallback(s: Async) returns (run: seq<Step>, m: Mark)
    requires Inv(s) && !s.deleted && !s.sending
    ensures IsRun(s, run) && run != [] && run[0] == Send(true) && |run| <= 5 && m in {Wrote, Joined}
    ensures After(s, run).history == s.history + [m] + [Started]
  {
    var run1;
    run1, m := SendSucceeds(s);
    var run2 := InFlightIsDeliverable(After(s, run1));
    RunsOn(s, run1, run2);
    run := run1 + run2;
  }

  /** Under every interleaving no callback starts once the event is deleted, and no notification of an event that is
      not deleted is suppressed. */
  lemma NoCallbackAfterDeletion(run: seq<Step>, i: nat, j: nat)
    requires IsRun(INIT, run) && i < j < |After(INIT, run).history|
    ensures var h := After(INIT, run).history;
      && (h[i] == Deleted ==> h[j] != Started)
      && (h[j] == Suppressed ==> Deleted in h[..j])
  {
    assert !Unanswered([]);
    RunKeeps(INIT, run);
  }
}
