/** Seconds/microseconds arithmetic of the loop clock. */
module Times {

  const MICROS := 1_000_000

  datatype TimeVal = TimeVal(sec: int, usec: int)

  predicate Normal(t: TimeVal) {
    0 <= t.sec && 0 <= t.usec < MICROS
  }

  /** The instant (or duration) a pair stands for, in microseconds. */
  function Micros(t: TimeVal): int {
    t.sec * MICROS + t.usec
  }

  /** `time_add`: carries at most one second. */
  function Add(t: TimeVal, a: TimeVal): (r: TimeVal)
    requires Normal(t) && Normal(a)
    ensures Normal(r) && Micros(r) == Micros(t) + Micros(a)
  {
    var s, u := t.sec + a.sec, t.usec + a.usec;
    if u >= MICROS then TimeVal(s + 1, u - MICROS) else TimeVal(s, u)
  }

  /** Both assertions inside `time_sub` hold for these arguments. */
  predicate SubAsserts(t: TimeVal, s: TimeVal) {
    && t.sec >= s.sec
    && (s.usec > t.usec ==> t.sec - s.sec > 0 && t.usec + MICROS - s.usec < MICROS)
  }

  /** `time_sub`: borrows at most one second. */
  function Sub(t: TimeVal, s: TimeVal): (r: TimeVal)
    requires Normal(t) && Normal(s) && SubAsserts(t, s)
    ensures Normal(r) && Micros(r) == Micros(t) - Micros(s)
  {
    if s.usec > t.usec
    then TimeVal(t.sec - s.sec - 1, t.usec + MICROS - s.usec)
    else TimeVal(t.sec - s.sec, t.usec - s.usec)
  }

  /** `time_sub` runs without failing an assertion exactly when it would not go below zero. */
  lemma SubAssertsIffNotLess(t: TimeVal, s: TimeVal)
    requires Normal(t) && Normal(s)
    ensures SubAsserts(t, s) <==> Micros(s) <= Micros(t)
  {
    if t.sec < s.sec {
      assert t.sec * MICROS + MICROS <= s.sec * MICROS;
    }
  }

  /** `time_cmp`: compares lexicographically, which agrees with comparing microseconds. */
  function Cmp(t: TimeVal, s: TimeVal): (r: int)
    requires Normal(t) && Normal(s)
    ensures r == if Micros(t) > Micros(s) then 1 else if Micros(t) < Micros(s) then -1 else 0
  {
    if t.sec > s.sec then 1
    else if t.sec < s.sec then -1
    else if t.usec > s.usec then 1
    else if t.usec < s.usec then -1
    else 0
  }
}
