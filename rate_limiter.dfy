/** The per-session throttle applied to whistleblower sessions: a window
    start and a call counter, reset after 30 seconds, and a rejection once
    the call rate measured since the window start exceeds five per second. */
module RateLimiter {

  /** The only role the throttle applies to. */
  const ThrottledRole: string := "whistleblower"

  /** Seconds after which a window expires and is restarted. */
  const WindowLength: real := 30.0

  /** Calls per second above which a call is rejected. */
  const MaxRate: real := 5.0

  /** The throttle's state on a session: window start (seconds) and the
      number of calls counted since then. */
  datatype Window = Window(start: real, count: int)

  /** Time elapsed since the window start, never less than one second. */
  function Period(start: real, now: real): (p: real)
    ensures p >= 1.0
    ensures p >= now - start
    ensures p == now - start || p == 1.0
  {
    if now - start > 1.0 then now - start else 1.0
  }

  /** The window after one call's bookkeeping: restarted if it expired,
      then counting this call. */
  function Advance(w: Window, now: real): (w': Window)
    ensures (w'.start == now && w'.count == 1) || (w'.start == w.start && w'.count == w.count + 1)
    ensures w'.start >= w.start
  {
    var w0 := if now > w.start + WindowLength then Window(now, 0) else w;
    w0.(count := w0.count + 1)
  }

  /** The call counted in `w` at time `now` goes through. */
  predicate Admits(w: Window, now: real): (ok: bool)
    ensures w.count <= 5 ==> ok
    ensures ok ==> (w.count as real) <= MaxRate * Period(w.start, now)
  {
    (w.count as real) / Period(w.start, now) <= MaxRate
  }

  /** One throttled call: the window is restarted exactly when it expired,
      and the call is counted whether or not it is then rejected. */
  lemma AdvanceCountsEveryCall(w: Window, now: real)
    ensures now > w.start + WindowLength ==> Advance(w, now) == Window(now, 1)
    ensures now <= w.start + WindowLength ==> Advance(w, now) == Window(w.start, w.count + 1)
  {
  }

  /** The rejection test on the division, read as a bound on the count:
      a call is rejected exactly when more than five calls per elapsed
      second (at least one second) have been counted. */
  lemma {:induction false} RejectsIffOverRate(w: Window, now: real)
    ensures !Admits(w, now) <==> (w.count as real) > MaxRate * Period(w.start, now)
  {
    var p := Period(w.start, now);
    var c := w.count as real;
    assert c == (c / p) * p;
    if c / p > MaxRate {
      assert (c / p) * p > MaxRate * p;
    } else {
      assert (c / p) * p <= MaxRate * p;
    }
  }

  /** No call is rejected while at most five calls are counted in its
      window, however quickly they come. */
  lemma {:induction false} FiveCallsNeverRejected(w: Window, now: real)
    requires w.count <= 5
    ensures Admits(w, now)
  {
    RejectsIffOverRate(w, now);
  }

  /** The admissions of successive calls at times `times`, starting from `w`. */
  function Burst(w: Window, times: seq<real>): (r: seq<bool>)
    ensures |r| == |times|
    decreases |times|
  {
    if times == [] then []
    else
      var w' := Advance(w, times[0]);
      [Admits(w', times[0])] + Burst(w', times[1..])
  }

  /** Calls that keep within one second of a window started at `start`
      with `c` calls already counted: the k-th of them is admitted exactly
      when the count it brings the window to is at most five. */
  lemma {:induction false} BurstWithinOneSecond(start: real, c: int, times: seq<real>)
    requires forall t :: t in times ==> t <= start + 1.0
    ensures forall k :: 0 <= k < |times| ==> (Burst(Window(start, c), times)[k] <==> c + k + 1 <= 5)
    decreases |times|
  {
    if times != [] {
      assert times[0] in times;
      var w' := Advance(Window(start, c), times[0]);
      assert w' == Window(start, c + 1);
      assert Period(start, times[0]) == 1.0;
      assert Admits(w', times[0]) <==> c + 1 <= 5;
      assert forall t :: t in times[1..] ==> t in times;
      BurstWithinOneSecond(start, c + 1, times[1..]);
      forall k | 0 <= k < |times|
        ensures Burst(Window(start, c), times)[k] <==> c + k + 1 <= 5
      {
        if k > 0 {
          assert Burst(Window(start, c), times)[k] == Burst(w', times[1..])[k - 1];
        }
      }
    }
  }

  /** Right after a reset, within one second, the first five calls are
      admitted and the sixth call is the first one rejected. */
  lemma {:induction false} SixthCallRejected(w: Window, times: seq<real>)
    requires |times| >= 6
    requires times[0] > w.start + WindowLength
    requires forall t :: t in times ==> t <= times[0] + 1.0
    ensures forall k :: 0 <= k < 5 ==> Burst(w, times)[k]
    ensures !Burst(w, times)[5]
  {
    var w1 := Advance(w, times[0]);
    assert w1 == Window(times[0], 1);
    assert times[0] in times;
    assert Period(times[0], times[0]) == 1.0;
    assert forall t :: t in times[1..] ==> t in times;
    BurstWithinOneSecond(times[0], 1, times[1..]);
    forall k | 1 <= k < |times|
      ensures Burst(w, times)[k] == Burst(w1, times[1..])[k - 1]
    {
    }
  }
}
