/**
  The request throttle of `checkRateLimit`: a batch is refused when it comes
  less than five seconds after the last admitted one, or when more than ten
  admissions are still counted; an admission is forgotten one minute later.
  The clock is a parameter and the one-minute timer is the `Expire` step.
 */
module RateLimit {

  /** The minimum spacing between admitted batches, in milliseconds. */
  const RequestTimeout := 5000

  /** Admissions are refused once the counter exceeds this value. */
  const MaxExecutions := 10

  /** The two fields `checkRateLimit` reads and writes. */
  datatype Limiter = Limiter(lastExecution: int, executionCount: nat)

  datatype Verdict = Admitted | TooSoon | TooMany

  /** The counters of a fresh generator. */
  const Initial := Limiter(0, 0)

  /** The answer `checkRateLimit` gives at time `now`; the spacing rule is checked before the count. */
  function Check(l: Limiter, now: int): (v: Verdict)
    ensures v == Admitted <==> now - l.lastExecution >= RequestTimeout && l.executionCount <= MaxExecutions
    ensures v == TooSoon <==> now - l.lastExecution < RequestTimeout
    ensures v == TooMany <==> now - l.lastExecution >= RequestTimeout && l.executionCount > MaxExecutions
  {
    if now - l.lastExecution < RequestTimeout then TooSoon
    else if l.executionCount > MaxExecutions then TooMany
    else Admitted
  }

  /**
    The counters after an admission at time `now`: one more admission is
    counted, and every request in the five seconds that follow is refused.
   */
  function Admit(l: Limiter, now: int): (r: Limiter)
    ensures r.lastExecution == now && r.executionCount == l.executionCount + 1
    ensures forall t :: t < now + RequestTimeout ==> Check(r, t) == TooSoon
  {
    Limiter(now, l.executionCount + 1)
  }

  /** The one-minute timer firing: the counter drops by one, never below zero. */
  function Expire(l: Limiter): (r: Limiter)
    ensures r.lastExecution == l.lastExecution
    ensures r.executionCount <= l.executionCount
    ensures l.executionCount > 0 ==> r.executionCount == l.executionCount - 1
  {
    Limiter(l.lastExecution, if l.executionCount == 0 then 0 else l.executionCount - 1)
  }

  /** What can happen to the counters: a batch requested at a given time, or a timer firing. */
  datatype Event = Request(now: int) | TimerFires

  /** One event applied to the counters; the time of a request is recorded when it is admitted. */
  function Step(l: Limiter, e: Event): (Limiter, seq<int>) {
    match e
    case Request(now) => if Check(l, now) == Admitted then (Admit(l, now), [now]) else (l, [])
    case TimerFires => (Expire(l), [])
  }

  /** The counters after a sequence of events, with the times of the admitted requests in order. */
  function Replay(l: Limiter, events: seq<Event>): (Limiter, seq<int>)
    decreases |events|
  {
    if events == [] then (l, [])
    else
      var (l1, first) := Step(l, events[0]);
      var (l2, rest) := Replay(l1, events[1..]);
      (l2, first + rest)
  }

  /** Whether any timer fires in a sequence of events. */
  predicate NoTimer(events: seq<Event>) {
    forall i :: 0 <= i < |events| ==> events[i].Request?
  }

  /** The counter never exceeds eleven: an admission needs a counter of at most ten. */
  lemma {:induction false} CountStaysBounded(l: Limiter, events: seq<Event>)
    requires l.executionCount <= MaxExecutions + 1
    ensures Replay(l, events).0.executionCount <= MaxExecutions + 1
    decreases |events|
  {
    if events != [] {
      CountStaysBounded(Step(l, events[0]).0, events[1..]);
    }
  }

  /**
    Admitted requests are spaced: the first comes at least five seconds after
    the last admission before the events, and each later one at least five
    seconds after the one before it, whatever the clock does in between.
   */
  lemma {:induction false} AdmissionsAreSpaced(l: Limiter, events: seq<Event>)
    ensures var (l2, times) := Replay(l, events);
      && (times != [] ==> times[0] - l.lastExecution >= RequestTimeout)
      && (forall i :: 0 < i < |times| ==> times[i] - times[i - 1] >= RequestTimeout)
      && l2.lastExecution == (if times == [] then l.lastExecution else times[|times| - 1])
    decreases |events|
  {
    if events != [] {
      var (l1, first) := Step(l, events[0]);
      AdmissionsAreSpaced(l1, events[1..]);
      var (l2, rest) := Replay(l1, events[1..]);
      assert Replay(l, events).1 == first + rest;
    }
  }

  /** Without a timer firing, at most eleven minus the current count further requests are admitted. */
  lemma {:induction false} BurstIsBounded(l: Limiter, events: seq<Event>)
    requires NoTimer(events)
    ensures l.executionCount <= MaxExecutions + 1 ==> |Replay(l, events).1| <= MaxExecutions + 1 - l.executionCount
    ensures l.executionCount > MaxExecutions ==> Replay(l, events).1 == []
    decreases |events|
  {
    if events != [] {
      var (l1, first) := Step(l, events[0]);
      assert NoTimer(events[1..]) by {
        forall i | 0 <= i < |events[1..]| ensures events[1..][i].Request? {
          assert events[1..][i] == events[i + 1];
        }
      }
      BurstIsBounded(l1, events[1..]);
    }
  }
}
