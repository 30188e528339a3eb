/** The two circuit breakers: the one in front of Kafka (Go) and the one in front of core-api (Python). */
module Breakers {
  import opened Domain

  datatype State = Closed | Tripped | HalfOpen

  datatype Breaker = Breaker(state: State, failures: int, openedAt: Time)

  const FRESH := Breaker(Closed, 0, 0)

  datatype Settings = Settings(threshold: int, reset: Time)

  datatype Language = Go | Python

  /** What happens to a breaker. Python's `on_failure` reads the clock once to look and once to trip. */
  datatype Event = Admit(at: Time) | Succeed(at: Time) | Fail(at: Time, trippedAt: Time) | Observe(at: Time)

  predicate ResetDue(cfg: Settings, b: Breaker, now: Time) {
    b.state == Tripped && now - b.openedAt >= cfg.reset
  }

  function Look(cfg: Settings, b: Breaker, now: Time): Breaker {
    if ResetDue(cfg, b, now) then b.(state := HalfOpen) else b
  }

  function Failed(cfg: Settings, b: Breaker, now: Time): Breaker {
    if b.state == HalfOpen || b.failures + 1 >= cfg.threshold then Breaker(Tripped, 0, now)
    else b.(failures := b.failures + 1)
  }

  /** Go moves to half-open only in `allow`; Python whenever anyone looks at the state. */
  function Next(lang: Language, cfg: Settings, b: Breaker, e: Event): Breaker {
    match e
    case Admit(at) => Look(cfg, b, at)
    case Succeed(_) => b.(state := Closed, failures := 0)
    case Fail(at, trippedAt) => Failed(cfg, if lang == Python then Look(cfg, b, at) else b, trippedAt)
    case Observe(at) => if lang == Python then Look(cfg, b, at) else b
  }

  predicate LetsThrough(b: Breaker) {
    b.state != Tripped
  }

  function After(lang: Language, cfg: Settings, b: Breaker, trace: seq<Event>): Breaker
    decreases |trace|
  {
    if trace == [] then b
    else Next(lang, cfg, After(lang, cfg, b, trace[..|trace| - 1]), trace[|trace| - 1])
  }

  /** For each call in the trace, was it admitted? */
  function Admissions(lang: Language, cfg: Settings, b: Breaker, trace: seq<Event>): seq<bool>
    decreases |trace|
  {
    if trace == [] then []
    else
      Admissions(lang, cfg, b, trace[..|trace| - 1]) +
      (if trace[|trace| - 1].Admit? then [LetsThrough(After(lang, cfg, b, trace))] else [])
  }

  function EventTime(e: Event): Time {
    match e
    case Fail(_, trippedAt) => trippedAt
    case _ => e.at
  }

  /** The clock at the end of a trace. */
  function Clock(start: Time, trace: seq<Event>): Time {
    if trace == [] then start else EventTime(trace[|trace| - 1])
  }

  /** The clock never goes back. */
  ghost predicate InOrder(start: Time, trace: seq<Event>)
    decreases |trace|
  {
    trace != [] ==>
      var last := trace[|trace| - 1];
      && InOrder(start, trace[..|trace| - 1])
      && Clock(start, trace[..|trace| - 1]) <= last.at
      && (last.Fail? ==> last.at <= last.trippedAt)
  }

  /** An admitted call whose outcome has not come yet. */
  function Pending(lang: Language, cfg: Settings, b: Breaker, trace: seq<Event>): bool
    decreases |trace|
  {
    trace != [] &&
    var last := trace[|trace| - 1];
    match last
    case Admit(_) => LetsThrough(After(lang, cfg, b, trace))
    case Observe(_) => Pending(lang, cfg, b, trace[..|trace| - 1])
    case _ => false
  }

  /** At most one outcome follows each admitted call, before the next call. */
  ghost predicate Disciplined(lang: Language, cfg: Settings, b: Breaker, trace: seq<Event>)
    decreases |trace|
  {
    trace != [] ==>
      var last := trace[|trace| - 1];
      && Disciplined(lang, cfg, b, trace[..|trace| - 1])
      && (last.Succeed? || last.Fail? ==> Pending(lang, cfg, b, trace[..|trace| - 1]))
  }

  /** Go's breaker may still read open where Python's, having been looked at, already reads half-open. */
  ghost predicate Related(cfg: Settings, go: Breaker, py: Breaker, pending: bool, now: Time) {
    || (go == py && (pending ==> LetsThrough(go)))
    || (!pending && ResetDue(cfg, go, now) && py == go.(state := HalfOpen))
  }

  lemma {:induction false} BreakersStayRelated(cfg: Settings, b: Breaker, start: Time, trace: seq<Event>)
    requires InOrder(start, trace) && Disciplined(Go, cfg, b, trace)
    ensures Related(cfg, After(Go, cfg, b, trace), After(Python, cfg, b, trace),
                    Pending(Go, cfg, b, trace), Clock(start, trace))
    ensures Admissions(Go, cfg, b, trace) == Admissions(Python, cfg, b, trace)
    ensures Pending(Go, cfg, b, trace) == Pending(Python, cfg, b, trace)
    decreases |trace|
  {
    if trace != [] {
      BreakersStayRelated(cfg, b, start, trace[..|trace| - 1]);
    }
  }

  /** On every disciplined trace the two designs admit and reject exactly the same calls. */
  lemma BreakersAgree(cfg: Settings, b: Breaker, start: Time, trace: seq<Event>)
    requires InOrder(start, trace) && Disciplined(Go, cfg, b, trace)
    ensures Admissions(Go, cfg, b, trace) == Admissions(Python, cfg, b, trace)
  {
    BreakersStayRelated(cfg, b, start, trace);
  }

  /** An outcome that arrives late separates them exactly when Go has a reset due and would not trip again. */
  lemma LateFailureSeparates(cfg: Settings, b: Breaker, at: Time, trippedAt: Time)
    requires b.failures >= 0
    ensures Next(Go, cfg, b, Fail(at, trippedAt)) == Next(Python, cfg, b, Fail(at, trippedAt))
            <==> !ResetDue(cfg, b, at) || b.failures + 1 >= cfg.threshold
  {
  }

  const LATE: seq<Event> := [Admit(0), Admit(0), Admit(0), Fail(0, 0), Fail(0, 0), Fail(10, 10), Admit(10)]

  lemma Added(lang: Language, cfg: Settings, trace: seq<Event>, e: Event)
    requires InOrder(0, trace) && Clock(0, trace) <= e.at && (e.Fail? ==> e.at <= e.trippedAt)
    ensures InOrder(0, trace + [e]) && Clock(0, trace + [e]) == EventTime(e)
    ensures After(lang, cfg, FRESH, trace + [e]) == Next(lang, cfg, After(lang, cfg, FRESH, trace), e)
    ensures Admissions(lang, cfg, FRESH, trace + [e]) ==
            Admissions(lang, cfg, FRESH, trace) +
            (if e.Admit? then [LetsThrough(Next(lang, cfg, After(lang, cfg, FRESH, trace), e))] else [])
  {
    assert (trace + [e])[..|trace|] == trace;
  }

  lemma LateTrace(lang: Language)
    ensures InOrder(0, LATE) && Admissions(lang, Settings(2, 10), FRESH, LATE) == [true, true, true, lang == Go]
  {
    var cfg := Settings(2, 10);
    assert InOrder(0, []) && Clock(0, []) == 0;
    assert After(lang, cfg, FRESH, []) == FRESH && Admissions(lang, cfg, FRESH, []) == [];
    hide After;
    hide Admissions;
    hide InOrder;
    hide Clock;
    Added(lang, cfg, [], Admit(0));
    var a := [] + [Admit(0)];
    Added(lang, cfg, a, Admit(0));
    var b := a + [Admit(0)];
    Added(lang, cfg, b, Admit(0));
    var c := b + [Admit(0)];
    Added(lang, cfg, c, Fail(0, 0));
    var d := c + [Fail(0, 0)];
    Added(lang, cfg, d, Fail(0, 0));
    var e := d + [Fail(0, 0)];
    Added(lang, cfg, e, Fail(10, 10));
    var f := e + [Fail(10, 10)];
    Added(lang, cfg, f, Admit(10));
    assert LATE == f + [Admit(10)];
  }

  /** Three calls at once against a threshold of two: the last failure comes late, and the next call shows it. */
  lemma ConcurrentCallsDisagree()
    ensures InOrder(0, LATE)
    ensures Admissions(Go, Settings(2, 10), FRESH, LATE) == [true, true, true, true]
    ensures Admissions(Python, Settings(2, 10), FRESH, LATE) == [true, true, true, false]
  {
    LateTrace(Go);
    LateTrace(Python);
  }

  // ---- When a breaker opens and when it lets through again ----

  /** Failures since the last success. */
  function Streak(trace: seq<Event>): nat {
    if trace == [] then 0
    else
      match trace[|trace| - 1]
      case Succeed(_) => 0
      case Fail(_, _) => Streak(trace[..|trace| - 1]) + 1
      case _ => Streak(trace[..|trace| - 1])
  }

  /** While closed, the count is of consecutive failures: a success in between starts it over. */
  lemma {:induction false} ClosedCountsTheStreak(lang: Language, cfg: Settings, trace: seq<Event>)
    requires After(lang, cfg, FRESH, trace).state == Closed
    ensures After(lang, cfg, FRESH, trace).failures == Streak(trace)
    decreases |trace|
  {
    if trace != [] && !trace[|trace| - 1].Succeed? {
      ClosedCountsTheStreak(lang, cfg, trace[..|trace| - 1]);
    }
  }

  /**
    A breaker that was not open opens exactly at a failure, of a probe or of the call that makes it `threshold` failures
    with no success between them.
   */
  lemma OpensIff(lang: Language, cfg: Settings, trace: seq<Event>, e: Event)
    requires After(lang, cfg, FRESH, trace).state != Tripped
    ensures After(lang, cfg, FRESH, trace + [e]).state == Tripped
            <==> e.Fail? && (After(lang, cfg, FRESH, trace).state == HalfOpen || Streak(trace) + 1 >= cfg.threshold)
    ensures After(lang, cfg, FRESH, trace + [e]).state == Tripped ==>
              After(lang, cfg, FRESH, trace + [e]) == Breaker(Tripped, 0, EventTime(e))
  {
    assert (trace + [e])[..|trace|] == trace;
    if After(lang, cfg, FRESH, trace).state == Closed {
      ClosedCountsTheStreak(lang, cfg, trace);
    }
  }

  /** A success closes the breaker from any state and forgets every failure before it. */
  lemma SuccessForgets(lang: Language, cfg: Settings, trace: seq<Event>, at: Time, failedAt: Time)
    ensures var closed := After(lang, cfg, FRESH, trace + [Succeed(at)]);
            && closed.state == Closed && closed.failures == 0
            && (cfg.threshold > 1 ==>
                  var once := Next(lang, cfg, closed, Fail(failedAt, failedAt));
                  once.state == Closed && once.failures == 1)
  {
    assert (trace + [Succeed(at)])[..|trace|] == trace;
  }

  /** Asking too early changes nothing, however often; asking when the reset is due is let through. */
  lemma {:induction false} ShutUntilReset(lang: Language, cfg: Settings, b: Breaker, trace: seq<Event>, at: Time)
    requires b.state == Tripped
    requires forall k | 0 <= k < |trace| ::
               (trace[k].Admit? || trace[k].Observe?) && trace[k].at < b.openedAt + cfg.reset
    ensures After(lang, cfg, b, trace) == b && Reached(lang, cfg, b, trace) == 0
    ensures LetsThrough(Next(lang, cfg, After(lang, cfg, b, trace), Admit(at))) <==> at >= b.openedAt + cfg.reset
    decreases |trace|
  {
    if trace != [] {
      ShutUntilReset(lang, cfg, b, trace[..|trace| - 1], at);
    }
  }

  // ---- An outage ----

  /** Calls come one at a time and every admitted one fails. */
  ghost predicate Outage(lang: Language, cfg: Settings, b: Breaker, trace: seq<Event>)
    decreases |trace|
  {
    trace != [] ==>
      var last, front := trace[|trace| - 1], trace[..|trace| - 1];
      && Outage(lang, cfg, b, front)
      && !last.Succeed?
      && (last.Fail? ==> Pending(lang, cfg, b, front))
      && (last.Admit? ==> !Pending(lang, cfg, b, front))
  }

  /** The calls that reached the dependency. */
  function Reached(lang: Language, cfg: Settings, b: Breaker, trace: seq<Event>): nat
    decreases |trace|
  {
    if trace == [] then 0
    else
      Reached(lang, cfg, b, trace[..|trace| - 1]) +
      (if trace[|trace| - 1].Admit? && LetsThrough(After(lang, cfg, b, trace)) then 1 else 0)
  }

  function Probes(at: Time, n: nat): seq<Event> {
    seq(n, _ => Admit(at))
  }

  /** Half-open is no gate for one: calls that do not wait for each other are all let through once the reset is due. */
  lemma {:induction false} ProbesAreUnlimited(lang: Language, cfg: Settings, b: Breaker, at: Time, n: nat)
    requires ResetDue(cfg, b, at)
    ensures Reached(lang, cfg, b, Probes(at, n)) == n
    ensures n > 0 ==> After(lang, cfg, b, Probes(at, n)) == b.(state := HalfOpen)
  {
    if n > 0 {
      ProbesAreUnlimited(lang, cfg, b, at, n - 1);
      var probes := Probes(at, n);
      assert probes[..n - 1] == Probes(at, n - 1) && probes[n - 1] == Admit(at);
      assert After(lang, cfg, b, probes) == Look(cfg, After(lang, cfg, b, probes[..n - 1]), at);
    }
  }

  datatype FirstTrip = NoTrip | TrippedAt(at: Time)

  /** When the breaker first opened. */
  function FirstTripOf(lang: Language, cfg: Settings, b: Breaker, trace: seq<Event>): FirstTrip
    decreases |trace|
  {
    if trace == [] then NoTrip
    else
      var before := FirstTripOf(lang, cfg, b, trace[..|trace| - 1]);
      if before.NoTrip? && After(lang, cfg, b, trace).state == Tripped then TrippedAt(EventTime(trace[|trace| - 1]))
      else before
  }

  function Failures(cfg: Settings): nat {
    if cfg.threshold < 1 then 1 else cfg.threshold
  }

  /** Between two events of an outage: each call past the threshold has paid for a whole reset period. */
  ghost predicate Paid(cfg: Settings, b: Breaker, pending: bool, reached: nat, first: FirstTrip, now: Time) {
    var waiting := if pending then 1 else 0;
    && waiting <= reached && (first.TrippedAt? ==> first.at <= now)
    && match b.state
       case Closed => first.NoTrip? && reached - waiting <= b.failures && reached - waiting < Failures(cfg)
       case Tripped =>
         && !pending
         && (reached == 0
             || (first.TrippedAt? && first.at + (reached - Failures(cfg)) * cfg.reset <= b.openedAt <= now))
       case HalfOpen =>
         || reached == waiting
         || (first.TrippedAt?
             && first.at + (reached - waiting - Failures(cfg)) * cfg.reset <= b.openedAt <= now - cfg.reset)
  }

  /** One event of an outage keeps the accounts. */
  lemma PaysOn(lang: Language, cfg: Settings, b: Breaker, pending: bool, reached: nat, first: FirstTrip, now: Time,
               e: Event)
    requires cfg.reset > 0 && Paid(cfg, b, pending, reached, first, now) && now <= e.at
    requires !e.Succeed? && (e.Fail? ==> pending && e.at <= e.trippedAt) && (e.Admit? ==> !pending)
    requires pending ==> LetsThrough(b)
    ensures var next := Next(lang, cfg, b, e);
            Paid(cfg, next, (e.Admit? && LetsThrough(next)) || (e.Observe? && pending),
                 reached + (if e.Admit? && LetsThrough(next) then 1 else 0),
                 if first.NoTrip? && next.state == Tripped then TrippedAt(EventTime(e)) else first, EventTime(e))
  {
    var paid := reached - Failures(cfg);
    AtMostNothing(paid, cfg.reset);
    assert (paid - 1) * cfg.reset == paid * cfg.reset - cfg.reset;
  }

  lemma AtMostNothing(k: int, d: int)
    requires d > 0
    ensures k <= 0 ==> k * d <= 0
  {
  }

  lemma {:induction false} PendingIsLetThrough(lang: Language, cfg: Settings, b: Breaker, trace: seq<Event>)
    requires Pending(lang, cfg, b, trace)
    ensures LetsThrough(After(lang, cfg, b, trace))
    decreases |trace|
  {
    if trace[|trace| - 1].Observe? {
      PendingIsLetThrough(lang, cfg, b, trace[..|trace| - 1]);
    }
  }

  lemma {:induction false} OutagePays(lang: Language, cfg: Settings, b: Breaker, start: Time, trace: seq<Event>)
    requires cfg.reset > 0 && b.failures >= 0 && InOrder(start, trace) && Outage(lang, cfg, b, trace)
    ensures Paid(cfg, After(lang, cfg, b, trace), Pending(lang, cfg, b, trace), Reached(lang, cfg, b, trace),
                 FirstTripOf(lang, cfg, b, trace), Clock(start, trace))
    decreases |trace|
  {
    if trace != [] {
      var front, last := trace[..|trace| - 1], trace[|trace| - 1];
      OutagePays(lang, cfg, b, start, front);
      if Pending(lang, cfg, b, front) {
        PendingIsLetThrough(lang, cfg, b, front);
      }
      PaysOn(lang, cfg, After(lang, cfg, b, front), Pending(lang, cfg, b, front), Reached(lang, cfg, b, front),
             FirstTripOf(lang, cfg, b, front), Clock(start, front), last);
      hide Paid;
    }
  }

  lemma AtMostQuotient(k: int, d: int, n: int)
    requires d > 0 && k * d <= n
    ensures k <= n / d
  {
    var q := n / d;
    assert n == q * d + n % d;
    assert (k - q) * d == k * d - q * d < d;
    BelowOne(k - q, d);
  }

  lemma QuotientGrows(a: int, b: int, d: int)
    requires a <= b && d > 0
    ensures a / d <= b / d
  {
    AtMostQuotient(a / d, d, b);
  }

  lemma BelowOne(x: int, d: int)
    requires d > 0 && x * d < d
    ensures x < 1
  {
  }

  lemma PaidBounds(cfg: Settings, b: Breaker, pending: bool, reached: nat, first: FirstTrip, now: Time)
    requires cfg.reset > 0 && Paid(cfg, b, pending, reached, first, now)
    ensures reached <= Failures(cfg) + (if first.NoTrip? then 0 else (now - first.at) / cfg.reset)
  {
    if first.TrippedAt? {
      var paid := reached - Failures(cfg);
      AtMostNothing(paid, cfg.reset);
      assert (paid - 1) * cfg.reset == paid * cfg.reset - cfg.reset;
      assert paid * cfg.reset <= now - first.at;
      AtMostQuotient(paid, cfg.reset, now - first.at);
    }
  }

  /**
    During an outage, from whatever state it finds the breaker in, however long and in whatever pieces, the calls that
    still reach the dependency are at most the threshold plus one for each whole reset period since the breaker was
    first seen open.
   */
  lemma OutageBound(lang: Language, cfg: Settings, b: Breaker, start: Time, trace: seq<Event>)
    requires cfg.reset > 0 && b.failures >= 0 && InOrder(start, trace) && Outage(lang, cfg, b, trace)
    ensures Reached(lang, cfg, b, trace) <= OutageCap(lang, cfg, b, start, trace)
  {
    OutagePays(lang, cfg, b, start, trace);
    PaidBounds(cfg, After(lang, cfg, b, trace), Pending(lang, cfg, b, trace), Reached(lang, cfg, b, trace),
               FirstTripOf(lang, cfg, b, trace), Clock(start, trace));
  }

  /** The threshold, and one more for each whole reset period since the breaker was first seen open. */
  function OutageCap(lang: Language, cfg: Settings, b: Breaker, start: Time, trace: seq<Event>): int
    requires cfg.reset > 0
  {
    var first := FirstTripOf(lang, cfg, b, trace);
    Failures(cfg) + if first.NoTrip? then 0 else (Clock(start, trace) - first.at) / cfg.reset
  }

  /** No breaker ever counts fewer than no failures. */
  lemma {:induction false} FailuresStay(lang: Language, cfg: Settings, b: Breaker, trace: seq<Event>)
    requires b.failures >= 0
    ensures After(lang, cfg, b, trace).failures >= 0
    decreases |trace|
  {
    if trace != [] {
      FailuresStay(lang, cfg, b, trace[..|trace| - 1]);
    }
  }

  // ---- Traces end to end ----

  lemma {:induction false} AfterJoins(lang: Language, cfg: Settings, b: Breaker, xs: seq<Event>, ys: seq<Event>)
    ensures After(lang, cfg, b, xs + ys) == After(lang, cfg, After(lang, cfg, b, xs), ys)
    decreases |ys|
  {
    if ys == [] {
      assert xs + ys == xs;
    } else {
      AfterJoins(lang, cfg, b, xs, ys[..|ys| - 1]);
      assert (xs + ys)[..|xs + ys| - 1] == xs + ys[..|ys| - 1];
    }
  }

  lemma {:induction false} LaterIsInOrder(start: Time, xs: seq<Event>, ys: seq<Event>)
    requires InOrder(start, xs + ys)
    ensures InOrder(Clock(start, xs), ys) && InOrder(start, xs)
    decreases |ys|
  {
    if ys == [] {
      assert xs + ys == xs;
    } else {
      assert (xs + ys)[..|xs + ys| - 1] == xs + ys[..|ys| - 1];
      LaterIsInOrder(start, xs, ys[..|ys| - 1]);
    }
  }

  /** One more event, seen by every function of a trace. */
  lemma OneMoreEvent(lang: Language, cfg: Settings, b: Breaker, trace: seq<Event>, e: Event)
    ensures var more, next := trace + [e], Next(lang, cfg, After(lang, cfg, b, trace), e);
            && After(lang, cfg, b, more) == next
            && Admissions(lang, cfg, b, more)
               == Admissions(lang, cfg, b, trace) + (if e.Admit? then [LetsThrough(next)] else [])
            && Reached(lang, cfg, b, more)
               == Reached(lang, cfg, b, trace) + (if e.Admit? && LetsThrough(next) then 1 else 0)
            && (Pending(lang, cfg, b, more) <==>
                  (e.Admit? && LetsThrough(next)) || (e.Observe? && Pending(lang, cfg, b, trace)))
            && (Disciplined(lang, cfg, b, more) <==>
                  && Disciplined(lang, cfg, b, trace)
                  && (e.Succeed? || e.Fail? ==> Pending(lang, cfg, b, trace)))
            && (Outage(lang, cfg, b, more) <==>
                  && Outage(lang, cfg, b, trace) && !e.Succeed?
                  && (e.Fail? ==> Pending(lang, cfg, b, trace))
                  && (e.Admit? ==> !Pending(lang, cfg, b, trace)))
  {
    assert (trace + [e])[..|trace|] == trace;
  }

  lemma InOrderGrows(start: Time, trace: seq<Event>, e: Event)
    requires InOrder(start, trace) && Clock(start, trace) <= e.at && (e.Fail? ==> e.at <= e.trippedAt)
    ensures InOrder(start, trace + [e]) && Clock(start, trace + [e]) == EventTime(e)
  {
    assert (trace + [e])[..|trace|] == trace;
  }

  // ---- The breakers as objects ----

  class GoBreaker {
    const cfg: Settings
    var state: State
    var failures: int
    var openedAt: Time

    constructor (threshold: int, reset: Time)
      ensures Value() == FRESH && cfg == Settings(threshold, reset)
    {
      cfg := Settings(threshold, reset);
      state, failures, openedAt := Closed, 0, 0;
    }

    function Value(): Breaker
      reads this
    {
      Breaker(state, failures, openedAt)
    }

    method Allow(now: Time) returns (allowed: bool)
      modifies this
      ensures Value() == Next(Go, cfg, old(Value()), Admit(now))
      ensures allowed == LetsThrough(Value())
    {
      if state == Tripped && now - openedAt >= cfg.reset {
        state := HalfOpen;
      }
      return state != Tripped;
    }

    method OnSuccess(now: Time)
      modifies this
      ensures Value() == Next(Go, cfg, old(Value()), Succeed(now))
    {
      failures := 0;
      state := Closed;
    }

    method OnFailure(now: Time)
      modifies this
      ensures Value() == Next(Go, cfg, old(Value()), Fail(now, now))
    {
      if state == HalfOpen {
        Trip(now);
        return;
      }
      failures := failures + 1;
      if failures >= cfg.threshold {
        Trip(now);
      }
    }

    method Trip(now: Time)
      modifies this
      ensures Value() == Breaker(Tripped, 0, now)
    {
      state := Tripped;
      openedAt := now;
      failures := 0;
    }
  }

  class PythonBreaker {
    const cfg: Settings
    var state: State
    var failures: int
    var openedAt: Time

    constructor (threshold: int, reset: Time)
      ensures Value() == FRESH && cfg == Settings(threshold, reset)
    {
      cfg := Settings(threshold, reset);
      state, failures, openedAt := Closed, 0, 0;
    }

    function Value(): Breaker
      reads this
    {
      Breaker(state, failures, openedAt)
    }

    /** The `state` property: reading it may open the way for a probe. */
    method ReadState(now: Time) returns (s: State)
      modifies this`state
      ensures Value() == Next(Python, cfg, old(Value()), Observe(now))
      ensures s == state
    {
      if state == Tripped {
        var expired := now - openedAt >= cfg.reset;
        if expired {
          state := HalfOpen;
        }
      }
      return state;
    }

    /** `rejected` stands for raising CircuitOpen. */
    method BeforeCall(now: Time) returns (rejected: bool)
      modifies this`state
      ensures Value() == Next(Python, cfg, old(Value()), Admit(now))
      ensures rejected == !LetsThrough(Value())
    {
      var s := ReadState(now);
      return s == Tripped;
    }

    method OnSuccess(now: Time)
      modifies this
      ensures Value() == Next(Python, cfg, old(Value()), Succeed(now))
    {
      failures := 0;
      state := Closed;
    }

    method OnFailure(now: Time, tripNow: Time)
      modifies this
      ensures Value() == Next(Python, cfg, old(Value()), Fail(now, tripNow))
    {
      var s := ReadState(now);
      if s == HalfOpen {
        Trip(tripNow);
        return;
      }
      failures := failures + 1;
      if failures >= cfg.threshold {
        Trip(tripNow);
      }
    }

    method Trip(now: Time)
      modifies this
      ensures Value() == Breaker(Tripped, 0, now)
    {
      state := Tripped;
      openedAt := now;
      failures := 0;
    }
  }
}
