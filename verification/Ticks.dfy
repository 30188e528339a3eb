/** The clock's ticks: one id per window, and a worker that drops the stale and the repeated. */
module Ticks {
  import opened Wrappers
  import opened Domain
  import opened Schema
  import R = Reconcile
  import C = CoreClient

  /** The text "reconcile:<window start>", or any other text. */
  datatype TickId = Window(start: int) | OtherText(text: string)

  datatype Tick = Tick(tickId: TickId, firedAt: Time, intervalSeconds: int, correlationId: string)

  /** A message as the worker finds it; a field may be absent, and the whole may be unreadable. */
  datatype Message =
    | Unreadable
    | Payload(tickId: Option<TickId>, firedAt: Option<Time>, intervalSeconds: Option<int>, correlationId: string)

  const STALE_MULTIPLIER := 2

  // ---- The scheduler ----

  /** Whole seconds since the epoch, cut towards zero. */
  function EpochSeconds(moment: Time): int {
    if moment >= 0 then moment / SECOND else -(-moment / SECOND)
  }

  function TickIdFor(moment: Time, intervalSeconds: int): TickId {
    var epoch := EpochSeconds(moment);
    Window(epoch - epoch % (if intervalSeconds < 1 then 1 else intervalSeconds))
  }

  function BuildTick(intervalSeconds: int, moment: Time, correlationId: string): Tick {
    Tick(TickIdFor(moment, intervalSeconds), moment, intervalSeconds, correlationId)
  }

  function ToMessage(t: Tick): Message {
    Payload(Some(t.tickId), Some(t.firedAt), Some(t.intervalSeconds), t.correlationId)
  }

  // ---- The worker ----

  /** An empty id and a zero interval count as missing. */
  function ParseTick(m: Message): Option<Tick> {
    if m.Unreadable? || m.tickId.None? || m.firedAt.None? || m.intervalSeconds.None? then None
    else if m.tickId == Some(OtherText("")) || m.intervalSeconds == Some(0) then None
    else Some(Tick(m.tickId.value, m.firedAt.value, m.intervalSeconds.value, m.correlationId))
  }

  predicate IsStale(t: Tick, now: Time) {
    now - t.firedAt > t.intervalSeconds * STALE_MULTIPLIER * SECOND
  }

  /** What the scheduler sends is what the worker reads, unless its interval is zero: then it is discarded. */
  lemma TicksRoundTrip(intervalSeconds: int, moment: Time, correlationId: string)
    ensures var t := BuildTick(intervalSeconds, moment, correlationId);
            ParseTick(ToMessage(t)) == if intervalSeconds == 0 then None else Some(t)
  {
  }

  /** Two schedulers agree on the id exactly when they fire in the same window. */
  lemma SameIdIffSameWindow(a: Time, b: Time, intervalSeconds: int)
    requires intervalSeconds > 0
    ensures TickIdFor(a, intervalSeconds) == TickIdFor(b, intervalSeconds) <==>
            EpochSeconds(a) / intervalSeconds == EpochSeconds(b) / intervalSeconds
  {
    WindowStart(a, intervalSeconds);
    WindowStart(b, intervalSeconds);
    var x, y := EpochSeconds(a) / intervalSeconds, EpochSeconds(b) / intervalSeconds;
    Scale(x, y, intervalSeconds);
    Scale(y, x, intervalSeconds);
  }

  lemma WindowStart(moment: Time, intervalSeconds: int)
    requires intervalSeconds > 0
    ensures TickIdFor(moment, intervalSeconds) == Window(intervalSeconds * (EpochSeconds(moment) / intervalSeconds))
  {
  }

  lemma Scale(x: int, y: int, d: int)
    requires d > 0
    ensures d * x < d * y <==> x < y
  {
    var apart := y - x;
    assert d * y == d * x + d * apart;
    assert d * apart > 0 <==> apart > 0;
  }

  // ---- Which ticks start a cycle ----

  datatype Arrival = Arrival(message: Message, at: Time)

  /** Well formed and not stale when it is handled. */
  predicate Fresh(a: Arrival) {
    ParseTick(a.message).Some? && !IsStale(ParseTick(a.message).value, a.at)
  }

  function IdOf(a: Arrival): TickId
    requires ParseTick(a.message).Some?
  {
    ParseTick(a.message).value.tickId
  }

  function LastOf(last: Option<TickId>, started: seq<TickId>): Option<TickId> {
    if started == [] then last else Some(started[|started| - 1])
  }

  /** The ids of the cycles that a sequence of arrivals starts, with `last` the id of the cycle before. */
  function Started(last: Option<TickId>, arrivals: seq<Arrival>): seq<TickId> {
    if arrivals == [] then []
    else
      var done := Started(last, arrivals[..|arrivals| - 1]);
      var a := arrivals[|arrivals| - 1];
      if Fresh(a) && LastOf(last, done) != Some(IdOf(a)) then done + [IdOf(a)] else done
  }

  ghost predicate FreshId(arrivals: seq<Arrival>, id: TickId) {
    exists k :: 0 <= k < |arrivals| && Fresh(arrivals[k]) && IdOf(arrivals[k]) == id
  }

  /** Nothing but fresh ticks starts a cycle, and no fresh window goes without one. */
  lemma {:induction false} FreshWindowsAreServed(last: Option<TickId>, arrivals: seq<Arrival>, id: TickId)
    ensures id in Started(last, arrivals) ==> FreshId(arrivals, id)
    ensures FreshId(arrivals, id) ==> id in Started(last, arrivals) || last == Some(id)
  {
    if arrivals != [] {
      var n := |arrivals| - 1;
      var done := Started(last, arrivals[..n]);
      FreshWindowsAreServed(last, arrivals[..n], id);
      if FreshId(arrivals[..n], id) {
        var k :| 0 <= k < n && Fresh(arrivals[..n][k]) && IdOf(arrivals[..n][k]) == id;
        assert Fresh(arrivals[k]) && IdOf(arrivals[k]) == id;
      }
      if FreshId(arrivals, id) {
        var k :| 0 <= k < |arrivals| && Fresh(arrivals[k]) && IdOf(arrivals[k]) == id;
        if k < n {
          assert arrivals[..n][k] == arrivals[k];
        }
      }
    }
  }

  /** Sent by a scheduler with this interval, no later than `resume`; or no tick at all. */
  predicate FiredBy(m: Message, intervalSeconds: int, resume: Time) {
    var t := ParseTick(m);
    t.Some? ==>
      && t.value == BuildTick(intervalSeconds, t.value.firedAt, t.value.correlationId)
      && t.value.firedAt <= resume
  }

  predicate NotLaterWindow(a: Message, b: Message) {
    var s, t := ParseTick(a), ParseTick(b);
    s.Some? && t.Some? && s.value.tickId.Window? && t.value.tickId.Window? ==>
      s.value.tickId.start <= t.value.tickId.start
  }

  /** What a worker finds when it resumes: ticks of one interval, fired by then, in the order of their windows. */
  ghost predicate Queued(queue: seq<Message>, intervalSeconds: int, resume: Time) {
    && (forall k | 0 <= k < |queue| :: FiredBy(queue[k], intervalSeconds, resume))
    && (forall i, j | 0 <= i < j < |queue| :: NotLaterWindow(queue[i], queue[j]))
  }

  /** The same queue as it gets handled, each message at `resume` or later. */
  ghost predicate Backlog(arrivals: seq<Arrival>, intervalSeconds: int, resume: Time) {
    && (forall k | 0 <= k < |arrivals| ::
          FiredBy(arrivals[k].message, intervalSeconds, resume) && resume <= arrivals[k].at)
    && (forall i, j | 0 <= i < j < |arrivals| :: NotLaterWindow(arrivals[i].message, arrivals[j].message))
  }

  ghost predicate Increasing(ids: seq<TickId>) {
    && (forall i | 0 <= i < |ids| :: ids[i].Window?)
    && (forall i, j | 0 <= i < j < |ids| :: ids[i].start < ids[j].start)
  }

  lemma BacklogPrefix(arrivals: seq<Arrival>, n: nat, intervalSeconds: int, resume: Time)
    requires n <= |arrivals| && Backlog(arrivals, intervalSeconds, resume)
    ensures Backlog(arrivals[..n], intervalSeconds, resume)
  {
    forall i, j | 0 <= i < j < n
      ensures NotLaterWindow(arrivals[..n][i].message, arrivals[..n][j].message)
    {
      assert NotLaterWindow(arrivals[i].message, arrivals[j].message);
    }
  }

  /** A fresh tick is in no earlier window than any cycle started before it. */
  lemma NoEarlierWindow(last: Option<TickId>, arrivals: seq<Arrival>, n: nat, intervalSeconds: int, resume: Time,
                        id: TickId)
    requires n < |arrivals| && Backlog(arrivals, intervalSeconds, resume) && Fresh(arrivals[n])
    requires id in Started(last, arrivals[..n])
    ensures id.Window? && IdOf(arrivals[n]).Window? && id.start <= IdOf(arrivals[n]).start
  {
    FreshWindowsAreServed(last, arrivals[..n], id);
    var k :| 0 <= k < n && Fresh(arrivals[..n][k]) && IdOf(arrivals[..n][k]) == id;
    assert FiredBy(arrivals[k].message, intervalSeconds, resume)
      && FiredBy(arrivals[n].message, intervalSeconds, resume);
    assert NotLaterWindow(arrivals[k].message, arrivals[n].message);
  }

  /** With the windows in order, no window starts two cycles. */
  lemma {:induction false} EachWindowOnce(last: Option<TickId>, arrivals: seq<Arrival>, intervalSeconds: int,
                                          resume: Time)
    requires Backlog(arrivals, intervalSeconds, resume)
    ensures Increasing(Started(last, arrivals))
  {
    if arrivals != [] {
      var n := |arrivals| - 1;
      var done, a := Started(last, arrivals[..n]), arrivals[n];
      BacklogPrefix(arrivals, n, intervalSeconds, resume);
      EachWindowOnce(last, arrivals[..n], intervalSeconds, resume);
      if Fresh(a) && LastOf(last, done) != Some(IdOf(a)) {
        assert FiredBy(a.message, intervalSeconds, resume);
        if done != [] {
          NoEarlierWindow(last, arrivals, n, intervalSeconds, resume, done[|done| - 1]);
        }
        OneMore(done, IdOf(a));
      }
    }
  }

  lemma OneMore(ids: seq<TickId>, id: TickId)
    requires Increasing(ids) && id.Window? && (ids == [] || ids[|ids| - 1].start < id.start)
    ensures Increasing(ids + [id])
  {
  }

  /** Cutting towards zero never stretches a stretch of whole seconds that ends at `to`. */
  lemma SecondsBetween(from: Time, to: Time, seconds: int)
    requires seconds >= 0 && to - seconds * SECOND <= from <= to
    ensures EpochSeconds(to) - seconds <= EpochSeconds(from) <= EpochSeconds(to)
  {
  }

  /** A fresh tick of the backlog belongs to the window of `resume` or to one of the two before. */
  lemma ThreeWindows(a: Arrival, intervalSeconds: int, resume: Time) returns (w: int)
    requires Fresh(a) && FiredBy(a.message, intervalSeconds, resume) && resume <= a.at
    ensures intervalSeconds > 0 && IdOf(a) == Window(intervalSeconds * w)
    ensures EpochSeconds(resume) / intervalSeconds - 2 <= w <= EpochSeconds(resume) / intervalSeconds
  {
    var t := ParseTick(a.message).value;
    SecondsBetween(t.firedAt, resume, intervalSeconds * STALE_MULTIPLIER);
    WindowStart(t.firedAt, intervalSeconds);
    var e, now := EpochSeconds(t.firedAt), EpochSeconds(resume);
    w := e / intervalSeconds;
    Quotients(e, now, intervalSeconds);
  }

  lemma Quotients(e: int, now: int, d: int)
    requires d > 0 && now - 2 * d <= e <= now
    ensures now / d - 2 <= e / d <= now / d
  {
    QuotientBounds(e, d);
    QuotientBounds(now, d);
    Scale(e / d, now / d + 1, d);
    Scale(now / d - 2, e / d + 1, d);
    Distribute(d, now / d);
  }

  lemma QuotientBounds(n: int, d: int)
    requires d > 0
    ensures d * (n / d) <= n < d * (n / d + 1)
  {
    Distribute(d, n / d);
  }

  lemma Distribute(d: int, q: int)
    ensures d * (q + 1) == d * q + d && d * (q - 2) == d * q - 2 * d
  {
  }

  lemma WindowOfCycle(last: Option<TickId>, arrivals: seq<Arrival>, intervalSeconds: int, resume: Time, i: nat)
    returns (w: int)
    requires Backlog(arrivals, intervalSeconds, resume) && i < |Started(last, arrivals)|
    ensures intervalSeconds > 0 && Started(last, arrivals)[i] == Window(intervalSeconds * w)
    ensures EpochSeconds(resume) / intervalSeconds - 2 <= w <= EpochSeconds(resume) / intervalSeconds
  {
    var id := Started(last, arrivals)[i];
    FreshWindowsAreServed(last, arrivals, id);
    var k :| 0 <= k < |arrivals| && Fresh(arrivals[k]) && IdOf(arrivals[k]) == id;
    w := ThreeWindows(arrivals[k], intervalSeconds, resume);
  }

  /** However long the queue and however many schedulers filled it, at most three of its ticks start a cycle. */
  lemma AtMostThreeCycles(last: Option<TickId>, arrivals: seq<Arrival>, intervalSeconds: int, resume: Time)
    requires Backlog(arrivals, intervalSeconds, resume)
    ensures |Started(last, arrivals)| <= 3
  {
    EachWindowOnce(last, arrivals, intervalSeconds, resume);
    if |Started(last, arrivals)| > 3 {
      var a := WindowOfCycle(last, arrivals, intervalSeconds, resume, 0);
      var b := WindowOfCycle(last, arrivals, intervalSeconds, resume, 1);
      var c := WindowOfCycle(last, arrivals, intervalSeconds, resume, 2);
      var d := WindowOfCycle(last, arrivals, intervalSeconds, resume, 3);
      Scale(a, b, intervalSeconds);
      Scale(b, c, intervalSeconds);
      Scale(c, d, intervalSeconds);
    }
  }

  function SecondTick(second: int, at: Time): Arrival {
    Arrival(ToMessage(BuildTick(1, second * SECOND, "")), at)
  }

  /** Three is reached. */
  lemma ThreeIsReached()
    ensures var queue := [SecondTick(1, 3 * SECOND), SecondTick(2, 3 * SECOND), SecondTick(3, 3 * SECOND)];
            Backlog(queue, 1, 3 * SECOND) && Started(None, queue) == [Window(1), Window(2), Window(3)]
  {
    var a, b, c := SecondTick(1, 3 * SECOND), SecondTick(2, 3 * SECOND), SecondTick(3, 3 * SECOND);
    assert [a, b, c][..2] == [a, b] && [a, b][..1] == [a] && [a][..0] == [];
    assert Started(None, [a]) == [Window(1)];
    assert Started(None, [a, b]) == [Window(1), Window(2)];
  }

  // ---- When a window starts two cycles ----

  ghost predicate Repeats(ids: seq<TickId>) {
    exists p, q :: 0 <= p < q < |ids| && ids[p] == ids[q]
  }

  /** A fresh tick, later a fresh one of another window, and later again a fresh one of the first window. */
  ghost predicate ComesBack(arrivals: seq<Arrival>) {
    exists i, j, k :: 0 <= i < j < k < |arrivals| && Interleaved(arrivals, i, j, k)
  }

  predicate Interleaved(arrivals: seq<Arrival>, i: nat, j: nat, k: nat)
    requires i < |arrivals| && j < |arrivals| && k < |arrivals|
  {
    && Fresh(arrivals[i]) && Fresh(arrivals[j]) && Fresh(arrivals[k])
    && IdOf(arrivals[i]) == IdOf(arrivals[k]) != IdOf(arrivals[j])
  }

  lemma {:induction false} StartedGrows(last: Option<TickId>, arrivals: seq<Arrival>, n: nat)
    requires n <= |arrivals|
    ensures Started(last, arrivals[..n]) <= Started(last, arrivals)
    decreases |arrivals|
  {
    var m := |arrivals| - 1;
    if n <= m {
      StartedGrows(last, arrivals[..m], n);
      assert arrivals[..m][..n] == arrivals[..n];
    } else {
      assert arrivals[..n] == arrivals;
    }
  }

  /** Right after a fresh tick its window is the last one served. */
  lemma FreshIsLast(last: Option<TickId>, arrivals: seq<Arrival>, k: nat)
    requires k < |arrivals| && Fresh(arrivals[k])
    ensures LastOf(last, Started(last, arrivals[..k + 1])) == Some(IdOf(arrivals[k]))
  {
    assert arrivals[..k + 1][..k] == arrivals[..k];
  }

  /** Where each cycle came from: fresh arrivals, in order, and no two neighbours of one window. */
  ghost predicate Origins(ids: seq<TickId>, arrivals: seq<Arrival>, from: seq<nat>) {
    && |from| == |ids|
    && (forall p | 0 <= p < |ids| ::
          from[p] < |arrivals| && Fresh(arrivals[from[p]]) && IdOf(arrivals[from[p]]) == ids[p])
    && (forall p, q | 0 <= p < q < |ids| :: from[p] < from[q])
    && (forall p | 0 < p < |ids| :: Differs(ids, p))
  }

  predicate Differs(ids: seq<TickId>, p: nat)
    requires 0 < p < |ids|
  {
    ids[p - 1] != ids[p]
  }

  lemma {:induction false} CyclesHaveOrigins(last: Option<TickId>, arrivals: seq<Arrival>) returns (from: seq<nat>)
    ensures Origins(Started(last, arrivals), arrivals, from)
    decreases |arrivals|
  {
    from := [];
    if arrivals != [] {
      var n := |arrivals| - 1;
      var done, a := Started(last, arrivals[..n]), arrivals[n];
      from := CyclesHaveOrigins(last, arrivals[..n]);
      if Fresh(a) && LastOf(last, done) != Some(IdOf(a)) {
        OriginsMore(done, arrivals[..n], a, from);
        assert arrivals[..n] + [a] == arrivals;
        from := from + [n];
      } else {
        assert forall p | 0 <= p < |done| :: arrivals[..n][from[p]] == arrivals[from[p]];
      }
    }
  }

  lemma OriginsMore(ids: seq<TickId>, arrivals: seq<Arrival>, a: Arrival, from: seq<nat>)
    requires Origins(ids, arrivals, from) && Fresh(a) && (ids == [] || ids[|ids| - 1] != IdOf(a))
    ensures Origins(ids + [IdOf(a)], arrivals + [a], from + [|arrivals|])
  {
    var more, longer, origins := ids + [IdOf(a)], arrivals + [a], from + [|arrivals|];
    forall p | 0 <= p < |more|
      ensures origins[p] < |longer| && Fresh(longer[origins[p]]) && IdOf(longer[origins[p]]) == more[p]
    {
      assert p < |ids| ==> longer[origins[p]] == arrivals[from[p]];
    }
    forall p | 0 < p < |more|
      ensures Differs(more, p)
    {
      assert p < |ids| ==> Differs(ids, p);
    }
  }

  /**
    The filter compares with the last window only. So some window starts two cycles exactly when it comes back: when a
    fresh tick of another window arrives between two fresh ticks of its own.
   */
  lemma WindowRepeatsIff(arrivals: seq<Arrival>)
    ensures Repeats(Started(None, arrivals)) <==> ComesBack(arrivals)
  {
    var ids := Started(None, arrivals);
    if Repeats(ids) {
      var p, q :| 0 <= p < q < |ids| && ids[p] == ids[q];
      var from := CyclesHaveOrigins(None, arrivals);
      assert Differs(ids, p + 1);
      assert Interleaved(arrivals, from[p], from[p + 1], from[q]);
    }
    if ComesBack(arrivals) {
      var i, j, k :| 0 <= i < j < k < |arrivals| && Interleaved(arrivals, i, j, k);
      ServedTwice(arrivals, i, j, k);
    }
  }

  lemma ServedTwice(arrivals: seq<Arrival>, i: nat, j: nat, k: nat)
    requires i < j < k < |arrivals| && Interleaved(arrivals, i, j, k)
    ensures Repeats(Started(None, arrivals))
  {
    hide Started;
    hide Fresh;
    FreshIsLast(None, arrivals, i);
    FreshIsLast(None, arrivals, j);
    FreshIsLast(None, arrivals, k);
    Longer(arrivals, i + 1, j + 1);
    Longer(arrivals, j + 1, k + 1);
    StartedGrows(None, arrivals, k + 1);
    LastTwice(Started(None, arrivals[..i + 1]), Started(None, arrivals[..j + 1]), Started(None, arrivals[..k + 1]),
              Started(None, arrivals));
  }

  lemma Longer(arrivals: seq<Arrival>, n: nat, m: nat)
    requires n <= m <= |arrivals|
    ensures Started(None, arrivals[..n]) <= Started(None, arrivals[..m])
  {
    assert arrivals[..m][..n] == arrivals[..n];
    StartedGrows(None, arrivals[..m], n);
  }

  lemma LastTwice(a: seq<TickId>, b: seq<TickId>, c: seq<TickId>, ids: seq<TickId>)
    requires a <= b <= c <= ids && a != [] && b != [] && c != []
    requires a[|a| - 1] == c[|c| - 1] != b[|b| - 1]
    ensures Repeats(ids)
  {
    assert |a| != |b| && |b| != |c|;
    assert ids[|a| - 1] == ids[|c| - 1];
  }

  /** Two windows that alternate start a cycle every time. */
  lemma AlternatingWindowsAllStart()
    ensures var a, b := SecondTick(1, 2 * SECOND), SecondTick(2, 2 * SECOND);
            Started(None, [a, b, a, b]) == [Window(1), Window(2), Window(1), Window(2)]
  {
    var a, b := SecondTick(1, 2 * SECOND), SecondTick(2, 2 * SECOND);
    assert [a, b, a, b][..3] == [a, b, a] && [a, b, a][..2] == [a, b] && [a, b][..1] == [a] && [a][..0] == [];
    assert Started(None, [a]) == [Window(1)];
    assert Started(None, [a, b]) == [Window(1), Window(2)];
    assert Started(None, [a, b, a]) == [Window(1), Window(2), Window(1)];
  }

  class TickConsumer {
    const reconcile: R.ReconcileExpired
    var lastTickId: Option<TickId>
    var wallClock: Time

    constructor (reconcile: R.ReconcileExpired, now: Time)
      ensures this.reconcile == reconcile && lastTickId == None && wallClock == now
    {
      this.reconcile, lastTickId, wallClock := reconcile, None, now;
    }

    method Now() returns (now: Time)
      modifies this`wallClock
      ensures now == wallClock >= old(wallClock)
    {
      var d: nat :| true;
      wallClock := wallClock + d;
      return wallClock;
    }

    /** One message: it starts a cycle, which then runs, or leaves the core alone. */
    method Handle(message: Message) returns (ghost arrival: Arrival, ghost cycle: Option<R.Cycle>)
      requires reconcile.Valid()
      modifies this, reconcile.client`clock, reconcile.client`trace, reconcile.client`log, reconcile.client`slept
      modifies reconcile.client`hasToken, reconcile.client.breaker, reconcile.client.core.payments
      ensures reconcile.Valid()
      ensures arrival.message == message && old(wallClock) <= arrival.at <= wallClock
      ensures var starts := Fresh(arrival) && old(lastTickId) != Some(IdOf(arrival));
              && cycle.Some? == starts
              && lastTickId == (if starts then Some(IdOf(arrival)) else old(lastTickId))
      ensures cycle.Some? ==>
                && R.CycleRan(cycle.value, reconcile.Configured()) && arrival.at <= cycle.value.now
                && cycle.value.start == old(reconcile.Db()) && cycle.value.end == reconcile.Db()
                && reconcile.client.log == old(reconcile.client.log) + R.Exchanges(cycle.value)
      ensures cycle.None? ==>
                reconcile.client.log == old(reconcile.client.log) && reconcile.Db() == old(reconcile.Db())
    {
      hide R.CycleRan;
      var tick := ParseTick(message);
      cycle := None;
      arrival := Arrival(message, wallClock);
      if tick.None? {
        return;
      }
      var now := Now();
      arrival := Arrival(message, now);
      if IsStale(tick.value, now) {
        return;
      }
      if lastTickId == Some(tick.value.tickId) {
        return;
      }
      lastTickId := Some(tick.value.tickId);
      var cycleNow := Now();
      var report;
      ghost var ran;
      report, ran := reconcile.Call(cycleNow);
      cycle := Some(ran);
    }

    /**
      The loop over the topic, with the offset committed after each message. The client's log grows by the requests
      of the cycles that started, and over any stretch in which everything failed, within one cycle or across many, they
      stay within the breaker's bound.
     */
    method Run(queue: seq<Message>) returns (ghost arrivals: seq<Arrival>, ghost cycles: seq<R.Cycle>)
      requires reconcile.Valid()
      modifies this, reconcile.client`clock, reconcile.client`trace, reconcile.client`log, reconcile.client`slept
      modifies reconcile.client`hasToken, reconcile.client.breaker, reconcile.client.core.payments
      ensures reconcile.Valid() && |arrivals| == |queue|
      ensures forall k | 0 <= k < |queue| :: arrivals[k].message == queue[k] && old(wallClock) <= arrivals[k].at
      ensures |cycles| == |Started(old(lastTickId), arrivals)|
      ensures lastTickId == LastOf(old(lastTickId), Started(old(lastTickId), arrivals))
      ensures CyclesRan(cycles, old(reconcile.Db()), reconcile.Db(), reconcile.Configured())
      ensures reconcile.client.log == old(reconcile.client.log) + AllExchanges(cycles)
      ensures forall intervalSeconds, resume | Queued(queue, intervalSeconds, resume) && resume <= old(wallClock) ::
                |cycles| <= 3
      ensures reconcile.client.OutagesAreBounded()
    {
      ghost var start, last, clock := reconcile.Db(), lastTickId, wallClock;
      arrivals, cycles := [], [];
      NoCycleYet(start, reconcile.client.log, reconcile.Configured());
      assert KeptUp(last, lastTickId, clock, queue, 0, [], 0);
      hide KeptUp;
      hide CyclesRan;
      hide Logged;
      hide Fresh;
      hide Started;
      hide IdOf;
      hide C.AllFailing;
      hide C.SentCount;
      hide R.CycleRan;
      hide R.Exchanges;
      var k := 0;
      while k < |queue|
        invariant 0 <= k <= |queue| && reconcile.Valid() && wallClock >= clock
        invariant KeptUp(last, lastTickId, clock, queue, k, arrivals, |cycles|)
        invariant CyclesRan(cycles, start, reconcile.Db(), reconcile.Configured())
        invariant Logged(old(reconcile.client.log), reconcile.client.log, cycles)
      {
        ghost var arrival, cycle;
        ghost var lastBefore, logBefore := lastTickId, reconcile.client.log;
        arrival, cycle := Handle(queue[k]);
        OneMoreArrival(last, lastBefore, lastTickId, clock, queue, k, arrivals, |cycles|, arrival, cycle.Some?);
        arrivals := arrivals + [arrival];
        if cycle.Some? {
          OneMoreCycle(cycles, start, cycle.value, old(reconcile.client.log), logBefore, reconcile.Configured());
          cycles := cycles + [cycle.value];
        }
        k := k + 1;
      }
      KeptUpSays(last, lastTickId, clock, queue, arrivals, |cycles|);
      LoggedSays(old(reconcile.client.log), reconcile.client.log, cycles);
      reconcile.client.OutagesStayBounded();
    }
  }

  /** Each message has had its arrival, and there have been as many cycles as those start. */
  ghost predicate KeptUp(last: Option<TickId>, now: Option<TickId>, clock: Time, queue: seq<Message>, n: nat,
                         arrivals: seq<Arrival>, cycles: nat) {
    && |arrivals| == n <= |queue|
    && (forall k | 0 <= k < n :: arrivals[k].message == queue[k] && clock <= arrivals[k].at)
    && cycles == |Started(last, arrivals)| && now == LastOf(last, Started(last, arrivals))
  }

  lemma OneMoreArrival(last: Option<TickId>, before: Option<TickId>, now: Option<TickId>, clock: Time,
                       queue: seq<Message>, n: nat, arrivals: seq<Arrival>, cycles: nat, a: Arrival, starts: bool)
    requires KeptUp(last, before, clock, queue, n, arrivals, cycles) && clock <= a.at
    requires n < |queue| && a.message == queue[n]
    requires starts == (Fresh(a) && before != Some(IdOf(a)))
    requires now == if starts then Some(IdOf(a)) else before
    ensures KeptUp(last, now, clock, queue, n + 1, arrivals + [a], cycles + if starts then 1 else 0)
  {
    assert (arrivals + [a])[..|arrivals|] == arrivals;
  }

  lemma KeptUpSays(last: Option<TickId>, now: Option<TickId>, clock: Time, queue: seq<Message>, arrivals: seq<Arrival>,
                   cycles: nat)
    requires KeptUp(last, now, clock, queue, |queue|, arrivals, cycles)
    ensures |arrivals| == |queue|
    ensures forall k | 0 <= k < |queue| :: arrivals[k].message == queue[k] && clock <= arrivals[k].at
    ensures cycles == |Started(last, arrivals)| && now == LastOf(last, Started(last, arrivals))
    ensures forall intervalSeconds, resume | Queued(queue, intervalSeconds, resume) && resume <= clock :: cycles <= 3
  {
    forall intervalSeconds, resume | Queued(queue, intervalSeconds, resume) && resume <= clock
      ensures cycles <= 3
    {
      AtMostThreeCycles(last, arrivals, intervalSeconds, resume);
    }
  }

  // ---- The cycles of a queue ----

  /** Cycles one after the other, with everyone else at work in between. */
  ghost predicate CyclesRan(cycles: seq<R.Cycle>, start: Db, end: Db, s: R.Setup) {
    if cycles == [] then start == end
    else
      var n := |cycles| - 1;
      R.CycleRan(cycles[n], s) && cycles[n].end == end && CyclesRan(cycles[..n], start, cycles[n].start, s)
  }

  function AllExchanges(cycles: seq<R.Cycle>): seq<C.Exchange> {
    if cycles == [] then [] else AllExchanges(cycles[..|cycles| - 1]) + R.Exchanges(cycles[|cycles| - 1])
  }

  /** The log has grown by the requests of these cycles. */
  ghost predicate Logged(before: seq<C.Exchange>, now: seq<C.Exchange>, cycles: seq<R.Cycle>) {
    now == before + AllExchanges(cycles)
  }

  lemma LoggedSays(before: seq<C.Exchange>, now: seq<C.Exchange>, cycles: seq<R.Cycle>)
    requires Logged(before, now, cycles)
    ensures now == before + AllExchanges(cycles)
  {
  }

  lemma NoCycleYet(start: Db, log: seq<C.Exchange>, s: R.Setup)
    ensures CyclesRan([], start, start, s) && Logged(log, log, [])
  {
  }

  lemma OneMoreCycle(cycles: seq<R.Cycle>, start: Db, c: R.Cycle, log: seq<C.Exchange>, now: seq<C.Exchange>,
                     s: R.Setup)
    requires CyclesRan(cycles, start, c.start, s) && Logged(log, now, cycles) && R.CycleRan(c, s)
    ensures CyclesRan(cycles + [c], start, c.end, s)
    ensures Logged(log, now + R.Exchanges(c), cycles + [c])
  {
    hide R.CycleRan;
    hide R.Exchanges;
    assert (cycles + [c])[..|cycles|] == cycles;
    assert AllExchanges(cycles + [c]) == AllExchanges(cycles) + R.Exchanges(c);
  }

  /** Whatever cycles ran, the tables only moved forward. */
  lemma {:induction false} CyclesOnlyAdvance(cycles: seq<R.Cycle>, start: Db, end: Db, s: R.Setup)
    requires CyclesRan(cycles, start, end, s)
    ensures Evolves(start, end)
  {
    if cycles != [] {
      var n := |cycles| - 1;
      CyclesOnlyAdvance(cycles[..n], start, cycles[n].start, s);
      EvolvesTransitive(start, cycles[n].start, cycles[n].end);
    }
  }
}
