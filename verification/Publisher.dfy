/** The publisher of risk requests: Kafka behind a breaker, and risk-service over HTTP when Kafka fails. */
module Publisher {
  import opened Wrappers
  import opened Domain
  import opened RiskRules
  import opened UseCases
  import B = Breakers
  import R = RiskService

  const BREAKER_FAILURE_THRESHOLD := 3
  const BREAKER_RESET_TIMEOUT: Time := 30 * SECOND

  /** risk.evaluation.requested, as core-api writes it. */
  class Topic {
    var log: seq<Event>
    var attempts: nat  // writes that were tried

    constructor ()
      ensures log == [] && attempts == 0
    {
      log, attempts := [], 0;
    }

    /** The client library may retry on its own, and a write that reports failure may have landed all the same. */
    method WriteMessages(e: Event, acknowledged: bool) returns (ok: bool, ghost copies: nat)
      modifies this
      ensures attempts == old(attempts) + 1 && ok == acknowledged
      ensures log == old(log) + seq(copies, _ => e)
      ensures ok ==> copies > 0
    {
      var n: nat :| acknowledged ==> n > 0;
      copies := n;
      attempts, log := attempts + 1, log + seq(n, _ => e);
      ok := acknowledged;
    }
  }

  class RiskRequestPublisher {
    const breaker: B.GoBreaker
    const topic: Topic
    const fallback: R.EvaluateRisk?

    constructor (topic: Topic, fallback: R.EvaluateRisk?)
      ensures fresh(breaker) && breaker.Value() == B.FRESH && this.topic == topic && this.fallback == fallback
      ensures breaker.cfg == B.Settings(3, 30 * 1_000_000)
    {
      breaker := new B.GoBreaker(BREAKER_FAILURE_THRESHOLD, BREAKER_RESET_TIMEOUT);
      this.topic, this.fallback := topic, fallback;
    }

    /**
      The breaker sees one admission and, if it lets the call through, one write is tried and its outcome reported.
      Nothing is written when it does not. The HTTP path is taken exactly when Kafka was not tried, or failed, and its
      answer is the event's verdict; `acknowledged` and `reachable` say whether Kafka and risk-service answer.
     */
    method Publish(e: Event, now: Time, done: Time, acknowledged: bool, reachable: bool)
      returns (answer: PublishAnswer, ghost d: Delivery)
      requires e.merchantRecentIntents.Some? && now <= done
      requires fallback != null ==> fallback.velocity.Valid()
      modifies breaker, topic, if fallback == null then {} else {fallback.velocity}
      ensures topic.log == old(topic.log) + seq(d.copies, _ => e)
      ensures answer == d.answer
      ensures !answer.ViaKafka? ==> answer.ViaHttp? == (fallback != null && reachable)
      ensures fallback != null ==> LegalDelivery(e, d, fallback.thresholds) && fallback.velocity.Valid()
      ensures fallback == null && answer.ViaKafka? ==> d.copies > 0
      ensures var asked := B.Next(B.Go, breaker.cfg, old(breaker.Value()), B.Admit(now));
              && breaker.Value() == AfterCall(breaker.cfg, old(breaker.Value()), Call(now, done), answer.ViaKafka?)
              && (!B.LetsThrough(asked) ==> d.copies == 0 && !answer.ViaKafka?)
              && topic.attempts == old(topic.attempts) + (if B.LetsThrough(asked) then 1 else 0)
              && (answer.ViaKafka? <==> B.LetsThrough(asked) && acknowledged)
    {
      ghost var copies: nat := 0;
      var allowed := breaker.Allow(now);
      if allowed {
        var ok;
        ok, copies := topic.WriteMessages(e, acknowledged);
        if ok {
          breaker.OnSuccess(done);
          return ViaKafka, Delivery(copies, ViaKafka);
        }
        breaker.OnFailure(done);
      }
      if fallback == null {
        return Unpublished, Delivery(copies, Unpublished);
      }
      if !reachable {
        return Unpublished, Delivery(copies, Unpublished);
      }
      var elsewhere: Time :| elsewhere >= fallback.velocity.clock;  // risk-service reads a clock of its own
      var v := fallback.Call(e, elsewhere, elsewhere);
      return ViaHttp(v), Delivery(copies, ViaHttp(v));
    }
  }

  // ---- Publishing through an outage of Kafka ----

  /** When a Publish asked the breaker and when its write ended. */
  datatype Call = Call(now: Time, done: Time)

  /** The breaker after one Publish. */
  function AfterCall(cfg: B.Settings, b: B.Breaker, c: Call, written: bool): B.Breaker {
    var asked := B.Next(B.Go, cfg, b, B.Admit(c.now));
    if !B.LetsThrough(asked) then asked
    else B.Next(B.Go, cfg, asked, if written then B.Succeed(c.done) else B.Fail(c.done, c.done))
  }

  /** The breaker after a series of calls none of which could write. */
  function AfterCalls(cfg: B.Settings, b: B.Breaker, calls: seq<Call>): B.Breaker {
    if calls == [] then b
    else AfterCall(cfg, AfterCalls(cfg, b, calls[..|calls| - 1]), calls[|calls| - 1], false)
  }

  predicate Writes(cfg: B.Settings, b: B.Breaker, calls: seq<Call>, k: nat)
    requires k < |calls|
  {
    B.LetsThrough(B.Next(B.Go, cfg, AfterCalls(cfg, b, calls[..k]), B.Admit(calls[k].now)))
  }

  /** How many of the calls tried to write to Kafka. */
  function WriteAttempts(cfg: B.Settings, b: B.Breaker, calls: seq<Call>): nat {
    if calls == [] then 0
    else WriteAttempts(cfg, b, calls[..|calls| - 1]) + if Writes(cfg, b, calls, |calls| - 1) then 1 else 0
  }

  ghost predicate OneAtATime(calls: seq<Call>) {
    && (forall k | 0 <= k < |calls| :: 0 <= calls[k].now <= calls[k].done)
    && (forall j, k | 0 <= j < k < |calls| :: calls[j].done <= calls[k].now)
  }

  function EventsOf(cfg: B.Settings, b: B.Breaker, calls: seq<Call>): seq<B.Event> {
    if calls == [] then []
    else
      var n := |calls| - 1;
      EventsOf(cfg, b, calls[..n]) + [B.Admit(calls[n].now)]
      + if Writes(cfg, b, calls, n) then [B.Fail(calls[n].done, calls[n].done)] else []
  }

  lemma {:induction false} CallsAreAnOutage(cfg: B.Settings, b: B.Breaker, calls: seq<Call>)
    requires OneAtATime(calls)
    ensures var trace := EventsOf(cfg, b, calls);
            && B.InOrder(0, trace) && B.Clock(0, trace) <= (if calls == [] then 0 else calls[|calls| - 1].done)
            && B.Outage(B.Go, cfg, b, trace) && !B.Pending(B.Go, cfg, b, trace)
            && B.After(B.Go, cfg, b, trace) == AfterCalls(cfg, b, calls)
            && B.Reached(B.Go, cfg, b, trace) == WriteAttempts(cfg, b, calls)
  {
    if calls != [] {
      var n := |calls| - 1;
      CallsAreAnOutage(cfg, b, calls[..n]);
      var trace, c := EventsOf(cfg, b, calls[..n]), calls[n];
      B.OneMoreEvent(B.Go, cfg, b, trace, B.Admit(c.now));
      B.InOrderGrows(0, trace, B.Admit(c.now));
      if Writes(cfg, b, calls, n) {
        B.OneMoreEvent(B.Go, cfg, b, trace + [B.Admit(c.now)], B.Fail(c.done, c.done));
        B.InOrderGrows(0, trace + [B.Admit(c.now)], B.Fail(c.done, c.done));
      } else {
        assert EventsOf(cfg, b, calls) == trace + [B.Admit(c.now)];
      }
    }
  }

  /**
    With Kafka down, whatever state the breaker is in by then, the writes that Publish still attempts are the threshold
    plus one per whole reset period since the breaker was first seen open.
   */
  lemma OutageLimitsWrites(cfg: B.Settings, b: B.Breaker, calls: seq<Call>)
    requires OneAtATime(calls) && calls != [] && cfg.reset > 0 && b.failures >= 0
    ensures var first := B.FirstTripOf(B.Go, cfg, b, EventsOf(cfg, b, calls));
            WriteAttempts(cfg, b, calls) <= B.Failures(cfg)
              + if first.NoTrip? then 0 else (calls[|calls| - 1].done - first.at) / cfg.reset
  {
    var trace := EventsOf(cfg, b, calls);
    CallsAreAnOutage(cfg, b, calls);
    B.OutageBound(B.Go, cfg, b, 0, trace);
    var first := B.FirstTripOf(B.Go, cfg, b, trace);
    if first.TrippedAt? {
      B.QuotientGrows(B.Clock(0, trace) - first.at, calls[|calls| - 1].done - first.at, cfg.reset);
    }
  }
}
