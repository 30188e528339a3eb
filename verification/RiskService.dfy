/** risk-service: one evaluation, and the worker that consumes requests and publishes verdicts. */
module RiskService {
  import opened Wrappers
  import opened Domain
  import opened RiskRules
  import opened Velocity

  /** The use case both transports call. */
  class EvaluateRisk {
    const thresholds: Thresholds
    const velocity: SlidingWindowVelocity

    constructor (thresholds: Thresholds, velocity: SlidingWindowVelocity)
      ensures this.thresholds == thresholds && this.velocity == velocity
    {
      this.thresholds, this.velocity := thresholds, velocity;
    }

    /** Counts before it records, so that an intent never counts itself; core-api's count wins when present. */
    method Call(e: Event, countedAt: Time, recordedAt: Time) returns (v: Evaluation)
      requires velocity.Valid() && velocity.clock <= countedAt <= recordedAt
      modifies velocity
      ensures velocity.Valid() && velocity.clock == recordedAt
      ensures velocity.log == old(velocity.log) + [Seen(e.merchantId, e.paymentIntentId, recordedAt)]
      ensures var own := |InWindow(old(velocity.log), e.merchantId, countedAt, velocity.window)|;
              v == Evaluate(e, ResolveVelocity(e, own), thresholds)
    {
      var own := velocity.Count(e.merchantId, countedAt);
      velocity.Record(e.merchantId, e.paymentIntentId, countedAt, recordedAt);
      v := Evaluate(e, ResolveVelocity(e, own), thresholds);
    }
  }

  /** Events without core-api's count, evaluated one at a time: each is judged on the log of those before it. */
  ghost predicate LocallyJudged(es: seq<Event>, ds: seq<Delivery>, vs: seq<Evaluation>, window: Time, th: Thresholds) {
    && |es| == |ds| == |vs|
    && forall k | 0 <= k < |es| ::
      && es[k].merchantRecentIntents.None?
      && ds[k].merchant == es[k].merchantId && ds[k].intent == es[k].paymentIntentId
      && vs[k] == Evaluate(es[k], ResolveVelocity(es[k], CountAt(ds, k, window)), th)
  }

  /** Then, within any one window, at most limit + 1 distinct intents of a merchant are not rejected. */
  lemma AtMostLimitPlusOneSurvive(es: seq<Event>, ds: seq<Delivery>, vs: seq<Evaluation>, window: Time, th: Thresholds,
                                  merchant: Id, start: Time)
    requires LocallyJudged(es, ds, vs, window, th) && OneAtATime(ds)
    ensures |set k: nat | k < |ds| && ds[k].merchant == merchant && FirstDelivery(ds, k)
                          && start <= ds[k].countedAt < start + window && vs[k].decision != Reject|
            <= if th.velocityMaxRecent < 0 then 0 else th.velocityMaxRecent + 1
  {
    var survivors := set k: nat | k < |ds| && ds[k].merchant == merchant && FirstDelivery(ds, k)
                                  && start <= ds[k].countedAt < start + window && vs[k].decision != Reject;
    AtMostLimitPlusOneEscape(ds, merchant, window, th.velocityMaxRecent, start);
    SubsetSize(survivors, Escapes(ds, merchant, window, th.velocityMaxRecent, start));
  }

  /** A message of risk.evaluation.requested: either it parses to an event or it breaks the contract. */
  datatype Message = Malformed | Request(event: Event)

  /** A verdict some evaluation of this event could have produced, whatever its window held. */
  ghost predicate Answers(v: Evaluation, e: Event, th: Thresholds) {
    exists own: nat :: v == Evaluate(e, ResolveVelocity(e, own), th)
  }

  /** Redelivered or not, a request that carries core-api's count has a single possible answer, and it is this one. */
  lemma AnswerIsUnique(v: Evaluation, w: Evaluation, e: Event, th: Thresholds)
    requires e.merchantRecentIntents.Some? && Answers(v, e, th) && Answers(w, e, th)
    ensures v == w == Evaluate(e, e.merchantRecentIntents.value, th)
  {
  }

  /** Every evaluation of this event, with whatever in its window, gives the same verdict. */
  ghost predicate OneAnswer(e: Event, th: Thresholds) {
    forall v, w :: Answers(v, e, th) && Answers(w, e, th) ==> v == w
  }

  /**
    An event is always answered alike exactly when the local window cannot matter: core-api's count travels with it,
    an earlier rule rejects it anyway, or the velocity limit rejects everyone.
   */
  lemma OneAnswerIff(e: Event, th: Thresholds)
    ensures OneAnswer(e, th) <==>
            || e.merchantRecentIntents.Some?
            || IsBlocked(e.merchantStatus)
            || IsSuspicious(e.externalReference, th.suspiciousPrefixes)
            || th.velocityMaxRecent < 0
  {
    if OneAnswer(e, th) && e.merchantRecentIntents.None? && th.velocityMaxRecent >= 0 {
      var quiet, busy := Evaluate(e, 0, th), Evaluate(e, th.velocityMaxRecent + 1, th);
      assert quiet == Evaluate(e, ResolveVelocity(e, 0), th);
      assert busy == Evaluate(e, ResolveVelocity(e, th.velocityMaxRecent + 1), th);
      assert Answers(quiet, e, th) && Answers(busy, e, th);
    }
  }

  /** Without that count, being delivered again inside the window can turn an approval into a rejection. */
  lemma RedeliveryCanFlip()
    ensures var th := Thresholds(100, 0, []);
            var e := Event("p", "m", "R-1", 1, "ACTIVE", None);
            var ds := [Delivery("m", "p", 0, 0), Delivery("m", "p", 1, 1)];
            && OneAtATime(ds)
            && Evaluate(e, ResolveVelocity(e, CountAt(ds, 0, 60)), th).decision == Approve
            && Evaluate(e, ResolveVelocity(e, CountAt(ds, 1, 60)), th).decision == Reject
  {
    var ds := [Delivery("m", "p", 0, 0), Delivery("m", "p", 1, 1)];
    SelfCountedIff(ds, 1, 60);
    assert ds[0].intent == ds[1].intent;
    var inside := InWindow(LogOf(ds[..1]), "m", 1, 60);
    assert inside == {"p"} + (inside - {"p"});
    assert LogOf(ds[..0]) == [];
    assert InWindow([], "m", 0, 60) == {};
    VelocityAlone(0);
    VelocityAlone(|inside|);
  }

  lemma VelocityAlone(recent: int)
    ensures Evaluate(Event("p", "m", "R-1", 1, "ACTIVE", None), recent, Thresholds(100, 0, [])).decision
            == if recent > 0 then Reject else Approve
  {
    assert Strip("R-1") == "R-1" && Strip("ACTIVE") == "ACTIVE";
    assert |Upper("R-1")| == 3 && Upper("ACTIVE")[0] == 'A';
  }

  ghost predicate Answered(m: Message, completed: seq<Evaluation>, th: Thresholds) {
    m.Request? ==> exists k :: 0 <= k < |completed| && Answers(completed[k], m.event, th)
  }

  lemma AnsweredStays(m: Message, before: seq<Evaluation>, after: seq<Evaluation>, th: Thresholds)
    requires before <= after && Answered(m, before, th)
    ensures Answered(m, after, th)
  {
    if m.Request? {
      var k :| 0 <= k < |before| && Answers(before[k], m.event, th);
      assert after[k] == before[k];
    }
  }

  /** Every result on the completed topic answers some request. */
  ghost predicate AllAreAnswers(completed: seq<Evaluation>, requested: seq<Message>, th: Thresholds) {
    forall k | 0 <= k < |completed| :: IsAnAnswer(completed[k], requested, th)
  }

  ghost predicate IsAnAnswer(v: Evaluation, requested: seq<Message>, th: Thresholds) {
    exists j :: 0 <= j < |requested| && requested[j].Request? && Answers(v, requested[j].event, th)
  }

  ghost predicate AllAnswered(n: nat, requested: seq<Message>, completed: seq<Evaluation>, th: Thresholds) {
    n <= |requested| && forall j | 0 <= j < n :: Answered(requested[j], completed, th)
  }

  /** Both topics and the consumer group's committed offset. */
  class Broker {
    const thresholds: Thresholds
    var requested: seq<Message>
    var completed: seq<Evaluation>
    var committed: nat

    constructor (thresholds: Thresholds)
      ensures this.thresholds == thresholds && requested == [] && completed == [] && committed == 0 && Valid()
    {
      this.thresholds := thresholds;
      requested, completed, committed := [], [], 0;
    }

    /** Whatever crashes: below the committed offset every well-formed request has a result. */
    ghost predicate Valid()
      reads this
    {
      && AllAnswered(committed, requested, completed, thresholds)
      && AllAreAnswers(completed, requested, thresholds)
    }

    /**
      What producers, other workers and the rest of the group do meanwhile, any number of times: requests arrive, any
      of them is answered again, a commit is lost, and a member commits past a request it has answered or dropped.
     */
    method Others()
      requires Valid()
      modifies this
      ensures Valid() && old(requested) <= requested && old(completed) <= completed
    {
      var n: nat :| true;
      var handled: set<nat> := {};
      for i := 0 to n
        invariant Valid() && old(requested) <= requested && old(completed) <= completed
        invariant forall o | o in handled :: o < |requested| && Answered(requested[o], completed, thresholds)
      {
        ghost var before := completed;
        if * {
          var m: Message := *;
          Produce(m);
        } else if * {
          var offset: nat, own: nat :| true;
          if offset < |requested| && requested[offset].Request? {
            var e := requested[offset].event;
            PublishAnswer(offset, Evaluate(e, ResolveVelocity(e, own), thresholds));
            StillHandled(handled, requested, before, completed, thresholds);
            handled := handled + {offset};
          }
        } else if * {
          if committed < |requested| && (committed in handled || requested[committed].Malformed?) {
            OneMoreAnswered(committed, requested, completed, thresholds);
            committed := committed + 1;
          }
        } else {
          var offset: nat :| true;
          if offset <= committed {
            committed := offset;
          }
        }
      }
    }

    method Produce(m: Message)
      requires Valid()
      modifies this`requested
      ensures Valid() && requested == old(requested) + [m]
    {
      forall k | 0 <= k < |completed|
        ensures IsAnAnswer(completed[k], requested + [m], thresholds)
      {
        assert IsAnAnswer(completed[k], requested, thresholds);
        var j :| 0 <= j < |requested| && requested[j].Request? && Answers(completed[k], requested[j].event, thresholds);
        assert (requested + [m])[j] == requested[j];
      }
      requested := requested + [m];
    }

    method PublishAnswer(offset: nat, v: Evaluation)
      requires Valid() && offset < |requested| && requested[offset].Request?
      requires Answers(v, requested[offset].event, thresholds)
      modifies this`completed
      ensures Valid() && completed == old(completed) + [v] && Answered(requested[offset], completed, thresholds)
    {
      forall j | 0 <= j < committed
        ensures Answered(requested[j], completed + [v], thresholds)
      {
        AnsweredStays(requested[j], completed, completed + [v], thresholds);
      }
      assert (completed + [v])[|completed|] == v;
      completed := completed + [v];
    }
  }

  /** A malformed message leaves no trace; a request is recorded once and, if all went well, answered once. */
  ghost predicate HandledOnce(m: Message, log: seq<Seen>, logAfter: seq<Seen>, completed: seq<Evaluation>,
                              completedAfter: seq<Evaluation>, ok: bool, window: Time, th: Thresholds, countedAt: Time,
                              recordedAt: Time) {
    match m
    case Malformed => ok && logAfter == log && completedAfter == completed
    case Request(e) =>
      var v := Evaluate(e, ResolveVelocity(e, |InWindow(log, e.merchantId, countedAt, window)|), th);
      && logAfter == log + [Seen(e.merchantId, e.paymentIntentId, recordedAt)]
      && (completedAfter == completed + [v] || (!ok && completedAfter == completed))
  }

  class RiskEventWorker {
    const broker: Broker
    const evaluate: EvaluateRisk

    constructor (broker: Broker, evaluate: EvaluateRisk)
      requires evaluate.thresholds == broker.thresholds
      ensures this.broker == broker && this.evaluate == evaluate
    {
      this.broker, this.evaluate := broker, evaluate;
    }

    /** Evaluates and publishes once. A failed publish may still have landed; the caller then stops uncommitted. */
    method Handle(offset: nat, countedAt: Time, recordedAt: Time) returns (ok: bool)
      requires broker.Valid() && offset < |broker.requested| && evaluate.thresholds == broker.thresholds
      requires evaluate.velocity.Valid() && evaluate.velocity.clock <= countedAt <= recordedAt
      modifies broker`completed, evaluate.velocity
      ensures broker.Valid() && evaluate.velocity.Valid() && evaluate.velocity.clock <= recordedAt
      ensures old(broker.completed) <= broker.completed
      ensures ok ==> Answered(broker.requested[offset], broker.completed, broker.thresholds)
      ensures HandledOnce(broker.requested[offset], old(evaluate.velocity.log), evaluate.velocity.log,
                          old(broker.completed),
                          broker.completed, ok, evaluate.velocity.window, broker.thresholds, countedAt, recordedAt)
    {
      match broker.requested[offset] {
        case Malformed => return true;
        case Request(e) =>
          var v := evaluate.Call(e, countedAt, recordedAt);
          if * {
            broker.PublishAnswer(offset, v);
            return *;
          }
          return false;
      }
    }

    /**
      The consuming loop of one process life, from the committed offset until it dies. It may die before or after
      any publish or commit, and a commit may be lost.
     */
    method Run(start: Time)
      requires broker.Valid() && evaluate.thresholds == broker.thresholds
      requires evaluate.velocity.Valid() && evaluate.velocity.clock <= start
      modifies broker, evaluate.velocity
      ensures broker.Valid() && evaluate.velocity.Valid()
      ensures old(broker.requested) <= broker.requested && old(broker.completed) <= broker.completed
    {
      var position: nat := broker.committed;
      assert position <= |broker.requested|;
      var now := start;
      var life: nat :| true;
      hide HandledOnce;
      hide Answered;
      hide AllAnswered;
      hide AllAreAnswers;
      hide Faithful;
      hide NoneEmpty;
      for step := 0 to life
        invariant broker.Valid() && evaluate.velocity.Valid() && evaluate.velocity.clock <= now
        invariant old(broker.requested) <= broker.requested && old(broker.completed) <= broker.completed
        invariant AllAnswered(position, broker.requested, broker.completed, broker.thresholds)
      {
        ghost var requested, completed := broker.requested, broker.completed;
        broker.Others();
        StillAnswered(position, requested, broker.requested, completed, broker.completed, broker.thresholds);
        var countedAt: Time, recordedAt: Time := *, *;
        if position < |broker.requested| && now <= countedAt <= recordedAt {
          completed := broker.completed;
          var ok := Handle(position, countedAt, recordedAt);
          now := recordedAt;
          if !ok {
            return;
          }
          StillAnswered(position, broker.requested, broker.requested, completed, broker.completed, broker.thresholds);
          OneMoreAnswered(position, broker.requested, broker.completed, broker.thresholds);
          position := position + 1;
          if * {
            return;
          }
          if * {
            broker.committed := position;
          }
        }
      }
    }
  }

  lemma StillHandled(handled: set<nat>, requested: seq<Message>, before: seq<Evaluation>, after: seq<Evaluation>,
                     th: Thresholds)
    requires forall o | o in handled :: o < |requested| && Answered(requested[o], before, th)
    requires before <= after
    ensures forall o | o in handled :: Answered(requested[o], after, th)
  {
    forall o | o in handled
      ensures Answered(requested[o], after, th)
    {
      AnsweredStays(requested[o], before, after, th);
    }
  }

  lemma OneMoreAnswered(n: nat, requested: seq<Message>, completed: seq<Evaluation>, th: Thresholds)
    requires AllAnswered(n, requested, completed, th) && n < |requested| && Answered(requested[n], completed, th)
    ensures AllAnswered(n + 1, requested, completed, th)
  {
  }

  lemma StillAnswered(n: nat, r0: seq<Message>, r1: seq<Message>, c0: seq<Evaluation>, c1: seq<Evaluation>,
                      th: Thresholds)
    requires AllAnswered(n, r0, c0, th) && r0 <= r1 && c0 <= c1
    ensures AllAnswered(n, r1, c1, th)
  {
    forall j | 0 <= j < n
      ensures Answered(r1[j], c1, th)
    {
      AnsweredStays(r0[j], c0, c1, th);
    }
  }
}
