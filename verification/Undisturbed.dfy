/** What the use cases do when nobody interferes and everything answers: their functional side, in full. */
module Undisturbed {
  import opened Wrappers
  import opened Domain
  import opened Schema
  import opened RiskRules
  import opened UseCases
  import opened Service

  /** Create from this step to its end, on a database only it uses. */
  ghost function Alone(db: Db, req: CreateRequest, pc: CreatePc, i: Input): (Db, Result<Intent, AppError>)
    requires !pc.Finished?
    decreases 12 - Stage(pc)
  {
    var (after, next) := CreateStep(db, req, pc, i);
    if next.Finished? then (after, next.answer)
    else
      StepRises(db, req, pc, i);
      Alone(after, req, next, i)
  }

  lemma StepRises(db: Db, req: CreateRequest, pc: CreatePc, i: Input)
    requires !pc.Finished?
    ensures Stage(pc) < Stage(CreateStep(db, req, pc, i).1) <= 12
  {
    AnsweredStepRises(db, req, pc, i);
    hide AnsweredStep;
  }

  /** The database and the network answer, and the generated values are as given. */
  ghost predicate Calm(i: Input) {
    !i.down && !i.lost
  }

  /** Nobody has the key, the reference, or the id yet. */
  ghost predicate Unused(db: Db, req: CreateRequest, id: Id) {
    && id !in db.rows
    && forall other | other in db.rows ::
         && db.rows[other].idempotencyKey != req.idempotencyKey
         && (db.rows[other].merchantId, db.rows[other].externalReference) != (req.merchantId, req.externalReference)
  }

  ghost predicate Acceptable(db: Db, req: CreateRequest, i: Input, pi: Intent) {
    && Calm(i) && NewPaymentIntent(req, i.freshId, i.freshCorrelation, i.now) == Ok(pi) && i.merchantStatus.Some?
    && IsUuid(pi.id) && IsUuid(pi.merchantId) && IsUuid(pi.correlationId) && Unused(db, req, pi.id)
  }

  /** A repeated request changes nothing and gets the stored intent. */
  lemma RepeatedCreate(db: Db, req: CreateRequest, i: Input, id: Id)
    requires Consistent(db) && Calm(i) && req.idempotencyKey != ""
    requires id in db.rows && db.rows[id].idempotencyKey == req.idempotencyKey
    ensures Alone(db, req, LookUp, i) == (db, Ok(db.rows[id]))
  {
    hide IsUuid;
    var found := ByKey(db, req.idempotencyKey);
    assert found.Some?;
    var other :| other in db.rows && db.rows[other] == found.value;
    assert other == id;
  }

  lemma NothingFound(db: Db, req: CreateRequest, id: Id)
    requires Unused(db, req, id)
    ensures ByKey(db, req.idempotencyKey) == None
  {
  }

  ghost function EventOf(db: Db, i: Input, pi: Intent): Event
    requires i.merchantStatus.Some?
  {
    EventFor(pi, i.merchantStatus.value, RecentByMerchant(db, pi.merchantId, i.now - VELOCITY_WINDOW))
  }

  lemma UpToInsert(db: Db, req: CreateRequest, i: Input, pi: Intent)
    requires Acceptable(db, req, i, pi)
    ensures Alone(db, req, LookUp, i) == Alone(db, req, Insert(pi, EventOf(db, i, pi)), i)
  {
    NothingFound(db, req, pi.id);
    hide IsUuid;
    hide NewPaymentIntent;
    hide Unused;
    hide RecentByMerchant;
    assert req.idempotencyKey != "" by {
      KeyIsThere(req, i, pi);
    }
    var after := if i.acquired then Validate else LookUpAgain;
    assert Alone(db, req, LookUp, i) == Alone(db, req, AcquireLock, i) == Alone(db, req, after, i);
    assert Alone(db, req, after, i) == Alone(db, req, Validate, i);
    assert Alone(db, req, Validate, i) == Alone(db, req, LoadMerchant(pi), i);
    assert Alone(db, req, LoadMerchant(pi), i) == Alone(db, req, CountRecent(pi, i.merchantStatus.value), i);
  }

  lemma KeyIsThere(req: CreateRequest, i: Input, pi: Intent)
    requires NewPaymentIntent(req, i.freshId, i.freshCorrelation, i.now) == Ok(pi)
    ensures req.idempotencyKey != "" && pi.status == Pending && pi.risk == NO_RISK && pi.id == i.freshId
  {
  }

  /** The row as it is stored and the row once it is under review. */
  function Marked(pi: Intent, now: Time): Intent {
    pi.(status := UnderReview, updatedAt := now)
  }

  function CreatedRow(pi: Intent, actor: string): HistoryRow {
    HistoryRow(pi.id, None, Pending, "payment intent creado", actor, pi.correlationId)
  }

  function MarkedRow(pi: Intent, actor: string): HistoryRow {
    HistoryRow(pi.id, Some(Pending), UnderReview, "enviado a evaluación de riesgo", actor, pi.correlationId)
  }

  function AfterMark(db: Db, req: CreateRequest, pi: Intent, now: Time): Db {
    Db(db.rows[pi.id := Marked(pi, now)],
       db.history + [CreatedRow(pi, req.changedBy)] + [MarkedRow(pi, req.changedBy)])
  }

  lemma Inserts(db: Db, req: CreateRequest, i: Input, pi: Intent)
    requires Acceptable(db, req, i, pi)
    ensures var stored := Db(db.rows[pi.id := pi], db.history + [CreatedRow(pi, req.changedBy)]);
            && Execute(db, InsertScript(pi, req.changedBy)) == Ok(stored)
            && Alone(db, req, Insert(pi, EventOf(db, i, pi)), i)
               == Alone(stored, req, MarkUnderReview(pi, EventOf(db, i, pi)), i)
  {
    hide IsUuid;
    InsertEffect(db, pi, req.changedBy);
  }

  lemma Marks(db: Db, req: CreateRequest, i: Input, pi: Intent, e: Event)
    requires Acceptable(db, req, i, pi)
    ensures var stored := Db(db.rows[pi.id := pi], db.history + [CreatedRow(pi, req.changedBy)]);
            Alone(stored, req, MarkUnderReview(pi, e), i)
            == Alone(AfterMark(db, req, pi, i.now), req, Publish(Marked(pi, i.now), e), i)
  {
    hide IsUuid;
    var stored := Db(db.rows[pi.id := pi], db.history + [CreatedRow(pi, req.changedBy)]);
    var w := Write(Marked(pi, i.now), Pending, REASON_SENT_TO_RISK, req.changedBy);
    UpdateEffect(stored, w, i.now);
    var done := Execute(stored, UpdateScript(w, i.now)).value;
    assert done.rows[pi.id] == Marked(pi, i.now);
    assert done.rows == db.rows[pi.id := Marked(pi, i.now)];
    assert done == AfterMark(db, req, pi, i.now);
  }

  /**
    A new request, all alone: the row is stored under review with its two history rows and is the answer; one event
    describes it, for Kafka or for risk-service directly.
   */
  lemma NewCreate(db: Db, req: CreateRequest, i: Input, pi: Intent)
    requires Acceptable(db, req, i, pi) && !i.delivery.answer.ViaHttp?
    ensures Alone(db, req, LookUp, i) == (AfterMark(db, req, pi, i.now), Ok(Marked(pi, i.now)))
  {
    hide IsUuid;
    hide NewPaymentIntent;
    hide Unused;
    hide EventOf;
    hide Alone;
    hide AfterMark;
    UpToInsert(db, req, i, pi);
    Inserts(db, req, i, pi);
    Marks(db, req, i, pi, EventOf(db, i, pi));
    PublishedWithoutHttp(AfterMark(db, req, pi, i.now), req, Marked(pi, i.now), EventOf(db, i, pi), i);
  }

  lemma PublishedWithoutHttp(db: Db, req: CreateRequest, pi: Intent, e: Event, i: Input)
    requires !i.delivery.answer.ViaHttp?
    ensures Alone(db, req, Publish(pi, e), i) == (db, Ok(pi))
  {
  }

  /** What the verdict turns the answer into. */
  function Resolved(pi: Intent, v: Evaluation, now: Time): Intent {
    var status := match v.decision
                  case Approve => Approved
                  case Reject => Rejected
                  case _ => UnderReview;
    Marked(pi, now).(status := status, risk := Verdict(v))
  }

  function ResolvedRow(pi: Intent, v: Evaluation, now: Time): HistoryRow {
    HistoryRow(pi.id, Some(UnderReview), Resolved(pi, v, now).status,
               "resultado de evaluación de riesgo aplicado (vía HTTP directo, Kafka no disponible)", "risk-service",
               pi.correlationId)
  }

  /** With Kafka away and risk-service answering, the verdict on that event is applied before Create returns. */
  lemma NewCreateOverHttp(db: Db, req: CreateRequest, i: Input, pi: Intent, recent: int, th: Thresholds)
    requires Acceptable(db, req, i, pi) && i.delivery.answer.ViaHttp?
    requires i.delivery.answer.verdict == Evaluate(EventOf(db, i, pi), recent, th)
    ensures var v, marked := i.delivery.answer.verdict, AfterMark(db, req, pi, i.now);
            Alone(db, req, LookUp, i)
            == (Db(db.rows[pi.id := Resolved(pi, v, i.now)], marked.history + [ResolvedRow(pi, v, i.now)]),
                Ok(Resolved(pi, v, i.now)))
  {
    UpToInsert(db, req, i, pi);
    Inserts(db, req, i, pi);
    Marks(db, req, i, pi, EventOf(db, i, pi));
    var v, marked := i.delivery.answer.verdict, AfterMark(db, req, pi, i.now);
    DecisionTable(EventOf(db, i, pi), recent, th);
    ScoreTellsDecision(EventOf(db, i, pi), recent, th);
    KeyIsThere(req, i, pi);
    Resolves(db, req, i, pi, v);
    hide IsUuid;
    hide NewPaymentIntent;
    hide Unused;
    hide EventOf;
    hide Evaluate;
    hide SaysInactive;
    hide LooksSuspicious;
    hide AnsweredStep;
    assert Alone(marked, req, Publish(Marked(pi, i.now), EventOf(db, i, pi)), i)
        == Alone(marked, req, ReadVerdict(Marked(pi, i.now), v), i) by {
      PublishedOverHttp(marked, req, Marked(pi, i.now), EventOf(db, i, pi), i);
    }
  }

  lemma PublishedOverHttp(db: Db, req: CreateRequest, pi: Intent, e: Event, i: Input)
    requires i.delivery.answer.ViaHttp?
    ensures Alone(db, req, Publish(pi, e), i) == Alone(db, req, ReadVerdict(pi, i.delivery.answer.verdict), i)
  {
  }

  lemma Resolves(db: Db, req: CreateRequest, i: Input, pi: Intent, v: Evaluation)
    requires Acceptable(db, req, i, pi)
    requires v.paymentIntentId == pi.id && 0 <= v.score <= 100 && !v.decision.ForeignDecision?
    ensures var marked := AfterMark(db, req, pi, i.now);
            Alone(marked, req, ReadVerdict(Marked(pi, i.now), v), i)
            == (Db(db.rows[pi.id := Resolved(pi, v, i.now)], marked.history + [ResolvedRow(pi, v, i.now)]),
                Ok(Resolved(pi, v, i.now)))
  {
    hide IsUuid;
    var marked := AfterMark(db, req, pi, i.now);
    var w := ReadForApply(marked, v, REASON_RISK_VIA_HTTP, i.now).value;
    UpdateEffect(marked, w, i.now);
    var done := Execute(marked, UpdateScript(w, i.now)).value;
    assert w.pi == Resolved(pi, v, i.now);
    assert done.rows[pi.id] == Resolved(pi, v, i.now);
    assert done.rows == db.rows[pi.id := Resolved(pi, v, i.now)];
  }
}
