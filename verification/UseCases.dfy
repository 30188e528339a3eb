/**
  The use cases of core-api, one database access at a time. Each step is what a use case computes from the
  state it sees at that instant; between two steps every other actor may move.
 */
module UseCases {
  import opened Wrappers
  import opened Domain
  import opened Schema
  import opened RiskRules

  const VELOCITY_WINDOW: Time := 60 * SECOND
  const REASON_CREATED := "payment intent creado"
  const REASON_SENT_TO_RISK := "enviado a evaluación de riesgo"
  const REASON_RISK_EVALUATED := "resultado de evaluación de riesgo aplicado"
  const REASON_RISK_VIA_HTTP :=
    "resultado de evaluación de riesgo aplicado (vía HTTP directo, Kafka no disponible)"
  const RISK_SERVICE := "risk-service"

  /** A row to write back, with the status it had when it was read. */
  datatype Write = Write(pi: Intent, previous: Status, reason: string, changedBy: string)

  function UpdateScript(w: Write, dbNow: Time): seq<Stmt> {
    [UpdateIntent(w.pi.id, w.pi.status, w.pi.risk, w.pi.updatedAt, dbNow),
     InsertHistory(HistoryRow(w.pi.id, Some(w.previous), w.pi.status, w.reason, w.changedBy, w.pi.correlationId))]
  }

  function InsertScript(pi: Intent, changedBy: string): seq<Stmt> {
    [InsertIntent(pi), InsertHistory(HistoryRow(pi.id, None, pi.status, REASON_CREATED, changedBy, pi.correlationId))]
  }

  function ErrorOf(e: SqlError): AppError {
    match e
    case UniqueViolation => Conflict
    case NoRow => NotFound
    case _ => Internal
  }

  function Execute(db: Db, script: seq<Stmt>): Result<Db, AppError> {
    match Transact(db, script)
    case Ok(done) => Ok(done)
    case Err(e) => Err(ErrorOf(e))
  }

  ghost function ByKey(db: Db, key: string): (r: Option<Intent>)
    ensures r.Some? ==> r.value in db.rows.Values && r.value.idempotencyKey == key
    ensures r.None? ==> forall id | id in db.rows :: db.rows[id].idempotencyKey != key
  {
    if exists id :: id in db.rows && db.rows[id].idempotencyKey == key
    then var id :| id in db.rows && db.rows[id].idempotencyKey == key; Some(db.rows[id])
    else None
  }

  function RecentIds(db: Db, merchantId: Id, since: Time): set<Id> {
    set id | id in db.rows && db.rows[id].merchantId == merchantId && db.rows[id].createdAt >= since
  }

  function RecentByMerchant(db: Db, merchantId: Id, since: Time): nat {
    |RecentIds(db, merchantId, since)|
  }

  function EventFor(pi: Intent, merchantStatus: string, recent: nat): Event {
    Event(pi.id, pi.merchantId, pi.externalReference, pi.amountMinor, merchantStatus, Some(recent))
  }

  /** The verdict an event deserves: it carries core-api's own count, so nothing else enters. */
  function VerdictOn(e: Event, th: Thresholds): Evaluation {
    Evaluate(e, ResolveVelocity(e, 0), th)
  }

  // ---- UpdateStatus and ApplyRiskResult: one read, then one transaction ----

  /** The read and the domain check of UpdateStatus. */
  function ReadForPatch(db: Db, id: Id, next: Status, reason: string, actor: string, now: Time)
    : Result<Write, AppError>
  {
    if !IsUuid(id) then Err(Internal)
    else if id !in db.rows then Err(NotFound)
    else if db.rows[id].status == next then Err(Conflict)
    else match ChangedStatus(db.rows[id], next, now)
         case Ok(moved) => Ok(Write(moved, db.rows[id].status, reason, actor))
         case Err(e) => Err(e)
  }

  /** The read and the domain check of applyRiskResult. */
  function ReadForApply(db: Db, v: Evaluation, reason: string, now: Time): Result<Write, AppError> {
    if !IsUuid(v.paymentIntentId) then Err(Internal)
    else if v.paymentIntentId !in db.rows then Err(NotFound)
    else
      var row := db.rows[v.paymentIntentId];
      match AppliedDecision(row, v, now)
      case Ok(moved) => Ok(Write(moved, row.status, reason, RISK_SERVICE))
      case Err(e) => Err(e)
  }

  datatype Outcome = Outcome(db: Db, answer: Result<Intent, AppError>)

  /** The transaction of a write; `lost` means that the reply to COMMIT never arrived. */
  function CommitWrite(db: Db, w: Write, dbNow: Time, lost: bool): Outcome {
    match Execute(db, UpdateScript(w, dbNow))
    case Ok(done) => Outcome(done, if lost then Err(Internal) else Ok(w.pi))
    case Err(e) => Outcome(db, Err(e))
  }

  // ---- Create ----

  datatype CreatePc =
    | LookUp
    | AcquireLock
    | LookUpAgain
    | Validate
    | LoadMerchant(pi: Intent)
    | CountRecent(pi: Intent, merchantStatus: string)
    | Insert(pi: Intent, event: Event)
    | ResolveConflict
    | MarkUnderReview(pi: Intent, event: Event)
    | Publish(pi: Intent, event: Event)
    | ReadVerdict(pi: Intent, verdict: Evaluation)
    | CommitVerdict(pi: Intent, write: Write)
    | Finished(answer: Result<Intent, AppError>)

  datatype PublishAnswer = ViaKafka | ViaHttp(verdict: Evaluation) | Unpublished

  /** How one Publish ended: copies that reached the topic (a failed write may still land) and the answer. */
  datatype Delivery = Delivery(copies: nat, answer: PublishAnswer)

  predicate LegalDelivery(e: Event, d: Delivery, th: Thresholds) {
    match d.answer
    case ViaKafka => d.copies > 0
    case ViaHttp(v) => v == VerdictOn(e, th)
    case Unpublished => true
  }

  /**
    Everything a step takes from outside: clocks, generated ids, the lock, the merchant table, the network, and whether
    the database answers.
   */
  datatype Input = Input(
    down: bool,
    acquired: bool,
    freshId: Id,
    freshCorrelation: Id,
    now: Time,
    merchantStatus: Option<string>,
    lost: bool,
    delivery: Delivery)

  predicate AsksDatabase(req: CreateRequest, pc: CreatePc) {
    !pc.AcquireLock? && !pc.Validate? && !pc.Publish? && (pc.LookUp? ==> req.idempotencyKey != "")
  }

  /** A database error ends the call; once the event is published it no longer fails it. */
  function WithoutDatabase(pc: CreatePc): CreatePc {
    if pc.ReadVerdict? || pc.CommitVerdict? then Finished(Ok(pc.pi)) else Finished(Err(Internal))
  }

  /** One step of Create. */
  ghost function CreateStep(db: Db, req: CreateRequest, pc: CreatePc, i: Input): (Db, CreatePc)
    requires !pc.Finished?
  {
    if i.down && AsksDatabase(req, pc) then (db, WithoutDatabase(pc)) else AnsweredStep(db, req, pc, i)
  }

  /** A step the database answers, in the source's order. */
  ghost function AnsweredStep(db: Db, req: CreateRequest, pc: CreatePc, i: Input): (Db, CreatePc)
    requires !pc.Finished?
  {
    match pc
    case LookUp =>
      if req.idempotencyKey == "" then (db, Finished(Err(MissingIdempotencyKey)))
      else (match ByKey(db, req.idempotencyKey)
            case Some(row) => (db, Finished(Ok(row)))
            case None => (db, AcquireLock))
    case AcquireLock => (db, if i.acquired then Validate else LookUpAgain)
    case LookUpAgain =>
      (match ByKey(db, req.idempotencyKey)
       case Some(row) => (db, Finished(Ok(row)))
       case None => (db, Validate))
    case Validate =>
      (match NewPaymentIntent(req, i.freshId, i.freshCorrelation, i.now)
       case Ok(pi) => (db, LoadMerchant(pi))
       case Err(e) => (db, Finished(Err(e))))
    case LoadMerchant(pi) =>
      (match i.merchantStatus
       case Some(status) => (db, CountRecent(pi, status))
       case None => (db, Finished(Err(if IsUuid(req.merchantId) then NotFound else Internal))))
    case CountRecent(pi, status) =>
      (db, Insert(pi, EventFor(pi, status, RecentByMerchant(db, pi.merchantId, i.now - VELOCITY_WINDOW))))
    case Insert(pi, event) =>
      (match Execute(db, InsertScript(pi, req.changedBy))
       case Ok(done) => (done, if i.lost then Finished(Err(Internal)) else MarkUnderReview(pi, event))
       case Err(Conflict) => (db, ResolveConflict)
       case Err(e) => (db, Finished(Err(e))))
    case ResolveConflict =>
      (match ByKey(db, req.idempotencyKey)
       case Some(row) => (db, Finished(Ok(row)))
       case None => (db, Finished(Err(Conflict))))
    case MarkUnderReview(pi, event) =>
      (match ChangedStatus(pi, UnderReview, i.now)
       case Err(e) => (db, Finished(Err(e)))
       case Ok(moved) =>
         var out := CommitWrite(db, Write(moved, pi.status, REASON_SENT_TO_RISK, req.changedBy), i.now, i.lost);
         (out.db, if out.answer.Ok? then Publish(moved, event) else Finished(out.answer)))
    case Publish(pi, event) =>
      (db, if i.delivery.answer.ViaHttp? then ReadVerdict(pi, i.delivery.answer.verdict) else Finished(Ok(pi)))
    case ReadVerdict(pi, verdict) =>
      (match ReadForApply(db, verdict, REASON_RISK_VIA_HTTP, i.now)
       case Ok(w) => (db, CommitVerdict(pi, w))
       case Err(_) => (db, Finished(Ok(pi))))
    case CommitVerdict(pi, w) =>
      var out := CommitWrite(db, w, i.now, i.lost);
      (out.db, Finished(if out.answer.Ok? then out.answer else Ok(pi)))
  }

  // ---- What the two kinds of transaction do to the state ----

  lemma UpdateEffect(db: Db, w: Write, dbNow: Time)
    ensures Execute(db, UpdateScript(w, dbNow)).Ok? <==>
            && w.pi.id in db.rows
            && !w.previous.Foreign? && IsUuid(w.pi.correlationId) && IsUuid(w.pi.id)
            && (db.rows[w.pi.id].status == w.pi.status || CanTransitionTo(db.rows[w.pi.id].status, w.pi.status))
            && RowChecks(db.rows[w.pi.id].(status := w.pi.status, risk := w.pi.risk))
            && WellTyped(db.rows[w.pi.id].(status := w.pi.status, risk := w.pi.risk))
    ensures Execute(db, UpdateScript(w, dbNow)).Ok? ==>
      var done := Execute(db, UpdateScript(w, dbNow)).value;
      && done.rows.Keys == db.rows.Keys
      && (forall id | id in db.rows && id != w.pi.id :: done.rows[id] == db.rows[id])
      && SameIdentity(done.rows[w.pi.id], db.rows[w.pi.id])
      && done.rows[w.pi.id].status == w.pi.status && done.rows[w.pi.id].risk == w.pi.risk
      && done.rows[w.pi.id].updatedAt == (if db.rows[w.pi.id].status == w.pi.status then w.pi.updatedAt else dbNow)
      && done.history == db.history + [UpdateScript(w, dbNow)[1].h]
      && UpdateScript(w, dbNow)[1].h
         == HistoryRow(w.pi.id, Some(w.previous), w.pi.status, w.reason, w.changedBy, w.pi.correlationId)
  {
    var script := UpdateScript(w, dbNow);
    assert script[1..] == [script[1]] && script[1..][1..] == [];
    if w.pi.id in db.rows {
      TablesAgree(db.rows[w.pi.id].status, w.pi.status);
    }
    if Exec(Tx(db, []), script[0]).Ok? {
      var tx := Exec(Tx(db, []), script[0]).value;
      assert ExecAll(tx, script[1..]) == (match Exec(tx, script[1]) case Ok(t) => Ok(t) case Err(e) => Err(e));
      if Exec(tx, script[1]).Ok? {
        var last := Exec(tx, script[1]).value;
        assert last.deferred == [(w.pi.id, w.pi.status)];
        assert last.db.history[|db.history|] == script[1].h;
        assert Held(last.db.history, w.pi.id, w.pi.status);
      }
    }
  }

  lemma InsertEffect(db: Db, pi: Intent, actor: string)
    ensures Execute(db, InsertScript(pi, actor)).Ok? <==> WellTyped(pi) && RowChecks(pi) && !Duplicates(db.rows, pi)
    ensures Execute(db, InsertScript(pi, actor)).Ok? ==>
      var done := Execute(db, InsertScript(pi, actor)).value;
      && done.rows == db.rows[pi.id := pi]
      && done.history == db.history + [InsertScript(pi, actor)[1].h]
      && InsertScript(pi, actor)[1].h
         == HistoryRow(pi.id, None, pi.status, "payment intent creado", actor, pi.correlationId)
    ensures Execute(db, InsertScript(pi, actor)) == Err(Conflict) <==>
            WellTyped(pi) && RowChecks(pi) && Duplicates(db.rows, pi)
  {
    var script := InsertScript(pi, actor);
    assert script[1..] == [script[1]] && script[1..][1..] == [];
    if Exec(Tx(db, []), script[0]).Ok? {
      var tx := Exec(Tx(db, []), script[0]).value;
      var last := Exec(tx, script[1]).value;
      assert ExecAll(tx, script[1..]) == Ok(last);
      assert last.deferred == [(pi.id, pi.status)];
      assert last.db.history[|db.history|] == script[1].h;
      assert Held(last.db.history, pi.id, pi.status);
    }
  }

  /**
    A verdict on an intent under review is stored exactly when it is one of the three decisions with a score from 0 to
    100; then the row has the verdict and the status it asks for.
   */
  lemma VerdictIsStoredIff(db: Db, v: Evaluation, reason: string, now: Time, dbNow: Time)
    requires Consistent(db) && v.paymentIntentId in db.rows && db.rows[v.paymentIntentId].status == UnderReview
    ensures var w := ReadForApply(db, v, reason, now);
            && w.Ok?
            && (Execute(db, UpdateScript(w.value, dbNow)).Ok? <==> 0 <= v.score <= 100 && !v.decision.ForeignDecision?)
            && (Execute(db, UpdateScript(w.value, dbNow)).Ok? ==>
                  var done := Execute(db, UpdateScript(w.value, dbNow)).value;
                  && v.paymentIntentId in done.rows && done.rows[v.paymentIntentId].risk == Verdict(v)
                  && done.rows[v.paymentIntentId].status == (match v.decision
                                                             case Approve => Approved
                                                             case Reject => Rejected
                                                             case _ => UnderReview)
                  && done.history
                     == db.history + [HistoryRow(v.paymentIntentId, Some(UnderReview),
                                                 done.rows[v.paymentIntentId].status, reason, "risk-service",
                                                 db.rows[v.paymentIntentId].correlationId)])
  {
    var row := db.rows[v.paymentIntentId];
    assert WellTyped(row) && RowChecks(row) && row.id == v.paymentIntentId;
    hide IsUuid;
    hide Consistent;
    UpdateEffect(db, ReadForApply(db, v, reason, now).value, dbNow);
  }

  /** Whatever risk-service answers about an intent under review can be stored, rejections too. */
  lemma EveryVerdictIsStored(db: Db, e: Event, recent: int, th: Thresholds, reason: string, now: Time, dbNow: Time)
    requires Consistent(db) && e.paymentIntentId in db.rows && db.rows[e.paymentIntentId].status == UnderReview
    ensures var v := Evaluate(e, recent, th);
            var w := ReadForApply(db, v, reason, now);
            && w.Ok? && Execute(db, UpdateScript(w.value, dbNow)).Ok?
            && var done := Execute(db, UpdateScript(w.value, dbNow)).value;
            && e.paymentIntentId in done.rows && done.rows[e.paymentIntentId].risk == Verdict(v)
            && done.rows[e.paymentIntentId].status == match v.decision
                                                      case Approve => Approved
                                                      case Reject => Rejected
                                                      case _ => UnderReview
  {
    ScoreTellsDecision(e, recent, th);
    DecisionTable(e, recent, th);
    VerdictIsStoredIff(db, Evaluate(e, recent, th), reason, now, dbNow);
    hide ReadForApply;
    hide Execute;
    hide Consistent;
    hide SaysInactive;
    hide LooksSuspicious;
  }

  // ---- The count that travels with an event ----

  lemma NoneRecent(merchantId: Id, since: Time)
    ensures RecentByMerchant(EMPTY, merchantId, since) == 0
  {
    assert RecentIds(EMPTY, merchantId, since) == {};
  }

  /** A new intent counts once, for its own merchant, from its creation on. */
  lemma RecentCountsTheNew(db: Db, row: Intent, merchantId: Id, since: Time)
    requires row.id !in db.rows
    ensures RecentByMerchant(db.(rows := db.rows[row.id := row]), merchantId, since)
            == RecentByMerchant(db, merchantId, since)
               + if row.merchantId == merchantId && since <= row.createdAt then 1 else 0
  {
    RecentIdsGrow(db, row, merchantId, since);
    assert row.id !in RecentIds(db, merchantId, since);
    hide RecentIds;
  }

  lemma RecentIdsGrow(db: Db, row: Intent, merchantId: Id, since: Time)
    requires row.id !in db.rows
    ensures RecentIds(db.(rows := db.rows[row.id := row]), merchantId, since)
            == RecentIds(db, merchantId, since)
               + if row.merchantId == merchantId && since <= row.createdAt then {row.id} else {}
  {
  }

  /** No UPDATE changes it. */
  lemma RecentIgnoresUpdates(a: Db, b: Db, merchantId: Id, since: Time)
    requires a.rows.Keys == b.rows.Keys && forall id | id in a.rows :: SameIdentity(a.rows[id], b.rows[id])
    ensures RecentByMerchant(a, merchantId, since) == RecentByMerchant(b, merchantId, since)
  {
    assert RecentIds(a, merchantId, since) == RecentIds(b, merchantId, since);
  }

  /** Both transactions insert only history rows that carry the status of their intent. */
  lemma UseCasesAreHonest(db: Db, w: Write, dbNow: Time, pi: Intent, actor: string)
    ensures Honest(Tx(db, []), UpdateScript(w, dbNow))
    ensures Honest(Tx(db, []), InsertScript(pi, actor))
  {
    var update, insert := UpdateScript(w, dbNow), InsertScript(pi, actor);
    assert update[1..] == [update[1]] && insert[1..] == [insert[1]];
    assert update[1..][1..] == [] && insert[1..][1..] == [];
  }

  lemma ExecuteEvolves(db: Db, script: seq<Stmt>)
    requires Consistent(db) && Execute(db, script).Ok?
    ensures Consistent(Execute(db, script).value) && Evolves(db, Execute(db, script).value)
  {
    TransactionKeeps(db, script);
  }
}
