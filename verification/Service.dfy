/**
  PaymentIntentService as code: each use case is a sequence of database accesses with everyone else running in
  between, and each is shown to take exactly the steps the protocol gives it.
 */
module Service {
  import opened Wrappers
  import opened Domain
  import opened Schema
  import opened RiskRules
  import opened UseCases
  import opened Store
  import opened Expiry
  import P = Publisher
  import L = Locks

  const DEFAULT_LIMIT := 100
  const MAX_LIMIT := 100

  function EffectivePage(page: int): (p: nat)
    ensures p > 0
  {
    if page < 1 then 1 else page
  }

  function EffectiveLimit(limit: int): nat {
    if limit <= 0 then DEFAULT_LIMIT else if limit > MAX_LIMIT then MAX_LIMIT else limit
  }

  /** One step of Create as it happened: what it saw, what came from outside, what it left. */
  datatype Visit = Visit(before: Db, pc: CreatePc, input: Input, after: Db, next: CreatePc)

  const NO_INPUT := Input(false, false, "", "", 0, None, false, Delivery(0, Unpublished))

  /** What Create finds around it and no step changes. */
  datatype Environment = Environment(thresholds: Thresholds, merchants: map<Id, string>)

  function StatusOf(merchants: map<Id, string>, id: Id): Option<string> {
    if id in merchants then Some(merchants[id]) else None
  }

  ghost predicate LegalVisit(req: CreateRequest, v: Visit, env: Environment) {
    && !v.pc.Finished?
    && CreateStep(v.before, req, v.pc, v.input) == (v.after, v.next)
    && LegalInput(v.before, req, v.pc, v.input, env)
  }

  ghost predicate LegalInput(db: Db, req: CreateRequest, pc: CreatePc, i: Input, env: Environment) {
    && (pc.Validate? ==> i.freshId !in db.rows)
    && (pc.Publish? ==> LegalDelivery(pc.event, i.delivery, env.thresholds))
    && (pc.LoadMerchant? ==> i.merchantStatus == StatusOf(env.merchants, req.merchantId))
  }

  /** What one step put on the topic of risk requests. */
  function WrittenBy(v: Visit): seq<Event> {
    if v.pc.Publish? then seq(v.input.delivery.copies, _ => v.pc.event) else []
  }

  function Written(visits: seq<Visit>): seq<Event> {
    if visits == [] then [] else Written(visits[..|visits| - 1]) + WrittenBy(visits[|visits| - 1])
  }

  function EndPc(visits: seq<Visit>): CreatePc {
    if visits == [] then LookUp else visits[|visits| - 1].next
  }

  /** A path of the Create machine from `start` to `end`, with other actors moving between its steps. */
  ghost predicate IsPath(req: CreateRequest, start: Db, visits: seq<Visit>, end: Db, env: Environment)
    decreases |visits|
  {
    if visits == [] then Evolves(start, end)
    else
      var v := visits[|visits| - 1];
      && IsPath(req, start, visits[..|visits| - 1], v.before, env)
      && v.pc == EndPc(visits[..|visits| - 1])
      && LegalVisit(req, v, env)
      && Evolves(v.after, end)
  }

  lemma PathWaits(req: CreateRequest, start: Db, visits: seq<Visit>, mid: Db, end: Db, env: Environment)
    requires IsPath(req, start, visits, mid, env) && Evolves(mid, end)
    ensures IsPath(req, start, visits, end, env)
  {
    EvolvesTransitive(if visits == [] then start else visits[|visits| - 1].after, mid, end);
  }

  lemma PathSteps(req: CreateRequest, start: Db, visits: seq<Visit>, v: Visit, env: Environment)
    requires IsPath(req, start, visits, v.before, env) && v.pc == EndPc(visits) && LegalVisit(req, v, env)
    ensures IsPath(req, start, visits + [v], v.after, env) && EndPc(visits + [v]) == v.next
    ensures Written(visits + [v]) == Written(visits) + WrittenBy(v)
  {
    assert (visits + [v])[..|visits|] == visits;
    assert Evolves(v.after, v.after);
  }

  /** Does the database answer the read of a use case, and does it take its transaction? */
  datatype Answering = Answering(readable: bool, writable: bool)

  /** One write of a use case as it happened: the state it read, the state it committed to, the clocks, the database. */
  datatype Trail = Trail(seen: Db, readAt: Time, before: Db, writtenAt: Time, lost: bool, answering: Answering)

  /** `w` is what the read of a use case produced; the rest is the transaction it led to. */
  ghost predicate Follows(t: Trail, w: Result<Write, AppError>, start: Db, end: Db, r: Result<Intent, AppError>) {
    && Evolves(start, t.seen) && Consistent(t.seen)
    && if !t.answering.readable then r == Err(Internal) && end == t.seen
       else match w
            case Err(e) => r == Err(e) && end == t.seen
            case Ok(write) =>
              && Evolves(t.seen, t.before)
              && if t.answering.writable then CommitWrite(t.before, write, t.writtenAt, t.lost) == Outcome(end, r)
                 else r == Err(Internal) && end == t.before
  }

  class PaymentIntentService {
    const payments: PaymentStore
    const locker: L.IdempotencyLocker
    const riskEvent: P.RiskRequestPublisher
    const merchants: map<Id, string>
    const thresholds: Thresholds

    constructor (payments: PaymentStore, locker: L.IdempotencyLocker, riskEvent: P.RiskRequestPublisher,
                 merchants: map<Id, string>, thresholds: Thresholds)
      ensures this.payments == payments && this.locker == locker && this.riskEvent == riskEvent
      ensures this.merchants == merchants && this.thresholds == thresholds
    {
      this.payments, this.locker, this.riskEvent := payments, locker, riskEvent;
      this.merchants, this.thresholds := merchants, thresholds;
    }

    function Env(): Environment {
      Environment(thresholds, merchants)
    }

    ghost predicate Valid()
      reads this, payments, locker, riskEvent,
            if riskEvent.fallback == null then {} else {riskEvent.fallback, riskEvent.fallback.velocity}
    {
      && Consistent(payments.Db()) && locker.Valid()
      && (riskEvent.fallback != null ==>
            riskEvent.fallback.velocity.Valid() && riskEvent.fallback.thresholds == thresholds)
    }

    /** Commits a write; the reply to COMMIT may be lost although the transaction went through. */
    method CommitUpdate(w: Write) returns (r: Result<Intent, AppError>, ghost at: Time, ghost lost: bool)
      requires Consistent(payments.Db())
      modifies payments
      ensures CommitWrite(old(payments.Db()), w, at, lost) == Outcome(payments.Db(), r)
      ensures Consistent(payments.Db()) && Evolves(old(payments.Db()), payments.Db())
    {
      var now: Time, dropped: bool := *, *;
      at, lost := now, dropped;
      var error := payments.ExecuteUpdate(w, now);
      if error.Some? {
        return Err(error.value), at, lost;
      }
      ExecuteEvolves(old(payments.Db()), UpdateScript(w, now));
      r := if dropped then Err(Internal) else Ok(w.pi);
    }

    method UpdateStatus(id: Id, next: Status, reason: string, actor: string, answering: Answering)
      returns (r: Result<Intent, AppError>, ghost t: Trail)
      requires Consistent(payments.Db())
      modifies payments
      ensures t.answering == answering
      ensures Follows(t, ReadForPatch(t.seen, id, next, reason, actor, t.readAt), old(payments.Db()), payments.Db(), r)
      ensures Consistent(payments.Db()) && Evolves(old(payments.Db()), payments.Db())
    {
      hide IsUuid;
      hide Consistent;
      hide Evolves;
      hide Execute;
      var now: Time := *;
      payments.Others();
      ghost var seen := payments.Db();
      t := Trail(seen, now, seen, now, false, answering);
      if !answering.readable || !IsUuid(id) {
        return Err(Internal), t;
      }
      if id !in payments.rows {
        return Err(NotFound), t;
      }
      var pi := new PaymentIntent(payments.rows[id]);
      if pi.status == next {
        return Err(Conflict), t;
      }
      var previous := pi.status;
      var ok := pi.ChangeStatus(next, now);
      if !ok {
        return Err(InvalidTransition), t;
      }
      payments.Others();
      ghost var before, at, lost := payments.Db(), now, false;
      EvolvesTransitive(old(payments.Db()), seen, before);
      t := Trail(seen, now, before, now, false, answering);
      if answering.writable {
        r, at, lost := CommitUpdate(Write(pi.Snapshot(), previous, reason, actor));
        t := Trail(seen, now, before, at, lost, answering);
        EvolvesTransitive(old(payments.Db()), before, payments.Db());
      } else {
        r := Err(Internal);
      }
    }

    /** Shared by the Kafka consumer and by Create's HTTP path; only the reason differs. */
    method ApplyRiskResult(v: Evaluation, reason: string, answering: Answering)
      returns (r: Result<Intent, AppError>, ghost t: Trail)
      requires Consistent(payments.Db())
      modifies payments
      ensures t.answering == answering
      ensures Follows(t, ReadForApply(t.seen, v, reason, t.readAt), old(payments.Db()), payments.Db(), r)
      ensures Consistent(payments.Db()) && Evolves(old(payments.Db()), payments.Db())
    {
      hide IsUuid;
      hide Consistent;
      hide Evolves;
      hide Execute;
      var now: Time := *;
      payments.Others();
      ghost var seen := payments.Db();
      t := Trail(seen, now, seen, now, false, answering);
      if !answering.readable || !IsUuid(v.paymentIntentId) {
        return Err(Internal), t;
      }
      if v.paymentIntentId !in payments.rows {
        return Err(NotFound), t;
      }
      var pi := new PaymentIntent(payments.rows[v.paymentIntentId]);
      var previous := pi.status;
      var ok := pi.ApplyRiskDecision(v, now);
      if !ok {
        return Err(InvalidTransition), t;
      }
      payments.Others();
      ghost var before, at, lost := payments.Db(), now, false;
      EvolvesTransitive(old(payments.Db()), seen, before);
      t := Trail(seen, now, before, now, false, answering);
      if answering.writable {
        r, at, lost := CommitUpdate(Write(pi.Snapshot(), previous, reason, RISK_SERVICE));
        t := Trail(seen, now, before, at, lost, answering);
        EvolvesTransitive(old(payments.Db()), before, payments.Db());
      } else {
        r := Err(Internal);
      }
    }

    // ---- List ----

    /** One page, newest first; out-of-range arguments fall back to page 1 and to 100 rows. */
    method List(status: Status, page: int, limit: int) returns (items: seq<Intent>, ghost seen: Db)
      requires Consistent(payments.Db())
      modifies payments
      ensures Consistent(payments.Db()) && Evolves(old(payments.Db()), seen) && seen == payments.Db()
      ensures IsPage(seen, status, EffectivePage(page), EffectiveLimit(limit), items)
    {
      payments.Others();
      seen := payments.Db();
      var p, n := EffectivePage(page), EffectiveLimit(limit);
      var all := NewestFirst(payments.Db(), status);
      PageBounds(p, n, |all|);
      hide Evolves;
      hide Consistent;
      hide Listing;
      items := all[AtMost((p - 1) * n, |all|)..AtMost(p * n, |all|)];
    }

    // ---- Create ----

    /** GetByIdempotencyKey, wherever Create calls it. */
    method LookUpByKey(key: string, ghost c: Creation, ghost visits: seq<Visit>)
      returns (found: Result<Option<Intent>, AppError>, ghost more: seq<Visit>)
      requires Consistent(payments.Db()) && Underway(c, visits, payments.Db(), riskEvent.topic.log)
      requires EndPc(visits).LookUp? || EndPc(visits).LookUpAgain? || EndPc(visits).ResolveConflict?
      requires |visits| != 1
      requires c.req.idempotencyKey == key != ""
      modifies payments
      ensures Consistent(payments.Db()) && Underway(c, more, payments.Db(), riskEvent.topic.log)
      ensures EndPc(more) == match found
                             case Err(e) => Finished(Err(e))
                             case Ok(Some(row)) => Finished(Ok(row))
                             case Ok(None) =>
                               match EndPc(visits)
                               case LookUp => AcquireLock
                               case LookUpAgain => Validate
                               case _ => Finished(Err(Conflict))
      ensures |more| == |visits| + 1
    {
      hide IsUuid;
      hide Underway;
      hide Evolves;
      hide Consistent;
      ghost var before := payments.Db();
      payments.Others();
      Waits(c, visits, before, payments.Db(), riskEvent.topic.log);
      var down: bool := *;
      more := Here(c, visits, payments.Db(), NO_INPUT.(down := down), riskEvent.topic.log, riskEvent.topic.log);
      if down {
        return Err(Internal), more;
      }
      var row := payments.GetByIdempotencyKey(key);
      found := Ok(row);
    }

    /**
      With everyone else at work in between, the answer is that of a path of the protocol's machine. What the call
      wrote to Kafka is what its path published, and it took one turn with the lock.
     */
    method Create(req: CreateRequest) returns (r: Result<Intent, AppError>, ghost visits: seq<Visit>)
      requires Valid()
      modifies payments, locker, riskEvent.breaker, riskEvent.topic
      modifies if riskEvent.fallback == null then {} else {riskEvent.fallback.velocity}
      ensures Valid() && IsPath(req, old(payments.Db()), visits, payments.Db(), Env())
      ensures EndPc(visits) == Finished(r)
      ensures riskEvent.topic.log == old(riskEvent.topic.log) + Written(visits)
      ensures LockTurn(old(locker.run), locker.run, req.idempotencyKey, LockWon(visits))
    {
      ghost var c := Creation(req, payments.Db(), Env(), riskEvent.topic.log, false);
      visits := [];
      Begins(c);
      NoTurn(locker.run, req.idempotencyKey);
      hide Underway;
      hide IsUuid;
      hide IsPath;
      hide LockTurn;
      hide Evolves;
      hide Consistent;
      if req.idempotencyKey == "" {
        visits := Here(c, visits, payments.Db(), NO_INPUT, riskEvent.topic.log, riskEvent.topic.log);
        r := Err(MissingIdempotencyKey);
      } else {
        var existing;
        existing, visits := LookUpByKey(req.idempotencyKey, c, visits);
        if existing.Err? {
          r := Err(existing.error);
        } else if existing.value.Some? {
          r := Ok(existing.value.value);
        } else {
          r, c, visits := CreateUnderLock(req, c, visits);
        }
      }
      Ends(c, visits, payments.Db(), riskEvent.topic.log);
    }

    /** The lock is taken if it can be, and given back if it was taken. */
    method CreateUnderLock(req: CreateRequest, ghost c: Creation, ghost path: seq<Visit>)
      returns (r: Result<Intent, AppError>, ghost after: Creation, ghost visits: seq<Visit>)
      requires Valid() && Underway(c, path, payments.Db(), riskEvent.topic.log) && c.req == req && c.env == Env()
      requires EndPc(path) == AcquireLock && req.idempotencyKey != "" && |path| == 1
      modifies payments, locker, riskEvent.breaker, riskEvent.topic
      modifies if riskEvent.fallback == null then {} else {riskEvent.fallback.velocity}
      ensures Valid() && Underway(after, visits, payments.Db(), riskEvent.topic.log) && EndPc(visits) == Finished(r)
      ensures |visits| > 1 && after == c.(won := after.won)
      ensures LockTurn(old(locker.run), locker.run, req.idempotencyKey, after.won)
    {
      hide Underway;
      hide IsUuid;
      hide LockTurn;
      hide Evolves;
      hide Consistent;
      ghost var before := locker.run;
      var token: string, now: Time, arrives: bool, replied: bool := *, *, *, *;
      var acquired := locker.AcquireLock(req.idempotencyKey, token, now, arrives, replied);
      ghost var taken := locker.run;
      TurnTaken(before, taken, req.idempotencyKey, token, now, acquired);
      visits := LockAsked(c, path, payments.Db(), acquired, riskEvent.topic.log);
      after := c.(won := acquired);
      r, visits := CreateAfterLock(req, acquired, after, visits);
      if acquired {
        var later: Time, delivered: bool := *, *;
        locker.ReleaseLock(req.idempotencyKey, token, later, delivered);
        TurnEnds(before, taken, locker.run, req.idempotencyKey, token, later);
      }
    }

    method CreateAfterLock(req: CreateRequest, acquired: bool, ghost c: Creation, ghost path: seq<Visit>)
      returns (r: Result<Intent, AppError>, ghost visits: seq<Visit>)
      requires Valid() && Underway(c, path, payments.Db(), riskEvent.topic.log) && c.req == req && c.env == Env()
      requires EndPc(path) == (if acquired then Validate else LookUpAgain) && req.idempotencyKey != "" && |path| > 1
      modifies payments, riskEvent.breaker, riskEvent.topic
      modifies if riskEvent.fallback == null then {} else {riskEvent.fallback.velocity}
      ensures Valid() && Underway(c, visits, payments.Db(), riskEvent.topic.log) && EndPc(visits) == Finished(r)
      ensures |visits| > 1
    {
      hide Underway;
      hide IsUuid;
      visits := path;
      if !acquired {
        var existing;
        existing, visits := LookUpByKey(req.idempotencyKey, c, visits);
        if existing.Err? {
          return Err(existing.error), visits;
        }
        if existing.value.Some? {
          return Ok(existing.value.value), visits;
        }
      }
      var i: Input := NO_INPUT;
      NewIdExists(payments.rows.Keys);
      var id: Id :| id !in payments.rows;
      var correlation: Id, now: Time := *, *;
      i := i.(freshId := id, freshCorrelation := correlation, now := now);
      var draft := NewPaymentIntent(req, id, correlation, now);
      visits := Here(c, visits, payments.Db(), i, riskEvent.topic.log, riskEvent.topic.log);
      if draft.Err? {
        return Err(draft.error), visits;
      }
      r, visits := CountAndPersist(req, draft.value, c, visits);
    }

    /** The merchant must exist; its recent intents are counted before this one is stored. */
    method CountAndPersist(req: CreateRequest, pi: Intent, ghost c: Creation, ghost path: seq<Visit>)
      returns (r: Result<Intent, AppError>, ghost visits: seq<Visit>)
      requires Valid() && Underway(c, path, payments.Db(), riskEvent.topic.log) && c.req == req && c.env == Env()
      requires EndPc(path) == LoadMerchant(pi) && req.idempotencyKey != "" && |path| > 1
      modifies payments, riskEvent.breaker, riskEvent.topic
      modifies if riskEvent.fallback == null then {} else {riskEvent.fallback.velocity}
      ensures Valid() && Underway(c, visits, payments.Db(), riskEvent.topic.log) && EndPc(visits) == Finished(r)
      ensures |visits| > 1
    {
      hide Underway;
      hide Evolves;
      hide Consistent;
      hide IsUuid;
      var found := if req.merchantId in merchants then Some(merchants[req.merchantId]) else None;
      var down: bool := *;
      visits := Here(c, path, payments.Db(), NO_INPUT.(merchantStatus := found, down := down), riskEvent.topic.log,
                     riskEvent.topic.log);
      if down || found.None? {
        return Err(if !down && IsUuid(req.merchantId) then NotFound else Internal), visits;
      }
      ghost var before := payments.Db();
      payments.Others();
      Waits(c, visits, before, payments.Db(), riskEvent.topic.log);
      var now: Time := *;
      var recent := RecentByMerchant(payments.Db(), pi.merchantId, now - VELOCITY_WINDOW);
      down := *;
      visits := Here(c, visits, payments.Db(), NO_INPUT.(now := now, down := down), riskEvent.topic.log,
                     riskEvent.topic.log);
      if down {
        return Err(Internal), visits;
      }
      r, visits := Persist(req, pi, EventFor(pi, found.value, recent), c, visits);
    }

    /** The INSERT of intent and first history row; a uniqueness conflict turns into the existing intent. */
    method Persist(req: CreateRequest, pi: Intent, event: Event, ghost c: Creation, ghost path: seq<Visit>)
      returns (r: Result<Intent, AppError>, ghost visits: seq<Visit>)
      requires Valid() && Underway(c, path, payments.Db(), riskEvent.topic.log) && c.req == req && c.env == Env()
      requires EndPc(path) == Insert(pi, event) && event.merchantRecentIntents.Some?
      requires req.idempotencyKey != "" && |path| > 1
      modifies payments, riskEvent.breaker, riskEvent.topic
      modifies if riskEvent.fallback == null then {} else {riskEvent.fallback.velocity}
      ensures Valid() && Underway(c, visits, payments.Db(), riskEvent.topic.log) && EndPc(visits) == Finished(r)
      ensures |visits| > 1
    {
      hide Underway;
      hide IsUuid;
      hide Evolves;
      hide Consistent;
      var failure;
      failure, visits := StoreIntent(req, pi, event, c, path);
      if failure.None? {
        r, visits := Submit(req, pi, event, c, visits);
      } else if failure.value == Conflict {
        var existing;
        existing, visits := LookUpByKey(req.idempotencyKey, c, visits);
        r := if existing.Err? then Err(existing.error)
             else if existing.value.Some? then Ok(existing.value.value) else Err(Conflict);
      } else {
        r := Err(failure.value);
      }
    }

    /** The transaction itself; a failure is a conflict to resolve or ends the call. */
    method StoreIntent(req: CreateRequest, pi: Intent, event: Event, ghost c: Creation, ghost path: seq<Visit>)
      returns (failure: Option<AppError>, ghost visits: seq<Visit>)
      requires Consistent(payments.Db()) && Underway(c, path, payments.Db(), riskEvent.topic.log) && c.req == req
      requires EndPc(path) == Insert(pi, event) && |path| > 1
      modifies payments
      ensures Consistent(payments.Db()) && Underway(c, visits, payments.Db(), riskEvent.topic.log) && |visits| > 1
      ensures EndPc(visits) == match failure
                               case None => CreatePc.MarkUnderReview(pi, event)
                               case Some(Conflict) => ResolveConflict
                               case Some(e) => Finished(Err(e))
    {
      hide Underway;
      hide IsUuid;
      ghost var mid := payments.Db();
      payments.Others();
      Waits(c, path, mid, payments.Db(), riskEvent.topic.log);
      ghost var before := payments.Db();
      var lost: bool, down: bool := *, *;
      if down {
        visits := Here(c, path, before, NO_INPUT.(down := true), riskEvent.topic.log, riskEvent.topic.log);
        return Some(Internal), visits;
      }
      var error := payments.ExecuteInsert(pi, req.changedBy);
      if error.None? {
        ExecuteEvolves(before, InsertScript(pi, req.changedBy));
      }
      hide Evolves;
      hide Consistent;
      hide Execute;
      visits := Goes(c, path, before, NO_INPUT.(lost := lost), payments.Db(), riskEvent.topic.log);
      failure := if error.Some? then error else if lost then Some(Internal) else None;
    }

    /** UNDER_REVIEW first, with its history row; only then is the event published. */
    method Submit(req: CreateRequest, row: Intent, event: Event, ghost c: Creation, ghost path: seq<Visit>)
      returns (r: Result<Intent, AppError>, ghost visits: seq<Visit>)
      requires Valid() && Underway(c, path, payments.Db(), riskEvent.topic.log) && c.req == req && c.env == Env()
      requires EndPc(path) == CreatePc.MarkUnderReview(row, event) && event.merchantRecentIntents.Some? && |path| > 1
      modifies payments, riskEvent.breaker, riskEvent.topic
      modifies if riskEvent.fallback == null then {} else {riskEvent.fallback.velocity}
      ensures Valid() && Underway(c, visits, payments.Db(), riskEvent.topic.log) && EndPc(visits) == Finished(r)
      ensures |visits| > 1
      ensures riskEvent.topic.log != old(riskEvent.topic.log) ==> Held(payments.history, row.id, UnderReview)
    {
      hide Underway;
      hide IsUuid;
      hide Evolves;
      hide Consistent;
      hide Held;
      var marked;
      marked, visits := MarkUnderReview(req, row, event, c, path);
      if marked.Err? {
        return marked, visits;
      }
      ghost var db := payments.Db();
      r, visits := PublishAndResolve(req, marked.value, event, c, visits);
      HeldLater(db, payments.Db(), row.id, UnderReview);
    }

    /** The move to UNDER_REVIEW with its history row, in one transaction. */
    method MarkUnderReview(req: CreateRequest, row: Intent, event: Event, ghost c: Creation, ghost path: seq<Visit>)
      returns (marked: Result<Intent, AppError>, ghost visits: seq<Visit>)
      requires Consistent(payments.Db()) && Underway(c, path, payments.Db(), riskEvent.topic.log) && c.req == req
      requires EndPc(path) == CreatePc.MarkUnderReview(row, event) && |path| > 1
      modifies payments
      ensures Consistent(payments.Db()) && Underway(c, visits, payments.Db(), riskEvent.topic.log) && |visits| > 1
      ensures marked.Ok? ==>
                EndPc(visits) == Publish(marked.value, event) && Held(payments.history, row.id, UnderReview)
      ensures marked.Err? ==> EndPc(visits) == Finished(marked)
    {
      hide Underway;
      hide IsUuid;
      var pi := new PaymentIntent(row);
      var previous := pi.status;
      ghost var mid := payments.Db();
      payments.Others();
      Waits(c, path, mid, payments.Db(), riskEvent.topic.log);
      ghost var before := payments.Db();
      var now: Time, lost: bool := *, *;
      var ok := pi.ChangeStatus(UnderReview, now);
      if !ok {
        ghost var input := NO_INPUT.(now := now, lost := lost);
        visits := Here(c, path, before, input, riskEvent.topic.log, riskEvent.topic.log);
        return Err(InvalidTransition), visits;
      }
      hide Evolves;
      hide Consistent;
      hide Execute;
      hide Held;
      if * {
        visits := Here(c, path, before, NO_INPUT.(down := true), riskEvent.topic.log, riskEvent.topic.log);
        return Err(Internal), visits;
      }
      hide CreateStep;
      var w := Write(pi.Snapshot(), previous, REASON_SENT_TO_RISK, req.changedBy);
      var error := payments.ExecuteUpdate(w, now);
      visits := Marks(c, path, row, event, before, w, now, lost, riskEvent.topic.log);
      marked := if error.Some? then Err(error.value) else if lost then Err(Internal) else Ok(pi.Snapshot());
    }

    /** Publishing is best effort; a verdict that came back over HTTP is applied at once. */
    method PublishAndResolve(req: CreateRequest, pi: Intent, event: Event, ghost c: Creation, ghost path: seq<Visit>)
      returns (r: Result<Intent, AppError>, ghost visits: seq<Visit>)
      requires Valid() && Underway(c, path, payments.Db(), riskEvent.topic.log) && c.req == req && c.env == Env()
      requires EndPc(path) == Publish(pi, event) && event.merchantRecentIntents.Some? && |path| > 1
      modifies payments, riskEvent.breaker, riskEvent.topic
      modifies if riskEvent.fallback == null then {} else {riskEvent.fallback.velocity}
      ensures Valid() && Underway(c, visits, payments.Db(), riskEvent.topic.log) && EndPc(visits) == Finished(r)
      ensures |visits| > 1 && Evolves(old(payments.Db()), payments.Db())
    {
      hide Underway;
      hide IsUuid;
      assert Evolves(payments.Db(), payments.Db());
      hide Evolves;
      hide Consistent;
      var asked: Time, done: Time :| asked <= done;
      ghost var d: Delivery;
      ghost var log := riskEvent.topic.log;
      var answer;
      var acknowledged: bool, reachable: bool := *, *;
      answer, d := riskEvent.Publish(event, asked, done, acknowledged, reachable);
      visits := Here(c, path, payments.Db(), NO_INPUT.(delivery := d), log, riskEvent.topic.log);
      if !answer.ViaHttp? {
        return Ok(pi), visits;
      }
      r, visits := ResolveNow(answer.verdict, pi, c, visits);
    }

    /** The verdict that came back over HTTP; if it cannot be applied the Create has still succeeded. */
    method ResolveNow(verdict: Evaluation, pi: Intent, ghost c: Creation, ghost path: seq<Visit>)
      returns (r: Result<Intent, AppError>, ghost visits: seq<Visit>)
      requires Consistent(payments.Db()) && Underway(c, path, payments.Db(), riskEvent.topic.log)
      requires EndPc(path) == ReadVerdict(pi, verdict) && |path| > 1
      modifies payments
      ensures Consistent(payments.Db()) && Evolves(old(payments.Db()), payments.Db())
      ensures Underway(c, visits, payments.Db(), riskEvent.topic.log) && EndPc(visits) == Finished(r) && |visits| > 1
    {
      hide Underway;
      hide IsUuid;
      hide Evolves;
      hide Consistent;
      ghost var before := payments.Db();
      var resolved;
      ghost var t: Trail;
      var answering: Answering := *;
      resolved, t := ApplyRiskResult(verdict, REASON_RISK_VIA_HTTP, answering);
      visits := VerdictVisits(c, path, before, t, payments.Db(), resolved, riskEvent.topic.log);
      r := if resolved.Ok? then resolved else Ok(pi);
    }
  }

  // ---- Create, step by step ----

  /** One call of Create: its request, where it began, and whether it won the lock. */
  datatype Creation = Creation(req: CreateRequest, start: Db, env: Environment, log: seq<Event>, won: bool)

  /** So far the call followed a path of the machine, and the topic has grown by what the path published. */
  ghost predicate Underway(c: Creation, visits: seq<Visit>, db: Db, log: seq<Event>) {
    && IsPath(c.req, c.start, visits, db, c.env)
    && log == c.log + Written(visits)
    && (|visits| > 1 ==> LockWon(visits) == c.won)
  }

  /** There is always an id no row has: one longer than them all. */
  lemma {:induction false} NewIdExists(ids: set<Id>)
    ensures exists id: Id :: id !in ids
  {
    var bound := LongerThanAll(ids);
    var id: Id := seq(bound, _ => '0');
    assert id !in ids;
  }

  lemma {:induction false} LongerThanAll(ids: set<Id>) returns (bound: nat)
    ensures forall id | id in ids :: |id| < bound
    decreases |ids|
  {
    bound := 0;
    if ids != {} {
      var id :| id in ids;
      var rest := LongerThanAll(ids - {id});
      bound := if |id| < rest then rest else |id| + 1;
      assert ids == {id} + (ids - {id});
    }
  }

  lemma Begins(c: Creation)
    ensures Underway(c, [], c.start, c.log)
  {
    assert Evolves(c.start, c.start);
  }

  lemma Ends(c: Creation, visits: seq<Visit>, db: Db, log: seq<Event>)
    requires Underway(c, visits, db, log)
    ensures IsPath(c.req, c.start, visits, db, c.env) && log == c.log + Written(visits)
    ensures |visits| > 1 ==> LockWon(visits) == c.won
  {
  }

  lemma Waits(c: Creation, visits: seq<Visit>, mid: Db, end: Db, log: seq<Event>)
    requires Underway(c, visits, mid, log) && Evolves(mid, end)
    ensures Underway(c, visits, end, log)
  {
    PathWaits(c.req, c.start, visits, mid, end, c.env);
  }

  lemma Steps(c: Creation, visits: seq<Visit>, v: Visit, log: seq<Event>, after: seq<Event>)
    requires Underway(c, visits, v.before, log) && v.pc == EndPc(visits) && LegalVisit(c.req, v, c.env)
    requires after == log + WrittenBy(v) && |visits| != 1
    ensures Underway(c, visits + [v], v.after, after) && EndPc(visits + [v]) == v.next
  {
    PathSteps(c.req, c.start, visits, v, c.env);
  }

  /** A step that writes to the tables. */
  lemma Goes(c: Creation, visits: seq<Visit>, before: Db, i: Input, after: Db, log: seq<Event>)
    returns (more: seq<Visit>)
    requires Underway(c, visits, before, log) && |visits| > 1
    requires EndPc(visits).Insert? || EndPc(visits).MarkUnderReview? || EndPc(visits).CommitVerdict?
    requires CreateStep(before, c.req, EndPc(visits), i).0 == after
    ensures Underway(c, more, after, log) && EndPc(more) == CreateStep(before, c.req, EndPc(visits), i).1
    ensures |more| == |visits| + 1
  {
    var v := Visit(before, EndPc(visits), i, after, CreateStep(before, c.req, EndPc(visits), i).1);
    Steps(c, visits, v, log, log);
    more := visits + [v];
  }

  /** A step that leaves the tables alone. */
  lemma Here(c: Creation, visits: seq<Visit>, db: Db, i: Input, log: seq<Event>, after: seq<Event>)
    returns (more: seq<Visit>)
    requires Underway(c, visits, db, log) && !EndPc(visits).Finished? && |visits| != 1
    requires CreateStep(db, c.req, EndPc(visits), i).0 == db && LegalInput(db, c.req, EndPc(visits), i, c.env)
    requires after == log + if EndPc(visits).Publish? then seq(i.delivery.copies, _ => EndPc(visits).event) else []
    ensures Underway(c, more, db, after) && EndPc(more) == CreateStep(db, c.req, EndPc(visits), i).1
    ensures |more| == |visits| + 1
  {
    var v := Visit(db, EndPc(visits), i, db, CreateStep(db, c.req, EndPc(visits), i).1);
    Steps(c, visits, v, log, after);
    more := visits + [v];
  }

  /** The second step decides whether the call holds the lock. */
  lemma LockAsked(c: Creation, visits: seq<Visit>, db: Db, acquired: bool, log: seq<Event>) returns (more: seq<Visit>)
    requires Underway(c, visits, db, log) && |visits| == 1 && EndPc(visits) == AcquireLock
    ensures Underway(c.(won := acquired), more, db, log) && |more| == 2
    ensures EndPc(more) == if acquired then Validate else LookUpAgain
  {
    var i := NO_INPUT.(acquired := acquired);
    var v := Visit(db, AcquireLock, i, db, CreateStep(db, c.req, AcquireLock, i).1);
    PathSteps(c.req, c.start, visits, v, c.env);
    more := visits + [v];
  }

  /** The transaction that marks an intent, and where it leaves the call. */
  lemma Marks(c: Creation, visits: seq<Visit>, row: Intent, event: Event, before: Db, w: Write, now: Time, lost: bool,
              log: seq<Event>)
    returns (more: seq<Visit>)
    requires Underway(c, visits, before, log) && |visits| > 1 && EndPc(visits) == MarkUnderReview(row, event)
    requires Consistent(before) && ChangedStatus(row, UnderReview, now) == Ok(w.pi)
    requires w == Write(w.pi, row.status, REASON_SENT_TO_RISK, c.req.changedBy)
    ensures var e := Execute(before, UpdateScript(w, now));
            && Underway(c, more, if e.Ok? then e.value else before, log) && |more| > 1
            && EndPc(more) == (if e.Err? then Finished(Err(e.error)) else if lost then Finished(Err(Internal))
                               else Publish(w.pi, event))
            && (e.Ok? ==> Held(e.value.history, row.id, UnderReview) && Consistent(e.value) && Evolves(before, e.value))
  {
    hide IsUuid;
    hide Underway;
    hide Execute;
    hide Held;
    hide Consistent;
    hide Evolves;
    var e := Execute(before, UpdateScript(w, now));
    if e.Ok? {
      MarkIsHeld(before, w, now);
      ExecuteEvolves(before, UpdateScript(w, now));
    }
    more := Goes(c, visits, before, NO_INPUT.(now := now, lost := lost), if e.Ok? then e.value else before, log);
  }

  lemma MarkIsHeld(before: Db, w: Write, dbNow: Time)
    requires Execute(before, UpdateScript(w, dbNow)).Ok?
    ensures Held(Execute(before, UpdateScript(w, dbNow)).value.history, w.pi.id, w.pi.status)
  {
    hide IsUuid;
    UpdateEffect(before, w, dbNow);
    var history := Execute(before, UpdateScript(w, dbNow)).value.history;
    assert history[|before.history|].newStatus == w.pi.status;
  }

  lemma HeldLater(a: Db, b: Db, id: Id, status: Status)
    requires Held(a.history, id, status) && Evolves(a, b)
    ensures Held(b.history, id, status)
  {
    var i :| 0 <= i < |a.history| && a.history[i].intentId == id && a.history[i].newStatus == status;
    assert b.history[i] == a.history[i];
  }

  /** The read and the write of applyRiskResult are the last two steps of a Create that got its verdict over HTTP. */
  lemma VerdictVisits(c: Creation, visits: seq<Visit>, before: Db, t: Trail, end: Db, r: Result<Intent, AppError>,
                      log: seq<Event>)
    returns (more: seq<Visit>)
    requires EndPc(visits).ReadVerdict? && Underway(c, visits, before, log) && |visits| > 1
    requires Follows(t, ReadForApply(t.seen, EndPc(visits).verdict, REASON_RISK_VIA_HTTP, t.readAt), before, end, r)
    ensures Underway(c, more, end, log) && |more| > 1
    ensures EndPc(more) == Finished(if r.Ok? then r else Ok(EndPc(visits).pi))
  {
    hide IsUuid;
    hide Underway;
    hide Evolves;
    hide CommitWrite;
    Waits(c, visits, before, t.seen, log);
    more := Here(c, visits, t.seen, NO_INPUT.(now := t.readAt, down := !t.answering.readable), log, log);
    if EndPc(more).CommitVerdict? {
      Waits(c, more, t.seen, t.before, log);
      var i := NO_INPUT.(now := t.writtenAt, lost := t.lost, down := !t.answering.writable);
      more := Goes(c, more, t.before, i, end, log);
    }
  }

  /** Which page and how many rows a list request gets. */
  lemma Paging(page: int, limit: int)
    ensures page >= 1 ==> EffectivePage(page) == page
    ensures page < 1 ==> EffectivePage(page) == 1
    ensures 1 <= EffectiveLimit(limit) <= 100 && (1 <= limit <= 100 ==> EffectiveLimit(limit) == limit)
    ensures limit < 1 || limit > 100 ==> EffectiveLimit(limit) == 100
  {
  }

  // ---- What a Create publishes ----

  ghost predicate SameRequest(pi: Intent, req: CreateRequest) {
    && pi.merchantId == req.merchantId && pi.externalReference == req.externalReference
    && pi.amountMinor == req.amountMinor && pi.idempotencyKey == req.idempotencyKey
  }

  /**
    The event repeats the request, adds the merchant's status, and counts the merchant's intents of the sixty seconds
    before the count `v`.
   */
  ghost predicate Describes(e: Event, req: CreateRequest, env: Environment, v: Visit) {
    && v.pc.CountRecent?
    && e.merchantId == req.merchantId && e.externalReference == req.externalReference
    && e.amountMinor == req.amountMinor
    && req.merchantId in env.merchants && e.merchantStatus == env.merchants[req.merchantId]
    && e.merchantRecentIntents
       == Some(|set id | id in v.before.rows && v.before.rows[id].merchantId == req.merchantId
                         && v.input.now - v.before.rows[id].createdAt <= 60 * 1_000_000|)
  }

  ghost predicate Described(e: Event, req: CreateRequest, env: Environment, visits: seq<Visit>) {
    exists j :: 0 <= j < |visits| && Describes(e, req, env, visits[j])
  }

  ghost predicate PcTells(req: CreateRequest, env: Environment, visits: seq<Visit>, pc: CreatePc) {
    match pc
    case LoadMerchant(pi) => SameRequest(pi, req)
    case CountRecent(pi, status) =>
      SameRequest(pi, req) && req.merchantId in env.merchants && status == env.merchants[req.merchantId]
    case Insert(pi, e) => SameRequest(pi, req) && e.paymentIntentId == pi.id && Described(e, req, env, visits)
    case MarkUnderReview(pi, e) => SameRequest(pi, req) && e.paymentIntentId == pi.id && Described(e, req, env, visits)
    case Publish(pi, e) => SameRequest(pi, req) && e.paymentIntentId == pi.id && Described(e, req, env, visits)
    case _ => true
  }

  lemma VisitTells(req: CreateRequest, env: Environment, visits: seq<Visit>, v: Visit)
    requires LegalVisit(req, v, env) && PcTells(req, env, visits, v.pc)
    ensures PcTells(req, env, visits + [v], v.next)
  {
    hide IsUuid;
    hide Execute;
    hide ByKey;
    if v.next.Insert? {
      var counted := RecentIds(v.before, req.merchantId, v.input.now - VELOCITY_WINDOW);
      assert counted == set id | id in v.before.rows && v.before.rows[id].merchantId == req.merchantId
                                 && v.input.now - v.before.rows[id].createdAt <= 60 * 1_000_000;
      assert Describes(v.next.event, req, env, v) && (visits + [v])[|visits|] == v;
    } else if v.next.MarkUnderReview? || v.next.Publish? {
      var j :| 0 <= j < |visits| && Describes(v.pc.event, req, env, visits[j]);
      assert (visits + [v])[j] == visits[j];
    }
  }

  lemma {:induction false} PathTells(req: CreateRequest, start: Db, visits: seq<Visit>, end: Db, env: Environment)
    requires IsPath(req, start, visits, end, env)
    ensures PcTells(req, env, visits, EndPc(visits))
    decreases |visits|
  {
    if visits != [] {
      var n := |visits| - 1;
      PathTells(req, start, visits[..n], visits[n].before, env);
      VisitTells(req, env, visits[..n], visits[n]);
      assert visits[..n] + [visits[n]] == visits;
    }
  }

  /** What reaches the topic describes the request, its merchant and the merchant's recent intents. */
  lemma PublishedEventDescribes(req: CreateRequest, start: Db, visits: seq<Visit>, end: Db, env: Environment, k: nat)
    requires IsPath(req, start, visits, end, env) && k < |visits| && visits[k].pc.Publish?
    ensures visits[k].pc.event.paymentIntentId == visits[k].pc.pi.id
    ensures exists j :: 0 <= j < k && Describes(visits[k].pc.event, req, env, visits[j])
  {
    PathPrefix(req, start, visits, end, env, k);
    PathTells(req, start, visits[..k], visits[k].before, env);
    var j :| 0 <= j < k && Describes(visits[k].pc.event, req, env, visits[..k][j]);
    assert visits[..k][j] == visits[j];
  }

  // ---- What a path of Create amounts to ----

  ghost predicate LockWon(visits: seq<Visit>) {
    |visits| > 1 && visits[1].pc.AcquireLock? && visits[1].input.acquired
  }

  /** One turn with the lock of a key: won and perhaps released with its own token, or lost and never released. */
  ghost predicate LockTurn(before: seq<L.Event>, after: seq<L.Event>, key: string, won: bool) {
    var n := |before|;
    && before <= after && |after| <= n + (if won then 2 else 1)
    && (|after| > n ==> after[n].Acquire? && after[n].key == key)
    && (won ==> |after| > n && L.Acquired(after, n))
    && (|after| == n + 2 ==> after[n + 1].Release? && after[n + 1].key == key && after[n + 1].token == after[n].token)
  }

  lemma NoTurn(run: seq<L.Event>, key: string)
    ensures LockTurn(run, run, key, false)
  {
  }

  lemma TurnTaken(before: seq<L.Event>, after: seq<L.Event>, key: string, token: string, at: Time, won: bool)
    requires after == before || after == before + [L.Acquire(key, token, at)]
    requires won ==> after == before + [L.Acquire(key, token, at)] && L.Acquired(after, |before|)
    ensures LockTurn(before, after, key, won)
  {
  }

  lemma TurnEnds(before: seq<L.Event>, taken: seq<L.Event>, after: seq<L.Event>, key: string, token: string, at: Time)
    requires LockTurn(before, taken, key, true) && |taken| == |before| + 1 && taken[|before|].token == token
    requires after == taken || after == taken + [L.Release(key, token, at)]
    ensures LockTurn(before, after, key, true)
  {
    assert after[..|before|] == taken[..|before|];
  }

  /** How far along Create is; no step goes back. */
  function Stage(pc: CreatePc): nat {
    match pc
    case LookUp => 0
    case AcquireLock => 1
    case LookUpAgain => 2
    case Validate => 3
    case LoadMerchant(_) => 4
    case CountRecent(_, _) => 5
    case Insert(_, _) => 6
    case ResolveConflict => 7
    case MarkUnderReview(_, _) => 8
    case Publish(_, _) => 9
    case ReadVerdict(_, _) => 10
    case CommitVerdict(_, _) => 11
    case Finished(_) => 12
  }

  lemma PathPrefix(req: CreateRequest, start: Db, visits: seq<Visit>, end: Db, env: Environment, k: nat)
    requires IsPath(req, start, visits, end, env) && k < |visits|
    ensures IsPath(req, start, visits[..k], visits[k].before, env) && visits[k].pc == EndPc(visits[..k])
    ensures LegalVisit(req, visits[k], env)
    decreases |visits|
  {
    var n := |visits| - 1;
    if k < n {
      PathPrefix(req, start, visits[..n], visits[n].before, env, k);
      assert visits[..n][..k] == visits[..k] && visits[..n][k] == visits[k];
    }
  }

  lemma VisitRises(req: CreateRequest, v: Visit, env: Environment)
    requires LegalVisit(req, v, env)
    ensures Stage(v.pc) < Stage(v.next)
  {
    hide AnsweredStep;
    if !(v.input.down && AsksDatabase(req, v.pc)) {
      AnsweredStepRises(v.before, req, v.pc, v.input);
    }
  }

  lemma AnsweredStepRises(db: Db, req: CreateRequest, pc: CreatePc, i: Input)
    requires !pc.Finished?
    ensures Stage(pc) < Stage(AnsweredStep(db, req, pc, i).1)
  {
    hide Execute;
    hide ByKey;
  }

  lemma {:induction false} StagesRise(req: CreateRequest, start: Db, visits: seq<Visit>, end: Db, env: Environment,
                                      j: nat, k: nat)
    requires IsPath(req, start, visits, end, env) && j < k < |visits|
    ensures Stage(visits[j].pc) < Stage(visits[k].pc)
    decreases k
  {
    PathPrefix(req, start, visits, end, env, k);
    PathPrefix(req, start, visits, end, env, k - 1);
    hide IsPath;
    VisitRises(req, visits[k - 1], env);
    hide LegalVisit;
    hide Stage;
    if j < k - 1 {
      StagesRise(req, start, visits, end, env, j, k - 1);
    }
  }

  /** A Create publishes at most once, and only after it has committed UNDER_REVIEW with its history row. */
  lemma PublishFollowsReview(req: CreateRequest, start: Db, visits: seq<Visit>, end: Db, env: Environment, k: nat)
    requires IsPath(req, start, visits, end, env) && k < |visits| && visits[k].pc.Publish?
    ensures forall j | 0 <= j < |visits| && visits[j].pc.Publish? :: j == k
    ensures k > 0 && visits[k - 1].pc.MarkUnderReview?
            && Held(visits[k - 1].after.history, visits[k].pc.pi.id, UnderReview)
    ensures Evolves(visits[k - 1].after, visits[k].before)
    ensures Written(visits) == WrittenBy(visits[k])
  {
    hide IsPath;
    hide LegalVisit;
    hide Evolves;
    hide Held;
    PathPrefix(req, start, visits, end, env, k);
    MarkedBefore(req, start, visits[..k], visits[k].before, env);
    forall j | 0 <= j < |visits| && visits[j].pc.Publish?
      ensures j == k
    {
      if j < k {
        StagesRise(req, start, visits, end, env, j, k);
      } else if k < j {
        StagesRise(req, start, visits, end, env, k, j);
      }
    }
    OneWrite(visits, k);
  }

  lemma MarkedBefore(req: CreateRequest, start: Db, visits: seq<Visit>, end: Db, env: Environment)
    requires IsPath(req, start, visits, end, env) && EndPc(visits).Publish?
    ensures visits != []
    ensures var v := visits[|visits| - 1];
            && v.pc.MarkUnderReview? && Held(v.after.history, EndPc(visits).pi.id, UnderReview) && Evolves(v.after, end)
  {
    hide IsUuid;
    var v := visits[|visits| - 1];
    var moved := ChangedStatus(v.pc.pi, UnderReview, v.input.now).value;
    var w := Write(moved, v.pc.pi.status, REASON_SENT_TO_RISK, req.changedBy);
    UpdateEffect(v.before, w, v.input.now);
    assert v.after.history[|v.before.history|].newStatus == UnderReview;
  }

  lemma {:induction false} OneWrite(visits: seq<Visit>, k: nat)
    requires k < |visits| && forall j | 0 <= j < |visits| && visits[j].pc.Publish? :: j == k
    ensures Written(visits) == WrittenBy(visits[k])
    decreases |visits|
  {
    var n := |visits| - 1;
    if k < n {
      OneWrite(visits[..n], k);
    } else {
      NoWrite(visits[..n]);
    }
  }

  lemma {:induction false} NoWrite(visits: seq<Visit>)
    requires forall j | 0 <= j < |visits| :: !visits[j].pc.Publish?
    ensures Written(visits) == []
    decreases |visits|
  {
    if visits != [] {
      NoWrite(visits[..|visits| - 1]);
    }
  }
}
