/**
  The whole system as one state machine: any number of Create, PATCH and risk-result calls, interleaved one
  database access at a time, with processes that die, commits whose reply is lost, Kafka writes that may or may
  not land, risk workers that answer any request any number of times, and a consumer that redelivers.
 */
module Protocol {
  import opened Wrappers
  import opened Domain
  import opened Schema
  import opened History
  import opened RiskRules
  import opened UseCases

  type CallId = nat

  datatype WritePc = Read | Commit(write: Write) | Answered(answer: Result<Intent, AppError>)

  datatype Call =
    | Create(req: CreateRequest, pc: CreatePc)
    | Patch(id: Id, next: Status, reason: string, changedBy: string, wpc: WritePc)
    | Apply(verdict: Evaluation, wpc: WritePc)

  /** `manualPatches` says whether clients other than the worker PATCH too; the worker only asks for EXPIRED. */
  datatype Config = Config(thresholds: Thresholds, manualPatches: bool)

  datatype System = System(
    db: Db,
    issued: set<Id>,
    calls: map<CallId, Call>,
    publishCalls: multiset<Id>,
    events: map<Id, Event>,
    requested: seq<Event>,
    completed: seq<Evaluation>)

  const INITIAL := System(EMPTY, {}, map[], multiset{}, map[], [], [])

  datatype Action =
    | BeginCreate(call: CallId, req: CreateRequest)
    | BeginPatch(call: CallId, id: Id, next: Status, reason: string, changedBy: string)
    | BeginApply(call: CallId, offset: nat)
    | Advance(call: CallId, input: Input)
    | Abandon(call: CallId)
    | RiskAnswers(offset: nat)

  predicate Done(c: Call) {
    match c
    case Create(_, pc) => pc.Finished?
    case Patch(_, _, _, _, wpc) => wpc.Answered?
    case Apply(_, wpc) => wpc.Answered?
  }

  ghost predicate Enabled(cfg: Config, s: System, a: Action) {
    match a
    case BeginCreate(call, _) => call !in s.calls
    case BeginPatch(call, _, next, _, _) => call !in s.calls && (cfg.manualPatches || next == Expired)
    case BeginApply(call, offset) => call !in s.calls && offset < |s.completed|
    case Advance(call, input) =>
      && call in s.calls && !Done(s.calls[call])
      && (s.calls[call].Create? && s.calls[call].pc.Validate? ==> input.freshId !in s.issued)
      && (s.calls[call].Create? && s.calls[call].pc.Publish? ==>
            LegalDelivery(s.calls[call].pc.event, input.delivery, cfg.thresholds))
    case Abandon(call) => call in s.calls && !Done(s.calls[call])
    case RiskAnswers(offset) => offset < |s.requested|
  }

  function Copies<T>(x: T, n: nat): (r: seq<T>)
    ensures |r| == n && forall i | 0 <= i < n :: r[i] == x
  {
    seq(n, i => x)
  }

  ghost function AdvanceWrite(db: Db, c: Call, i: Input): (Db, WritePc)
    requires !c.Create? && !Done(c)
  {
    if i.down then (db, Answered(Err(Internal)))
    else match c.wpc
    case Read =>
      (match (if c.Patch? then ReadForPatch(db, c.id, c.next, c.reason, c.changedBy, i.now)
              else ReadForApply(db, c.verdict, REASON_RISK_EVALUATED, i.now))
       case Ok(w) => (db, Commit(w))
       case Err(e) => (db, Answered(Err(e))))
    case Commit(w) =>
      var out := CommitWrite(db, w, i.now, i.lost);
      (out.db, Answered(out.answer))
  }

  ghost function Step(cfg: Config, s: System, a: Action): System
    requires Enabled(cfg, s, a)
  {
    match a
    case BeginCreate(call, req) => s.(calls := s.calls[call := Create(req, LookUp)])
    case BeginPatch(call, id, next, reason, actor) =>
      s.(calls := s.calls[call := Patch(id, next, reason, actor, Read)])
    case BeginApply(call, offset) => s.(calls := s.calls[call := Apply(s.completed[offset], Read)])
    case Advance(call, input) =>
      var c := s.calls[call];
      if c.Create? then
        var (db, pc) := CreateStep(s.db, c.req, c.pc, input);
        var moved := s.(db := db, calls := s.calls[call := Create(c.req, pc)]);
        if c.pc.Validate? then moved.(issued := s.issued + {input.freshId})
        else if c.pc.Publish? then
          moved.(publishCalls := s.publishCalls + multiset{c.pc.pi.id},
          events := s.events[c.pc.pi.id := c.pc.event],
          requested := s.requested + Copies(c.pc.event, input.delivery.copies))
        else moved
      else
        var (db, wpc) := AdvanceWrite(s.db, c, input);
        s.(db := db, calls := s.calls[call := c.(wpc := wpc)])
    case Abandon(call) =>
      var c := s.calls[call];
      s.(calls := s.calls[call := if c.Create? then c.(pc := Finished(Err(Internal)))
                                  else c.(wpc := Answered(Err(Internal)))])
    case RiskAnswers(offset) =>
      s.(completed := s.completed + [VerdictOn(s.requested[offset], cfg.thresholds)])
  }

  // ---- The invariant ----

  /** The verdict on the one event published for this intent. */
  ghost predicate IsVerdict(cfg: Config, events: map<Id, Event>, id: Id, risk: RiskFields, d: Decision) {
    && id in events
    && risk == Verdict(VerdictOn(events[id], cfg.thresholds))
    && d == VerdictOn(events[id], cfg.thresholds).decision
  }

  /** Which risk columns may accompany which status. */
  ghost predicate RiskShape(cfg: Config, events: map<Id, Event>, id: Id, status: Status, risk: RiskFields) {
    || (risk == NO_RISK && status != Approved && status != Rejected)
    || (IsVerdict(cfg, events, id, risk, Approve) && status == Approved)
    || (IsVerdict(cfg, events, id, risk, Reject) && status == Rejected)
    || (IsVerdict(cfg, events, id, risk, Review) && status != Pending && status != Cancelled
        && (cfg.manualPatches || status == UnderReview || status == Expired))
  }

  ghost predicate Shapes(cfg: Config, events: map<Id, Event>, db: Db) {
    forall id | id in db.rows :: RiskShape(cfg, events, id, db.rows[id].status, db.rows[id].risk)
  }

  ghost predicate Published(s: System, id: Id) {
    && id in s.events && s.events[id].paymentIntentId == id
    && id in s.db.rows && Reaches(UnderReview, s.db.rows[id].status)
    && Held(s.db.history, id, UnderReview)
  }

  ghost predicate StoreInv(cfg: Config, s: System) {
    && Consistent(s.db) && Walks(s.db) && s.db.rows.Keys <= s.issued
    && Shapes(cfg, s.events, s.db)
    && (forall id | id in s.events :: Published(s, id))
    && (forall id :: s.publishCalls[id] == if id in s.events then 1 else 0)
    && (forall k | 0 <= k < |s.requested| :: IsEvent(s.events, s.requested[k]))
    && (forall k | 0 <= k < |s.completed| :: IsAnswer(cfg, s.events, s.completed[k]))
  }

  ghost predicate IsEvent(events: map<Id, Event>, e: Event) {
    e.paymentIntentId in events && events[e.paymentIntentId] == e
  }

  ghost predicate IsAnswer(cfg: Config, events: map<Id, Event>, v: Evaluation) {
    v.paymentIntentId in events && v == VerdictOn(events[v.paymentIntentId], cfg.thresholds)
  }

  ghost predicate WriteOk(cfg: Config, s: System, w: Write) {
    && w.pi.id in s.db.rows
    && SameIdentity(s.db.rows[w.pi.id], w.pi)
    && Held(s.db.history, w.pi.id, w.previous)
    && StaysOrMoves(w.previous, w.pi.status)
    && (RowChecks(w.pi) ==> RiskShape(cfg, s.events, w.pi.id, w.pi.status, w.pi.risk))
  }

  ghost predicate Stored(s: System, id: Id, key: string) {
    id in s.db.rows && s.db.rows[id].idempotencyKey == key
  }

  /** A new intent as validated, before it is in the table. */
  ghost predicate Draft(s: System, req: CreateRequest, pi: Intent) {
    && pi.status == Pending && pi.risk == NO_RISK && pi.idempotencyKey == req.idempotencyKey
    && pi.id in s.issued
  }

  ghost predicate CreateOk(cfg: Config, s: System, req: CreateRequest, pc: CreatePc) {
    match pc
    case LoadMerchant(pi) => Draft(s, req, pi)
    case CountRecent(pi, _) => Draft(s, req, pi)
    case Insert(pi, event) => Draft(s, req, pi) && event.paymentIntentId == pi.id
    case MarkUnderReview(pi, event) =>
      && Draft(s, req, pi) && event.paymentIntentId == pi.id && Stored(s, pi.id, req.idempotencyKey)
      && SameIdentity(s.db.rows[pi.id], pi) && Held(s.db.history, pi.id, Pending)
    case Publish(pi, event) =>
      && Stored(s, pi.id, req.idempotencyKey) && event.paymentIntentId == pi.id && pi.id in s.issued
      && Reaches(UnderReview, s.db.rows[pi.id].status) && Held(s.db.history, pi.id, UnderReview)
    case ReadVerdict(pi, verdict) =>
      && Stored(s, pi.id, req.idempotencyKey) && verdict.paymentIntentId == pi.id && IsAnswer(cfg, s.events, verdict)
    case CommitVerdict(pi, w) =>
      Stored(s, pi.id, req.idempotencyKey) && w.pi.id == pi.id && WriteOk(cfg, s, w)
    case Finished(answer) => answer.Ok? ==> Stored(s, answer.value.id, req.idempotencyKey)
    case _ => true
  }

  ghost predicate CallOk(cfg: Config, s: System, c: Call) {
    match c
    case Create(req, pc) => CreateOk(cfg, s, req, pc)
    case Patch(id, next, _, _, wpc) =>
      && (cfg.manualPatches || next == Expired)
      && (wpc.Commit? ==> WriteOk(cfg, s, wpc.write) && wpc.write.pi.id == id && wpc.write.pi.status == next
                          && (next == Expired ==> RowChecks(wpc.write.pi) && WellTyped(wpc.write.pi)))
      && (wpc.Answered? && wpc.answer.Ok? ==>
            && wpc.answer.value.id == id && id in s.db.rows && Reaches(next, s.db.rows[id].status)
            && Held(s.db.history, id, next))
    case Apply(v, wpc) =>
      IsAnswer(cfg, s.events, v) && (wpc.Commit? ==> WriteOk(cfg, s, wpc.write))
  }

  /** The id a Create generated and has not yet published. */
  function Claim(c: Call): Option<Id> {
    if !c.Create? then None
    else match c.pc
         case LoadMerchant(pi) => Some(pi.id)
         case CountRecent(pi, _) => Some(pi.id)
         case Insert(pi, _) => Some(pi.id)
         case MarkUnderReview(pi, _) => Some(pi.id)
         case Publish(pi, _) => Some(pi.id)
         case _ => None
  }

  predicate BeforeInsert(c: Call) {
    c.Create? && (c.pc.LoadMerchant? || c.pc.CountRecent? || c.pc.Insert?)
  }

  /** A claimed id is unpublished, and absent from the table until its own INSERT. */
  ghost predicate ClaimFresh(s: System, c: Call) {
    Claim(c).Some? ==>
      && Claim(c).value in s.issued && Claim(c).value !in s.events
      && (BeforeInsert(c) ==> Claim(c).value !in s.db.rows)
  }

  ghost predicate CallsInv(cfg: Config, s: System) {
    && (forall k | k in s.calls :: CallOk(cfg, s, s.calls[k]) && ClaimFresh(s, s.calls[k]))
    && (forall k, l | k in s.calls && l in s.calls && k != l && Claim(s.calls[k]).Some? ::
          Claim(s.calls[k]) != Claim(s.calls[l]))
  }

  ghost predicate Inv(cfg: Config, s: System) {
    StoreInv(cfg, s) && CallsInv(cfg, s)
  }

  // ---- Facts that survive every step of another call ----

  ghost predicate Grows(s: System, t: System) {
    && Evolves(s.db, t.db)
    && s.issued <= t.issued
    && (forall id | id in s.events :: id in t.events && t.events[id] == s.events[id])
  }

  lemma HeldStays(a: seq<HistoryRow>, b: seq<HistoryRow>, id: Id, status: Status)
    requires a <= b && Held(a, id, status)
    ensures Held(b, id, status)
  {
    var i :| 0 <= i < |a| && a[i].intentId == id && a[i].newStatus == status;
    assert b[i] == a[i];
  }

  lemma WriteOkStays(cfg: Config, s: System, t: System, w: Write)
    requires Grows(s, t) && WriteOk(cfg, s, w)
    ensures WriteOk(cfg, t, w)
  {
    HeldStays(s.db.history, t.db.history, w.pi.id, w.previous);
  }

  lemma CreateOkStays(cfg: Config, s: System, t: System, req: CreateRequest, pc: CreatePc)
    requires Grows(s, t) && CreateOk(cfg, s, req, pc)
    ensures CreateOk(cfg, t, req, pc)
  {
    match pc
    case MarkUnderReview(pi, _) => HeldStays(s.db.history, t.db.history, pi.id, Pending);
    case Publish(pi, _) =>
      HeldStays(s.db.history, t.db.history, pi.id, UnderReview);
      ReachesTransitive(UnderReview, s.db.rows[pi.id].status, t.db.rows[pi.id].status);
    case CommitVerdict(_, w) => WriteOkStays(cfg, s, t, w);
    case _ =>
  }

  lemma CallOkStays(cfg: Config, s: System, t: System, c: Call)
    requires Grows(s, t) && CallOk(cfg, s, c)
    ensures CallOk(cfg, t, c)
  {
    match c
    case Create(req, pc) => CreateOkStays(cfg, s, t, req, pc);
    case Patch(id, next, _, _, wpc) =>
      if wpc.Commit? {
        WriteOkStays(cfg, s, t, wpc.write);
      } else if wpc.Answered? && wpc.answer.Ok? {
        HeldStays(s.db.history, t.db.history, id, next);
        ReachesTransitive(next, s.db.rows[id].status, t.db.rows[id].status);
      }
    case Apply(_, wpc) =>
      if wpc.Commit? {
        WriteOkStays(cfg, s, t, wpc.write);
      }
  }

  // ---- Reads ----

  lemma StatusIsHeld(db: Db, id: Id)
    requires Walks(db) && id in db.rows
    ensures Held(db.history, id, db.rows[id].status) && Held(db.history, id, Pending)
  {
    var walk := HistoryOf(db.history, id);
    HeldIsShown(db.history, id, db.rows[id].status);
    HeldIsShown(db.history, id, Pending);
    assert walk[|walk| - 1].newStatus == db.rows[id].status && walk[0].newStatus == Pending;
  }

  lemma PatchShape(cfg: Config, events: map<Id, Event>, row: Intent, next: Status)
    requires RiskShape(cfg, events, row.id, row.status, row.risk) && CanTransitionTo(row.status, next)
    requires cfg.manualPatches || next == Expired
    requires next == Approved || next == Rejected ==> row.risk.decision.Some?
    ensures RiskShape(cfg, events, row.id, next, row.risk)
  {
    if row.risk != NO_RISK {
      assert row.status == UnderReview;
      assert IsVerdict(cfg, events, row.id, row.risk, Review);
    }
  }

  lemma PatchReadIsOk(cfg: Config, s: System, id: Id, next: Status, reason: string, actor: string, now: Time)
    requires StoreInv(cfg, s) && (cfg.manualPatches || next == Expired)
    requires ReadForPatch(s.db, id, next, reason, actor, now).Ok?
    ensures WriteOk(cfg, s, ReadForPatch(s.db, id, next, reason, actor, now).value)
    ensures ReadForPatch(s.db, id, next, reason, actor, now).value.pi.id == id
    ensures ReadForPatch(s.db, id, next, reason, actor, now).value.pi.status == next
    ensures next == Expired ==> var pi := ReadForPatch(s.db, id, next, reason, actor, now).value.pi;
                                RowChecks(pi) && WellTyped(pi)
  {
    hide IsUuid;
    hide Walks;
    StatusIsHeld(s.db, id);
    assert RiskShape(cfg, s.events, id, s.db.rows[id].status, s.db.rows[id].risk);
    if RowChecks(s.db.rows[id].(status := next)) {
      PatchShape(cfg, s.events, s.db.rows[id], next);
    }
  }

  lemma ApplyReadIsOk(cfg: Config, s: System, v: Evaluation, reason: string, now: Time)
    requires StoreInv(cfg, s) && IsAnswer(cfg, s.events, v)
    requires ReadForApply(s.db, v, reason, now).Ok?
    ensures WriteOk(cfg, s, ReadForApply(s.db, v, reason, now).value)
    ensures ReadForApply(s.db, v, reason, now).value.pi.id == v.paymentIntentId
  {
    hide IsUuid;
    hide Walks;
    StatusIsHeld(s.db, v.paymentIntentId);
    assert Published(s, v.paymentIntentId) && s.db.rows[v.paymentIntentId].id == v.paymentIntentId;
    AfterReview(s.db.rows[v.paymentIntentId].status);
    hide StoreInv;
    hide Consistent;
    hide Held;
    hide VerdictOn;
  }

  // ---- Writes ----

  lemma HistoryAfterWrite(db: Db, w: Write, dbNow: Time)
    requires Consistent(db) && Walks(db) && Held(db.history, w.pi.id, w.previous)
    requires StaysOrMoves(w.previous, w.pi.status)
    requires Execute(db, UpdateScript(w, dbNow)).Ok?
    ensures Walks(Execute(db, UpdateScript(w, dbNow)).value)
  {
    UpdateEffect(db, w, dbNow);
    var done := Execute(db, UpdateScript(w, dbNow)).value;
    var h := UpdateScript(w, dbNow)[1].h;
    forall id | id in done.rows
      ensures Walk(HistoryOf(done.history, id), done.rows[id].status)
    {
      HistoryOfAppend(db.history, h, id);
      if id == w.pi.id {
        HeldIsShown(db.history, id, w.previous);
        WalkExtends(HistoryOf(db.history, id), db.rows[id].status, h);
      } else {
        assert HistoryOf(done.history, id) == HistoryOf(db.history, id);
      }
    }
  }

  lemma HistoryAfterInsert(db: Db, pi: Intent, actor: string)
    requires Consistent(db) && Walks(db) && pi.status == Pending
    requires Execute(db, InsertScript(pi, actor)).Ok?
    ensures Walks(Execute(db, InsertScript(pi, actor)).value)
  {
    InsertEffect(db, pi, actor);
    var done := Execute(db, InsertScript(pi, actor)).value;
    var h := InsertScript(pi, actor)[1].h;
    assert pi.id !in db.rows;
    NoHistoryOfUnknown(db.history, pi.id);
    forall id | id in done.rows
      ensures Walk(HistoryOf(done.history, id), done.rows[id].status)
    {
      HistoryOfAppend(db.history, h, id);
      if id != pi.id {
        assert HistoryOf(done.history, id) == HistoryOf(db.history, id);
      } else {
        assert HistoryOf(done.history, id) == [h];
      }
    }
  }

  /** Nothing but the tables and the calls differs. */
  ghost predicate OnlyDb(s: System, t: System) {
    t == s.(db := t.db, calls := t.calls)
  }

  lemma MessagesStay(cfg: Config, s: System, t: System)
    requires StoreInv(cfg, s) && OnlyDb(s, t) && Evolves(s.db, t.db)
    ensures forall id | id in t.events :: Published(t, id)
    ensures forall k | 0 <= k < |t.requested| :: IsEvent(t.events, t.requested[k])
    ensures forall k | 0 <= k < |t.completed| :: IsAnswer(cfg, t.events, t.completed[k])
  {
    forall id | id in t.events
      ensures Published(t, id)
    {
      assert Published(s, id);
      HeldStays(s.db.history, t.db.history, id, UnderReview);
      ReachesTransitive(UnderReview, s.db.rows[id].status, t.db.rows[id].status);
    }
    forall k | 0 <= k < |t.requested|
      ensures IsEvent(t.events, t.requested[k])
    {
      assert IsEvent(s.events, s.requested[k]);
    }
    forall k | 0 <= k < |t.completed|
      ensures IsAnswer(cfg, t.events, t.completed[k])
    {
      assert IsAnswer(cfg, s.events, s.completed[k]);
    }
  }

  lemma ShapesAfterWrite(cfg: Config, s: System, w: Write, dbNow: Time)
    requires Shapes(cfg, s.events, s.db) && WriteOk(cfg, s, w)
    requires Execute(s.db, UpdateScript(w, dbNow)).Ok?
    ensures Shapes(cfg, s.events, Execute(s.db, UpdateScript(w, dbNow)).value)
  {
    UpdateEffect(s.db, w, dbNow);
    assert RowChecks(w.pi);
  }

  lemma WriteKeepsStore(cfg: Config, s: System, t: System, w: Write, dbNow: Time)
    requires StoreInv(cfg, s) && OnlyDb(s, t) && WriteOk(cfg, s, w)
    requires Execute(s.db, UpdateScript(w, dbNow)) == Ok(t.db)
    ensures StoreInv(cfg, t) && Grows(s, t)
    ensures t.db.rows.Keys == s.db.rows.Keys && t.db.rows[w.pi.id].status == w.pi.status
    ensures Held(t.db.history, w.pi.id, w.pi.status)
  {
    UpdateEffect(s.db, w, dbNow);
    ExecuteEvolves(s.db, UpdateScript(w, dbNow));
    HistoryAfterWrite(s.db, w, dbNow);
    MessagesStay(cfg, s, t);
    StatusIsHeld(t.db, w.pi.id);
    ShapesAfterWrite(cfg, s, w, dbNow);
  }

  lemma InsertKeepsStore(cfg: Config, s: System, t: System, pi: Intent, actor: string)
    requires StoreInv(cfg, s) && OnlyDb(s, t)
    requires pi.status == Pending && pi.risk == NO_RISK && pi.id in s.issued
    requires Execute(s.db, InsertScript(pi, actor)) == Ok(t.db)
    ensures StoreInv(cfg, t) && Grows(s, t) && t.db.rows == s.db.rows[pi.id := pi] && pi.id !in s.db.rows
    ensures Held(t.db.history, pi.id, Pending)
  {
    InsertEffect(s.db, pi, actor);
    ExecuteEvolves(s.db, InsertScript(pi, actor));
    HistoryAfterInsert(s.db, pi, actor);
    MessagesStay(cfg, s, t);
    StatusIsHeld(t.db, pi.id);
    assert RiskShape(cfg, s.events, pi.id, pi.status, pi.risk);
  }

  // ---- Every step keeps the invariant ----

  function OwnClaim(s: System, call: CallId): set<Id> {
    if call in s.calls && Claim(s.calls[call]).Some? then {Claim(s.calls[call]).value} else {}
  }

  /** One call moved: the others keep their facts because what changed belongs to the mover alone. */
  lemma CallsAfter(cfg: Config, s: System, t: System, call: CallId, c: Call)
    requires CallsInv(cfg, s) && Grows(s, t) && t.calls == s.calls[call := c]
    requires CallOk(cfg, t, c) && ClaimFresh(t, c)
    requires Claim(c).Some? ==> Claim(c).value in OwnClaim(s, call) || Claim(c).value !in s.issued
    requires t.db.rows.Keys <= s.db.rows.Keys + OwnClaim(s, call)
    requires t.events.Keys <= s.events.Keys + OwnClaim(s, call)
    ensures CallsInv(cfg, t)
  {
    forall k | k in t.calls
      ensures CallOk(cfg, t, t.calls[k]) && ClaimFresh(t, t.calls[k])
      ensures k != call && Claim(t.calls[k]).Some? ==> Claim(t.calls[k]) != Claim(c)
    {
      if k != call {
        assert CallOk(cfg, s, s.calls[k]) && ClaimFresh(s, s.calls[k]);
        CallOkStays(cfg, s, t, s.calls[k]);
      }
    }
  }

  /** A step that neither writes nor publishes. */
  lemma QuietStep(cfg: Config, s: System, t: System, call: CallId, c: Call)
    requires Inv(cfg, s) && t == s.(calls := s.calls[call := c])
    requires CallOk(cfg, s, c) && ClaimFresh(s, c)
    requires Claim(c).Some? ==> Claim(c).value in OwnClaim(s, call)
    ensures Inv(cfg, t) && Grows(s, t)
  {
    CallOkStays(cfg, s, t, c);
    MessagesStay(cfg, s, t);
    CallsAfter(cfg, s, t, call, c);
  }

  /** The call that moves, in a step of Create. */
  ghost predicate Moves(cfg: Config, s: System, call: CallId, req: CreateRequest, pc: CreatePc) {
    call in s.calls && s.calls[call] == Create(req, pc) && CreateOk(cfg, s, req, pc) && ClaimFresh(s, s.calls[call])
  }

  lemma ValidateKeeps(cfg: Config, s: System, t: System, call: CallId, req: CreateRequest, i: Input)
    requires Inv(cfg, s) && Moves(cfg, s, call, req, Validate) && i.freshId !in s.issued
    requires t == s.(calls := s.calls[call := Create(req, CreateStep(s.db, req, Validate, i).1)],
                     issued := s.issued + {i.freshId})
    ensures Inv(cfg, t) && Grows(s, t)
  {
    forall id | id in t.events
      ensures Published(t, id)
    {
      assert Published(s, id);
    }
    assert StoreInv(cfg, t);
    CallsAfter(cfg, s, t, call, t.calls[call]);
  }

  lemma EventsExtend(cfg: Config, s: System, e: Event, copies: nat)
    requires StoreInv(cfg, s) && e.paymentIntentId !in s.events
    ensures var events, requested := s.events[e.paymentIntentId := e], s.requested + Copies(e, copies);
            && Shapes(cfg, events, s.db)
            && (forall k | 0 <= k < |requested| :: IsEvent(events, requested[k]))
            && (forall k | 0 <= k < |s.completed| :: IsAnswer(cfg, events, s.completed[k]))
  {
    hide Consistent;
    hide Walks;
    var events, requested := s.events[e.paymentIntentId := e], s.requested + Copies(e, copies);
    forall id | id in s.db.rows
      ensures RiskShape(cfg, events, id, s.db.rows[id].status, s.db.rows[id].risk)
    {
      assert RiskShape(cfg, s.events, id, s.db.rows[id].status, s.db.rows[id].risk);
    }
    forall k | 0 <= k < |requested|
      ensures IsEvent(events, requested[k])
    {
      assert k < |s.requested| ==> IsEvent(s.events, s.requested[k]);
    }
    forall k | 0 <= k < |s.completed|
      ensures IsAnswer(cfg, events, s.completed[k])
    {
      assert IsAnswer(cfg, s.events, s.completed[k]);
    }
  }

  /** Publishing an unpublished event leaves every earlier event and verdict as it was. */
  lemma PublishKeepsStore(cfg: Config, s: System, t: System, e: Event, copies: nat)
    requires StoreInv(cfg, s) && e.paymentIntentId !in s.events
    requires t == s.(publishCalls := s.publishCalls + multiset{e.paymentIntentId},
                     events := s.events[e.paymentIntentId := e],
                     requested := s.requested + Copies(e, copies), calls := t.calls)
    requires Published(t, e.paymentIntentId)
    ensures StoreInv(cfg, t)
  {
    EventsExtend(cfg, s, e, copies);
    forall id | id in t.events
      ensures Published(t, id)
    {
      assert id != e.paymentIntentId ==> Published(s, id);
    }
  }

  lemma PublishKeeps(cfg: Config, s: System, t: System, call: CallId, req: CreateRequest, pc: CreatePc, i: Input)
    requires Inv(cfg, s) && pc.Publish? && Moves(cfg, s, call, req, pc)
    requires LegalDelivery(pc.event, i.delivery, cfg.thresholds)
    requires t == s.(calls := s.calls[call := Create(req, CreateStep(s.db, req, pc, i).1)],
                     publishCalls := s.publishCalls + multiset{pc.pi.id},
                     events := s.events[pc.pi.id := pc.event],
                     requested := s.requested + Copies(pc.event, i.delivery.copies))
    ensures Inv(cfg, t) && Grows(s, t)
  {
    assert Claim(s.calls[call]) == Some(pc.pi.id);
    assert Published(t, pc.pi.id);
    PublishKeepsStore(cfg, s, t, pc.event, i.delivery.copies);
    CallsAfter(cfg, s, t, call, t.calls[call]);
  }

  lemma InsertKeeps(cfg: Config, s: System, t: System, call: CallId, req: CreateRequest, pc: CreatePc, i: Input)
    requires Inv(cfg, s) && pc.Insert? && Moves(cfg, s, call, req, pc)
    requires var (db, next) := CreateStep(s.db, req, pc, i);
             t == s.(db := db, calls := s.calls[call := Create(req, next)])
    ensures Inv(cfg, t) && Grows(s, t)
  {
    hide StoreInv;
    hide Execute;
    hide Evolves;
    if !i.down && Execute(s.db, InsertScript(pc.pi, req.changedBy)).Ok? {
      InsertKeepsStore(cfg, s, t, pc.pi, req.changedBy);
      CallsAfter(cfg, s, t, call, t.calls[call]);
    } else {
      QuietStep(cfg, s, t, call, t.calls[call]);
    }
  }

  lemma MarkedIsOk(cfg: Config, s: System, t: System, req: CreateRequest, pc: CreatePc, w: Write, dbNow: Time)
    requires pc.MarkUnderReview? && CreateOk(cfg, s, req, pc) && StoreInv(cfg, s) && OnlyDb(s, t)
    requires ChangedStatus(pc.pi, UnderReview, dbNow) == Ok(w.pi) && w.previous == Pending
    requires Execute(s.db, UpdateScript(w, dbNow)) == Ok(t.db)
    ensures StoreInv(cfg, t) && Grows(s, t) && t.db.rows.Keys == s.db.rows.Keys
    ensures CreateOk(cfg, t, req, Publish(w.pi, pc.event))
  {
    assert WriteOk(cfg, s, w);
    WriteKeepsStore(cfg, s, t, w, dbNow);
  }

  lemma MarkKeeps(cfg: Config, s: System, t: System, call: CallId, req: CreateRequest, pc: CreatePc, i: Input)
    requires Inv(cfg, s) && pc.MarkUnderReview? && Moves(cfg, s, call, req, pc)
    requires var (db, next) := CreateStep(s.db, req, pc, i);
             t == s.(db := db, calls := s.calls[call := Create(req, next)])
    ensures Inv(cfg, t) && Grows(s, t)
  {
    hide StoreInv;
    hide Execute;
    hide Evolves;
    var w := Write(ChangedStatus(pc.pi, UnderReview, i.now).value, Pending, REASON_SENT_TO_RISK, req.changedBy);
    if !i.down && Execute(s.db, UpdateScript(w, i.now)).Ok? {
      MarkedIsOk(cfg, s, t, req, pc, w, i.now);
      CallsAfter(cfg, s, t, call, t.calls[call]);
    } else {
      QuietStep(cfg, s, t, call, t.calls[call]);
    }
  }

  lemma CommitVerdictKeeps(cfg: Config, s: System, t: System, call: CallId, req: CreateRequest, pc: CreatePc, i: Input)
    requires Inv(cfg, s) && pc.CommitVerdict? && Moves(cfg, s, call, req, pc)
    requires var (db, next) := CreateStep(s.db, req, pc, i);
             t == s.(db := db, calls := s.calls[call := Create(req, next)])
    ensures Inv(cfg, t) && Grows(s, t)
  {
    hide StoreInv;
    hide Execute;
    if !i.down && Execute(s.db, UpdateScript(pc.write, i.now)).Ok? {
      WriteKeepsStore(cfg, s, t, pc.write, i.now);
      CallsAfter(cfg, s, t, call, t.calls[call]);
    } else {
      QuietStep(cfg, s, t, call, t.calls[call]);
    }
  }

  lemma ByKeyIsStored(db: Db, key: string)
    requires Consistent(db) && ByKey(db, key).Some?
    ensures var row := ByKey(db, key).value; row.id in db.rows && db.rows[row.id] == row
  {
    var id :| id in db.rows && db.rows[id] == ByKey(db, key).value;
  }

  predicate OnlyReads(pc: CreatePc) {
    !pc.Validate? && !pc.Insert? && !pc.MarkUnderReview? && !pc.Publish? && !pc.CommitVerdict? && !pc.Finished?
  }

  lemma ReadVerdictIsOk(cfg: Config, s: System, req: CreateRequest, pc: CreatePc, i: Input)
    requires StoreInv(cfg, s) && pc.ReadVerdict? && CreateOk(cfg, s, req, pc)
    ensures CreateOk(cfg, s, req, AnsweredStep(s.db, req, pc, i).1)
  {
    hide StoreInv;
    if ReadForApply(s.db, pc.verdict, REASON_RISK_VIA_HTTP, i.now).Ok? {
      ApplyReadIsOk(cfg, s, pc.verdict, REASON_RISK_VIA_HTTP, i.now);
    }
  }

  lemma LookupIsOk(cfg: Config, s: System, req: CreateRequest, pc: CreatePc, i: Input)
    requires Consistent(s.db) && (pc.LookUp? || pc.LookUpAgain? || pc.ResolveConflict?)
    ensures CreateOk(cfg, s, req, AnsweredStep(s.db, req, pc, i).1)
  {
    if ByKey(s.db, req.idempotencyKey).Some? {
      ByKeyIsStored(s.db, req.idempotencyKey);
    }
  }

  lemma AnsweredReadIsOk(cfg: Config, s: System, req: CreateRequest, pc: CreatePc, i: Input)
    requires StoreInv(cfg, s) && OnlyReads(pc) && CreateOk(cfg, s, req, pc)
    ensures AnsweredStep(s.db, req, pc, i).0 == s.db && CreateOk(cfg, s, req, AnsweredStep(s.db, req, pc, i).1)
    ensures var before, after := Create(req, pc), Create(req, AnsweredStep(s.db, req, pc, i).1);
            Claim(after).Some? ==> Claim(before) == Claim(after) && (BeforeInsert(after) ==> BeforeInsert(before))
  {
    hide IsUuid;
    if pc.LookUp? || pc.LookUpAgain? || pc.ResolveConflict? {
      LookupIsOk(cfg, s, req, pc, i);
    }
    hide StoreInv;
    if pc.ReadVerdict? {
      ReadVerdictIsOk(cfg, s, req, pc, i);
    }
  }

  /** A database error leaves the tables alone and claims nothing. */
  lemma CreateReadIsOk(cfg: Config, s: System, req: CreateRequest, pc: CreatePc, i: Input)
    requires StoreInv(cfg, s) && OnlyReads(pc) && CreateOk(cfg, s, req, pc)
    ensures CreateStep(s.db, req, pc, i).0 == s.db && CreateOk(cfg, s, req, CreateStep(s.db, req, pc, i).1)
    ensures var before, after := Create(req, pc), Create(req, CreateStep(s.db, req, pc, i).1);
            Claim(after).Some? ==> Claim(before) == Claim(after) && (BeforeInsert(after) ==> BeforeInsert(before))
  {
    hide AnsweredStep;
    hide StoreInv;
    AnsweredReadIsOk(cfg, s, req, pc, i);
  }

  lemma CreateReadKeeps(cfg: Config, s: System, t: System, call: CallId, req: CreateRequest, pc: CreatePc, i: Input)
    requires Inv(cfg, s) && OnlyReads(pc) && Moves(cfg, s, call, req, pc)
    requires t == s.(calls := s.calls[call := Create(req, CreateStep(s.db, req, pc, i).1)])
    ensures Inv(cfg, t) && Grows(s, t)
  {
    CreateReadIsOk(cfg, s, req, pc, i);
    hide CreateStep;
    QuietStep(cfg, s, t, call, t.calls[call]);
  }

  lemma WriterReadIsOk(cfg: Config, s: System, c: Call, i: Input)
    requires StoreInv(cfg, s) && CallOk(cfg, s, c) && !c.Create? && c.wpc.Read?
    ensures AdvanceWrite(s.db, c, i).0 == s.db && CallOk(cfg, s, c.(wpc := AdvanceWrite(s.db, c, i).1))
  {
    hide StoreInv;
    hide WriteOk;
    if c.Patch? && ReadForPatch(s.db, c.id, c.next, c.reason, c.changedBy, i.now).Ok? {
      PatchReadIsOk(cfg, s, c.id, c.next, c.reason, c.changedBy, i.now);
    }
    if c.Apply? && ReadForApply(s.db, c.verdict, REASON_RISK_EVALUATED, i.now).Ok? {
      ApplyReadIsOk(cfg, s, c.verdict, REASON_RISK_EVALUATED, i.now);
    }
  }

  lemma WriterKeeps(cfg: Config, s: System, t: System, call: CallId, c: Call, i: Input)
    requires Inv(cfg, s) && call in s.calls && s.calls[call] == c && CallOk(cfg, s, c) && !c.Create? && !Done(c)
    requires var (db, wpc) := AdvanceWrite(s.db, c, i); t == s.(db := db, calls := s.calls[call := c.(wpc := wpc)])
    ensures Inv(cfg, t) && Grows(s, t)
  {
    hide StoreInv;
    hide Execute;
    if c.wpc.Read? {
      WriterReadIsOk(cfg, s, c, i);
      QuietStep(cfg, s, t, call, t.calls[call]);
    } else if !i.down && Execute(s.db, UpdateScript(c.wpc.write, i.now)).Ok? {
      WriteKeepsStore(cfg, s, t, c.wpc.write, i.now);
      CallsAfter(cfg, s, t, call, t.calls[call]);
    } else {
      QuietStep(cfg, s, t, call, t.calls[call]);
    }
  }

  lemma AnswerKeepsStore(cfg: Config, s: System, offset: nat)
    requires StoreInv(cfg, s) && offset < |s.requested|
    ensures StoreInv(cfg, s.(completed := s.completed + [VerdictOn(s.requested[offset], cfg.thresholds)]))
  {
    hide Consistent;
    hide Walks;
    var t := s.(completed := s.completed + [VerdictOn(s.requested[offset], cfg.thresholds)]);
    assert IsEvent(s.events, s.requested[offset]);
    forall k | 0 <= k < |t.completed|
      ensures IsAnswer(cfg, t.events, t.completed[k])
    {
      assert k < |s.completed| ==> IsAnswer(cfg, s.events, s.completed[k]);
    }
    forall id | id in t.events
      ensures Published(t, id)
    {
      assert Published(s, id);
    }
  }

  lemma CallsStay(cfg: Config, s: System, t: System)
    requires CallsInv(cfg, s) && t == s.(completed := t.completed)
    ensures CallsInv(cfg, t) && Grows(s, t)
  {
    assert Evolves(s.db, t.db);
    forall k | k in t.calls
      ensures CallOk(cfg, t, t.calls[k])
    {
      CallOkStays(cfg, s, t, s.calls[k]);
    }
  }

  lemma RiskAnswerKeeps(cfg: Config, s: System, offset: nat)
    requires Inv(cfg, s) && offset < |s.requested|
    ensures var t := s.(completed := s.completed + [VerdictOn(s.requested[offset], cfg.thresholds)]);
            Inv(cfg, t) && Grows(s, t)
  {
    hide StoreInv;
    hide CallsInv;
    hide Grows;
    hide VerdictOn;
    AnswerKeepsStore(cfg, s, offset);
    CallsStay(cfg, s, s.(completed := s.completed + [VerdictOn(s.requested[offset], cfg.thresholds)]));
  }

  /** Only three steps of Create write to the tables. */
  lemma OnlyThreeStepsWrite(db: Db, req: CreateRequest, pc: CreatePc, i: Input)
    requires !pc.Finished? && !pc.Insert? && !pc.MarkUnderReview? && !pc.CommitVerdict?
    ensures CreateStep(db, req, pc, i).0 == db
  {
  }

  lemma AdvanceKeeps(cfg: Config, s: System, t: System, call: CallId, i: Input)
    requires Inv(cfg, s) && Enabled(cfg, s, Advance(call, i)) && t == Step(cfg, s, Advance(call, i))
    ensures Inv(cfg, t) && Grows(s, t)
  {
    hide CreateStep;
    hide AdvanceWrite;
    hide StoreInv;
    hide CreateOk;
    var c := s.calls[call];
    if !c.Create? {
      WriterKeeps(cfg, s, t, call, c, i);
    } else {
      assert Moves(cfg, s, call, c.req, c.pc);
      if !c.pc.Insert? && !c.pc.MarkUnderReview? && !c.pc.CommitVerdict? {
        OnlyThreeStepsWrite(s.db, c.req, c.pc, i);
      }
      if c.pc.Validate? {
        ValidateKeeps(cfg, s, t, call, c.req, i);
      } else if c.pc.Insert? {
        InsertKeeps(cfg, s, t, call, c.req, c.pc, i);
      } else if c.pc.MarkUnderReview? {
        MarkKeeps(cfg, s, t, call, c.req, c.pc, i);
      } else if c.pc.Publish? {
        PublishKeeps(cfg, s, t, call, c.req, c.pc, i);
      } else if c.pc.CommitVerdict? {
        CommitVerdictKeeps(cfg, s, t, call, c.req, c.pc, i);
      } else {
        CreateReadKeeps(cfg, s, t, call, c.req, c.pc, i);
      }
    }
  }

  lemma BeginKeeps(cfg: Config, s: System, a: Action)
    requires Inv(cfg, s) && Enabled(cfg, s, a) && (a.BeginCreate? || a.BeginPatch? || a.BeginApply?)
    ensures Inv(cfg, Step(cfg, s, a)) && Grows(s, Step(cfg, s, a))
  {
    assert a.BeginApply? ==> IsAnswer(cfg, s.events, s.completed[a.offset]);
    hide StoreInv;
    hide Grows;
    QuietStep(cfg, s, Step(cfg, s, a), a.call, Step(cfg, s, a).calls[a.call]);
  }

  lemma StepKeeps(cfg: Config, s: System, a: Action)
    requires Inv(cfg, s) && Enabled(cfg, s, a)
    ensures Inv(cfg, Step(cfg, s, a)) && Grows(s, Step(cfg, s, a))
  {
    hide StoreInv;
    hide CreateStep;
    hide AdvanceWrite;
    hide Grows;
    var t := Step(cfg, s, a);
    match a
    case Abandon(call) =>
      assert CallOk(cfg, s, s.calls[call]);
      QuietStep(cfg, s, t, call, t.calls[call]);
    case RiskAnswers(offset) => RiskAnswerKeeps(cfg, s, offset);
    case Advance(call, i) => AdvanceKeeps(cfg, s, t, call, i);
    case _ => BeginKeeps(cfg, s, a);
  }
}
