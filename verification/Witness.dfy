/** A whole run, action by action: an intent sent to REVIEW ends APPROVED by a manual PATCH. */
module Witness {
  import opened Wrappers
  import opened Domain
  import opened Schema
  import opened RiskRules
  import opened UseCases
  import opened Protocol
  import opened Runs

  ghost predicate Reachable(cfg: Config, s: System) {
    exists states, actions :: IsRun(cfg, states, actions) && states[|actions|] == s
  }

  lemma InitialIsReachable(cfg: Config)
    ensures Reachable(cfg, INITIAL)
  {
    var none: seq<Action> := [];
    assert IsRun(cfg, [INITIAL], none) && [INITIAL][|none|] == INITIAL;
  }

  lemma Extends(cfg: Config, s: System, a: Action)
    requires Reachable(cfg, s) && Enabled(cfg, s, a)
    ensures Reachable(cfg, Step(cfg, s, a))
  {
    var states, actions :| IsRun(cfg, states, actions) && states[|actions|] == s;
    var t := Step(cfg, s, a);
    var longer, more := states + [t], actions + [a];
    forall i | 0 <= i < |more|
      ensures Linked(cfg, longer, more, i)
    {
      assert i < |actions| ==> Linked(cfg, states, actions, i);
    }
    assert IsRun(cfg, longer, more) && longer[|more|] == t;
  }

  // ---- One action of a call ----

  lemma CreateMoves(cfg: Config, s: System, call: CallId, req: CreateRequest, pc: CreatePc, i: Input, next: CreatePc)
    returns (t: System)
    requires Reachable(cfg, s) && call in s.calls && s.calls[call] == Create(req, pc)
    requires !pc.Finished? && !pc.Validate? && !pc.Publish? && CreateStep(s.db, req, pc, i).1 == next
    ensures t == s.(db := CreateStep(s.db, req, pc, i).0, calls := s.calls[call := Create(req, next)])
    ensures Reachable(cfg, t)
  {
    hide CreateStep;
    hide Reachable;
    Extends(cfg, s, Advance(call, i));
    t := Step(cfg, s, Advance(call, i));
  }

  lemma WriterMoves(cfg: Config, s: System, call: CallId, c: Call, i: Input) returns (t: System)
    requires Reachable(cfg, s) && call in s.calls && s.calls[call] == c && !c.Create? && !Done(c)
    ensures var (db, wpc) := AdvanceWrite(s.db, c, i); t == s.(db := db, calls := s.calls[call := c.(wpc := wpc)])
    ensures Reachable(cfg, t)
  {
    hide AdvanceWrite;
    hide Reachable;
    Extends(cfg, s, Advance(call, i));
    t := Step(cfg, s, Advance(call, i));
  }

  // ---- The run ----

  const CFG := Config(Thresholds(100, 5, []), true)
  const ID := Uuid('1')
  const REQUEST := CreateRequest(Uuid('2'), "R-1", 200, "COP", Qr, "k", Uuid('3'), "alice")
  const DRAFT := Intent(ID, Uuid('2'), "R-1", "k", 200, "COP", Qr, Pending, NO_RISK, Uuid('3'), EXPIRATION_WINDOW, 0, 0)
  const EVENT := Event(ID, Uuid('2'), "R-1", 200, "ACTIVE", Some(0))
  const INPUT := Input(false, true, ID, "", 0, Some("ACTIVE"), false, UseCases.Delivery(1, ViaKafka))

  ghost function Judged(): Evaluation {
    VerdictOn(EVENT, CFG.thresholds)
  }

  /** An amount over the review threshold and nothing else. */
  lemma VerdictIsReview()
    ensures Judged().decision == Review && Judged().paymentIntentId == ID && 0 <= Judged().score <= 100
  {
    assert Strip("R-1") == "R-1" && Strip("ACTIVE") == "ACTIVE";
    assert |Upper("R-1")| == 3 && Upper("ACTIVE")[0] == 'A';
    ScoreTellsDecision(EVENT, 0, CFG.thresholds);
  }

  lemma DraftIsTyped()
    ensures IsUuid(ID) && WellTyped(DRAFT) && RowChecks(DRAFT)
    ensures NewPaymentIntent(REQUEST, ID, "", 0) == Ok(DRAFT)
  {
    PlainUuid('1', 0);
    PlainUuid('2', 0);
    PlainUuid('3', 0);
    hide IsUuid;
    assert Uuid('3')[0] == '3';
    assert Uuid('2')[0] == '2';
  }

  /** No intent has the key, and the lock is free. */
  lemma ReadyToValidate() returns (s: System)
    ensures Reachable(CFG, s) && s == INITIAL.(calls := map[0 := Create(REQUEST, Validate)])
  {
    hide Reachable;
    InitialIsReachable(CFG);
    Extends(CFG, INITIAL, BeginCreate(0, REQUEST));
    s := Step(CFG, INITIAL, BeginCreate(0, REQUEST));
    assert ByKey(EMPTY, "k") == None;
    s := CreateMoves(CFG, s, 0, REQUEST, LookUp, INPUT, AcquireLock);
    s := CreateMoves(CFG, s, 0, REQUEST, AcquireLock, INPUT, Validate);
    assert s.calls == map[0 := Create(REQUEST, Validate)];
  }

  /** Everything Create does before its INSERT. */
  lemma ReadyToInsert() returns (s: System)
    ensures Reachable(CFG, s)
    ensures s == INITIAL.(issued := {ID}, calls := map[0 := Create(REQUEST, Insert(DRAFT, EVENT))])
  {
    hide Reachable;
    DraftIsTyped();
    hide WellTyped;
    hide IsUuid;
    hide NewPaymentIntent;
    s := ReadyToValidate();
    Extends(CFG, s, Advance(0, INPUT));
    s := Step(CFG, s, Advance(0, INPUT));
    assert s == INITIAL.(issued := {ID}, calls := map[0 := Create(REQUEST, LoadMerchant(DRAFT))]);
    s := CreateMoves(CFG, s, 0, REQUEST, LoadMerchant(DRAFT), INPUT, CountRecent(DRAFT, "ACTIVE"));
    assert RecentByMerchant(EMPTY, DRAFT.merchantId, -VELOCITY_WINDOW) == 0;
    s := CreateMoves(CFG, s, 0, REQUEST, CountRecent(DRAFT, "ACTIVE"), INPUT, Insert(DRAFT, EVENT));
    assert s.calls == map[0 := Create(REQUEST, Insert(DRAFT, EVENT))];
  }

  ghost predicate HasRow(s: System, status: Status, risk: RiskFields) {
    && ID in s.db.rows && SameIdentity(s.db.rows[ID], DRAFT)
    && s.db.rows[ID].status == status && s.db.rows[ID].risk == risk
  }

  /** The INSERT and the move to UNDER_REVIEW. */
  lemma ReadyToPublish() returns (s: System, pi: Intent)
    ensures Reachable(CFG, s) && HasRow(s, UnderReview, NO_RISK)
    ensures s.calls == map[0 := Create(REQUEST, Publish(pi, EVENT))] && pi.id == ID
    ensures s.requested == [] && s.completed == []
  {
    hide Reachable;
    DraftIsTyped();
    hide IsUuid;
    s := ReadyToInsert();
    InsertEffect(EMPTY, DRAFT, REQUEST.changedBy);
    s := CreateMoves(CFG, s, 0, REQUEST, Insert(DRAFT, EVENT), INPUT, MarkUnderReview(DRAFT, EVENT));
    pi := ChangedStatus(DRAFT, UnderReview, 0).value;
    UpdateEffect(s.db, Write(pi, Pending, REASON_SENT_TO_RISK, REQUEST.changedBy), 0);
    s := CreateMoves(CFG, s, 0, REQUEST, MarkUnderReview(DRAFT, EVENT), INPUT, Publish(pi, EVENT));
  }

  /** The event reaches Kafka and risk-service answers it. */
  lemma Answered() returns (s: System)
    ensures Reachable(CFG, s) && HasRow(s, UnderReview, NO_RISK)
    ensures s.calls.Keys == {0} && s.completed == [Judged()]
  {
    hide Reachable;
    var pi;
    s, pi := ReadyToPublish();
    Extends(CFG, s, Advance(0, INPUT));
    s := Step(CFG, s, Advance(0, INPUT));
    assert s.requested == [EVENT];
    Extends(CFG, s, RiskAnswers(0));
    s := Step(CFG, s, RiskAnswers(0));
  }

  /** The consumer stores the verdict. */
  lemma Reviewed() returns (s: System)
    ensures Reachable(CFG, s) && HasRow(s, UnderReview, Verdict(Judged()))
    ensures s.calls.Keys == {0, 1}
  {
    hide Reachable;
    hide Judged;
    VerdictIsReview();
    DraftIsTyped();
    hide IsUuid;
    s := Answered();
    Extends(CFG, s, BeginApply(1, 0));
    s := Step(CFG, s, BeginApply(1, 0));
    s := WriterMoves(CFG, s, 1, Apply(Judged(), Read), INPUT);
    var w := ReadForApply(s.db, Judged(), REASON_RISK_EVALUATED, 0).value;
    UpdateEffect(s.db, w, 0);
    s := WriterMoves(CFG, s, 1, Apply(Judged(), Commit(w)), INPUT);
  }

  /**
    APPROVED does not mean that risk said APPROVE: in this run anyone may PATCH, and the row ends APPROVED with the
    decision REVIEW.
   */
  lemma ReviewEndsApproved() returns (s: System)
    ensures Reachable(CFG, s) && HasRow(s, Approved, Verdict(Judged())) && Judged().decision == Review
  {
    hide Reachable;
    hide Judged;
    VerdictIsReview();
    DraftIsTyped();
    hide IsUuid;
    s := Reviewed();
    Extends(CFG, s, BeginPatch(2, ID, Approved, "", "bob"));
    s := Step(CFG, s, BeginPatch(2, ID, Approved, "", "bob"));
    s := WriterMoves(CFG, s, 2, Patch(ID, Approved, "", "bob", Read), INPUT);
    var w := ReadForPatch(s.db, ID, Approved, "", "bob", 0).value;
    UpdateEffect(s.db, w, 0);
    s := WriterMoves(CFG, s, 2, Patch(ID, Approved, "", "bob", Commit(w)), INPUT);
  }

  /** An expiry reads the row before the verdict is stored and commits after. */
  lemma ExpiryRead() returns (s: System, w: Write)
    ensures Reachable(CFG, s) && HasRow(s, UnderReview, NO_RISK) && s.completed == [Judged()]
    ensures s.calls.Keys == {0, 2} && s.calls[2] == Patch(ID, Expired, "", "bob", Commit(w))
    ensures w.pi.id == ID && w.pi.status == Expired && w.pi.risk == NO_RISK && w.previous == UnderReview
    ensures w.pi.correlationId == DRAFT.correlationId
  {
    hide Reachable;
    hide Judged;
    DraftIsTyped();
    hide IsUuid;
    s := Answered();
    Extends(CFG, s, BeginPatch(2, ID, Expired, "", "bob"));
    s := Step(CFG, s, BeginPatch(2, ID, Expired, "", "bob"));
    w := ReadForPatch(s.db, ID, Expired, "", "bob", 0).value;
    s := WriterMoves(CFG, s, 2, Patch(ID, Expired, "", "bob", Read), INPUT);
  }

  /** A stored decision can be lost: the row held REVIEW and ends EXPIRED with its risk columns empty. */
  lemma ExpiryErasesReview() returns (reviewed: System, s: System)
    ensures Reachable(CFG, reviewed) && HasRow(reviewed, UnderReview, Verdict(Judged()))
    ensures Reachable(CFG, s) && HasRow(s, Expired, NO_RISK)
  {
    hide Reachable;
    hide Judged;
    VerdictIsReview();
    DraftIsTyped();
    hide IsUuid;
    var w;
    s, w := ExpiryRead();
    Extends(CFG, s, BeginApply(1, 0));
    s := Step(CFG, s, BeginApply(1, 0));
    var applied := ReadForApply(s.db, Judged(), REASON_RISK_EVALUATED, 0).value;
    s := WriterMoves(CFG, s, 1, Apply(Judged(), Read), INPUT);
    UpdateEffect(s.db, applied, 0);
    s := WriterMoves(CFG, s, 1, Apply(Judged(), Commit(applied)), INPUT);
    reviewed := s;
    UpdateEffect(s.db, w, 0);
    s := WriterMoves(CFG, s, 2, Patch(ID, Expired, "", "bob", Commit(w)), INPUT);
  }
}
