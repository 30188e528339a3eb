/** The payment intent, its status machine and the use-case errors of core-api. */
module Domain {
  import opened Wrappers

  type Id = string

  /** Instants and durations are whole microseconds, the resolution of TIMESTAMPTZ. */
  type Time = int

  const SECOND: Time := 1_000_000
  const MINUTE: Time := 60 * SECOND
  const EXPIRATION_WINDOW: Time := 30 * MINUTE
  const SUPPORTED_CURRENCY := "COP"

  /** A Go `Status` is any text; `Foreign` stands for a text that is not one of the six constants. */
  datatype Status = Pending | UnderReview | Approved | Rejected | Cancelled | Expired | Foreign(text: string)

  datatype Channel = Qr | PaymentLink | DataphoneSimulated | ForeignChannel(text: string)

  datatype Decision = Approve | Review | Reject | ForeignDecision(text: string)

  datatype AppError =
    | NotFound
    | Conflict
    | InvalidTransition
    | MissingIdempotencyKey
    | MissingMerchantId
    | MissingExternalReference
    | InvalidAmount
    | InvalidCurrency
    | InvalidChannel
    | Internal

  function AllowedTransitions(s: Status): set<Status> {
    match s
    case Pending => {UnderReview, Cancelled, Expired}
    case UnderReview => {Approved, Rejected, Expired}
    case _ => {}
  }

  predicate CanTransitionTo(s: Status, next: Status) {
    next in AllowedTransitions(s)
  }

  predicate Open(s: Status) {
    s == Pending || s == UnderReview
  }

  predicate Terminal(s: Status) {
    s == Approved || s == Rejected || s == Cancelled || s == Expired
  }

  /** How many real changes can lie behind a status; every transition raises it. */
  function Rank(s: Status): nat {
    match s
    case Pending => 0
    case UnderReview => 1
    case _ => 2
  }

  /** The reflexive and transitive closure of the transition table. */
  ghost predicate Reaches(s: Status, t: Status)
    decreases 2 - Rank(s)
  {
    s == t || exists m :: m in AllowedTransitions(s) && Rank(s) < Rank(m) && Reaches(m, t)
  }

  lemma {:induction false} ReachesRaisesRank(s: Status, t: Status)
    requires Reaches(s, t)
    ensures s == t || Rank(s) < Rank(t)
    decreases 2 - Rank(s)
  {
    if s != t {
      var m :| m in AllowedTransitions(s) && Rank(s) < Rank(m) && Reaches(m, t);
      ReachesRaisesRank(m, t);
    }
  }

  /** The graph has no cycle: a status that can be left is never seen again. */
  lemma TransitionsAreAcyclic(s: Status, t: Status)
    requires CanTransitionTo(s, t)
    ensures Reaches(s, t) && !Reaches(t, s)
  {
    assert Reaches(t, t);
    if Reaches(t, s) {
      ReachesRaisesRank(t, s);
    }
  }

  lemma {:induction false} ReachesTransitive(s: Status, t: Status, u: Status)
    requires Reaches(s, t) && Reaches(t, u)
    ensures Reaches(s, u)
    decreases 2 - Rank(s)
  {
    if s != t {
      var m :| m in AllowedTransitions(s) && Rank(s) < Rank(m) && Reaches(m, t);
      ReachesTransitive(m, t, u);
    }
  }

  lemma TerminalIsForever(s: Status, t: Status)
    requires Terminal(s) && Reaches(s, t)
    ensures t == s
  {
  }

  /** What UNDER_REVIEW rules out for good: PENDING and CANCELLED. */
  lemma AfterReview(t: Status)
    requires Reaches(UnderReview, t)
    ensures t != Pending && t != Cancelled
  {
    forall m | m in AllowedTransitions(UnderReview) && Reaches(m, t)
      ensures t == m
    {
      TerminalIsForever(m, t);
    }
  }

  /** The four risk columns, each nullable on its own. */
  datatype RiskFields = RiskFields(
    decision: Option<Decision>,
    score: Option<int>,
    reasonCodes: Option<seq<string>>,
    modelVersion: Option<string>)

  const NO_RISK := RiskFields(None, None, None, None)

  /** One row of payment_intents, which is also what the repository hands to a use case. */
  datatype Intent = Intent(
    id: Id,
    merchantId: Id,
    externalReference: string,
    idempotencyKey: string,
    amountMinor: int,
    currency: string,
    channel: Channel,
    status: Status,
    risk: RiskFields,
    correlationId: Id,
    expiresAt: Time,
    createdAt: Time,
    updatedAt: Time)

  /** The columns no UPDATE of the repository names. */
  predicate SameIdentity(a: Intent, b: Intent) {
    a == b.(status := a.status, risk := a.risk, updatedAt := a.updatedAt)
  }

  /** What the client sends to create an intent, plus the actor taken from the token. */
  datatype CreateRequest = CreateRequest(
    merchantId: Id,
    externalReference: string,
    amountMinor: int,
    currency: string,
    channel: Channel,
    idempotencyKey: string,
    correlationId: Id,
    changedBy: string)

  /** A verdict as risk-service reports it, over either transport. */
  datatype Evaluation = Evaluation(
    paymentIntentId: Id,
    decision: Decision,
    score: int,
    reasonCodes: seq<string>,
    modelVersion: string)

  function Verdict(e: Evaluation): RiskFields {
    RiskFields(Some(e.decision), Some(e.score), Some(e.reasonCodes), Some(e.modelVersion))
  }

  /** Validates the request in the source's order. `id` and `correlation` are the generated UUIDs. */
  function NewPaymentIntent(req: CreateRequest, id: Id, correlation: Id, now: Time): (r: Result<Intent, AppError>)
    ensures r.Ok? ==> r.value.status == Pending && r.value.risk == NO_RISK && r.value.id == id
    ensures r.Ok? ==> r.value.idempotencyKey == req.idempotencyKey != ""
    ensures r.Ok? ==>
      && r.value.merchantId == req.merchantId && r.value.externalReference == req.externalReference
      && r.value.amountMinor == req.amountMinor && r.value.currency == "COP" && r.value.channel == req.channel
      && r.value.correlationId == (if req.correlationId == "" then correlation else req.correlationId)
      && r.value.createdAt == r.value.updatedAt == now && r.value.expiresAt - now == 30 * 60 * 1_000_000
    ensures r.Ok? <==> req.merchantId != "" && req.externalReference != "" && req.idempotencyKey != ""
                       && req.amountMinor > 0 && req.currency == SUPPORTED_CURRENCY && !req.channel.ForeignChannel?
  {
    if req.merchantId == "" then Err(MissingMerchantId)
    else if req.externalReference == "" then Err(MissingExternalReference)
    else if req.idempotencyKey == "" then Err(MissingIdempotencyKey)
    else if req.amountMinor <= 0 then Err(InvalidAmount)
    else if req.currency != SUPPORTED_CURRENCY then Err(InvalidCurrency)
    else if req.channel.ForeignChannel? then Err(InvalidChannel)
    else Ok(Intent(id, req.merchantId, req.externalReference, req.idempotencyKey, req.amountMinor, req.currency,
                   req.channel, Pending, NO_RISK, if req.correlationId == "" then correlation else req.correlationId,
                   now + EXPIRATION_WINDOW, now, now))
  }

  /** Of several faults the first in this order is reported. */
  lemma FirstFaultIsReported(req: CreateRequest, id: Id, correlation: Id, now: Time)
    ensures var r := NewPaymentIntent(req, id, correlation, now);
            var faults := [(req.merchantId == "", MissingMerchantId),
                           (req.externalReference == "", MissingExternalReference),
                           (req.idempotencyKey == "", MissingIdempotencyKey),
                           (req.amountMinor < 1, InvalidAmount),
                           (req.currency != "COP", InvalidCurrency),
                           (req.channel !in {Qr, PaymentLink, DataphoneSimulated}, InvalidChannel)];
            if r.Ok? then forall k | 0 <= k < 6 :: !faults[k].0
            else exists k :: 0 <= k < 6 && r.error == faults[k].1 && FirstOf(faults, k)
  {
    var faults := [(req.merchantId == "", MissingMerchantId),
                   (req.externalReference == "", MissingExternalReference),
                   (req.idempotencyKey == "", MissingIdempotencyKey),
                   (req.amountMinor < 1, InvalidAmount),
                   (req.currency != "COP", InvalidCurrency),
                   (req.channel !in {Qr, PaymentLink, DataphoneSimulated}, InvalidChannel)];
    var k := if faults[0].0 then 0 else if faults[1].0 then 1 else if faults[2].0 then 2
             else if faults[3].0 then 3 else if faults[4].0 then 4 else 5;
    var r := NewPaymentIntent(req, id, correlation, now);
    if r.Err? {
      assert r.error == faults[k].1 && FirstOf(faults, k);
    }
  }

  ghost predicate FirstOf(faults: seq<(bool, AppError)>, k: nat) {
    k < |faults| && faults[k].0 && forall j | 0 <= j < k :: !faults[j].0
  }

  function ChangedStatus(pi: Intent, next: Status, now: Time): Result<Intent, AppError> {
    if CanTransitionTo(pi.status, next) then Ok(pi.(status := next, updatedAt := now)) else Err(InvalidTransition)
  }

  /** Where a decision wants the intent; an unknown decision leaves it where it is. */
  function Target(decision: Decision, current: Status): Status {
    match decision
    case Approve => Approved
    case Reject => Rejected
    case Review => UnderReview
    case ForeignDecision(_) => current
  }

  function AppliedDecision(pi: Intent, e: Evaluation, now: Time): Result<Intent, AppError> {
    var next := Target(e.decision, pi.status);
    if next == pi.status then Ok(pi.(risk := Verdict(e)))
    else match ChangedStatus(pi, next, now)
         case Ok(moved) => Ok(moved.(risk := Verdict(e)))
         case Err(error) => Err(error)
  }

  /** The in-memory object a use case mutates between its read and its write. */
  class PaymentIntent {
    const identity: Intent
    var status: Status
    var risk: RiskFields
    var updatedAt: Time

    constructor (row: Intent)
      ensures Snapshot() == row && identity == row
    {
      identity := row;
      status, risk, updatedAt := row.status, row.risk, row.updatedAt;
    }

    function Snapshot(): Intent
      reads this
    {
      identity.(status := status, risk := risk, updatedAt := updatedAt)
    }

    /** A refused transition leaves the object as it was. */
    method ChangeStatus(next: Status, now: Time) returns (ok: bool)
      modifies this`status, this`updatedAt
      ensures ok == CanTransitionTo(old(status), next)
      ensures !ok ==> Snapshot() == old(Snapshot())
      ensures ok ==> ChangedStatus(old(Snapshot()), next, now) == Ok(Snapshot())
    {
      if !CanTransitionTo(status, next) {
        return false;
      }
      status := next;
      updatedAt := now;
      return true;
    }

    /** Either the whole verdict is stored and the status follows it, or nothing changes. */
    method ApplyRiskDecision(e: Evaluation, now: Time) returns (ok: bool)
      modifies this
      ensures ok == AppliedDecision(old(Snapshot()), e, now).Ok?
      ensures ok ==> AppliedDecision(old(Snapshot()), e, now) == Ok(Snapshot())
      ensures !ok ==> Snapshot() == old(Snapshot())
    {
      var next := status;
      match e.decision {
        case Approve => next := Approved;
        case Reject => next := Rejected;
        case Review => next := UnderReview;
        case ForeignDecision(_) =>
      }
      if next != status {
        var moved := ChangeStatus(next, now);
        if !moved {
          return false;
        }
      }
      risk := Verdict(e);
      return true;
    }
  }

  /** Applying a verdict never skips a transition, and a second equal verdict changes nothing but repeats itself. */
  lemma DecisionIsIdempotent(pi: Intent, e: Evaluation, now: Time, later: Time)
    requires AppliedDecision(pi, e, now).Ok?
    ensures var once := AppliedDecision(pi, e, now).value;
            && (once.status == pi.status || CanTransitionTo(pi.status, once.status))
            && AppliedDecision(once, e, later) == Ok(once)
  {
  }

  /** A decision that contradicts the one already applied is refused. */
  lemma ContradictionIsRefused(pi: Intent, first: Evaluation, second: Evaluation, now: Time, later: Time)
    requires AppliedDecision(pi, first, now).Ok?
    requires first.decision == Approve || first.decision == Reject
    requires second.decision != first.decision && !second.decision.ForeignDecision?
    ensures AppliedDecision(AppliedDecision(pi, first, now).value, second, later) == Err(InvalidTransition)
  {
  }
}
