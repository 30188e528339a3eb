/** The worker's HTTP client: it retries infrastructure, never the domain, behind a breaker, over a core that moves. */
module CoreClient {
  import opened Wrappers
  import opened Domain
  import opened Schema
  import opened UseCases
  import opened Expiry
  import opened Service
  import opened Backoff
  import B = Breakers

  const WORKER := "reconciliation-worker"

  /** handleError. */
  function StatusCode(e: AppError): int {
    match e
    case NotFound => 404
    case Conflict => 409
    case Internal => 500
    case _ => 422
  }

  predicate Retryable(code: int) {
    code == 429 || code == 500 || code == 502 || code == 503 || code == 504
  }

  datatype Operation = ListOpen(status: Status, limit: int) | Expire(id: Id, reason: string)

  datatype Response = Response(code: int, views: seq<PaymentIntentView>)

  datatype ClientError = CoreUnavailable | TransitionRejected | StatusEndpointMissing

  datatype ExpireOutcome = ExpiredNow | AlreadyExpired

  function Views(items: seq<Intent>): seq<PaymentIntentView> {
    seq(|items|, k requires 0 <= k < |items| => ViewOf(items[k]))
  }

  /** The page a list request is answered with. */
  ghost predicate ListAnswer(seen: Db, op: Operation, views: seq<PaymentIntentView>) {
    op.ListOpen? && exists items: seq<Intent> ::
      IsPage(seen, op.status, 1, EffectiveLimit(op.limit), items) && views == Views(items)
  }

  /** The history shows the worker's own move to EXPIRED. */
  ghost predicate Signed(db: Db, id: Id, reason: string) {
    exists k :: 0 <= k < |db.history| && IsSignature(db.history[k], id, reason)
  }

  predicate IsSignature(h: HistoryRow, id: Id, reason: string) {
    h.intentId == id && h.newStatus == Expired && h.reason == reason && h.changedBy == WORKER
  }

  /** What a final answer to a PATCH says about the intent, and keeps saying in every later state. */
  ghost predicate ExpireAnswer(start: Db, end: Db, id: Id, reason: string, code: int, exposesPatch: bool) {
    && (code == 200 ==> Signed(end, id, reason))
    && (code == 200 || code == 409 ==> id in end.rows && end.rows[id].status == Expired)
    && (code == 422 ==> id in end.rows && Terminal(end.rows[id].status) && end.rows[id].status != Expired)
    && (code == 404 || code == 405 ==> !exposesPatch || id !in start.rows)
    && (code == 200 || code == 404 || code == 405 || code == 409 || code == 422)
  }

  /** A response that is not about infrastructure is the core's own answer. */
  ghost predicate Answers(start: Db, seen: Db, end: Db, op: Operation, r: Response, exposesPatch: bool) {
    && Evolves(start, seen) && Evolves(seen, end)
    && (op.ListOpen? ==> r.code == 200 && Consistent(seen) && ListAnswer(seen, op, r.views))
    && (op.Expire? ==> ExpireAnswer(start, end, op.id, op.reason, r.code, exposesPatch))
  }

  lemma SignatureStays(a: Db, b: Db, id: Id, reason: string)
    requires Signed(a, id, reason) && Evolves(a, b)
    ensures Signed(b, id, reason)
  {
    var k :| 0 <= k < |a.history| && IsSignature(a.history[k], id, reason);
    assert b.history[k] == a.history[k];
  }

  /** A PATCH that succeeds leaves the caller's row in the history. */
  lemma PatchSigns(start: Db, end: Db, id: Id, reason: string, t: Trail, r: Result<Intent, AppError>)
    requires Follows(t, ReadForPatch(t.seen, id, Expired, reason, WORKER, t.readAt), start, end, r)
    ensures r.Ok? ==> Signed(end, id, reason)
  {
    var w := ReadForPatch(t.seen, id, Expired, reason, WORKER, t.readAt);
    if r.Ok? {
      UpdateEffect(t.before, w.value, t.writtenAt);
      var done := Execute(t.before, UpdateScript(w.value, t.writtenAt)).value;
      assert done.history[|done.history| - 1] == UpdateScript(w.value, t.writtenAt)[1].h;
      assert IsSignature(done.history[|done.history| - 1], id, reason);
      SignatureStays(done, end, id, reason);
    }
  }

  /** UpdateStatus, read through its status code, keeps the promise of `ExpireAnswer`. */
  lemma PatchAnswers(start: Db, end: Db, id: Id, reason: string, t: Trail, r: Result<Intent, AppError>)
    requires Consistent(start)
    requires Follows(t, ReadForPatch(t.seen, id, Expired, reason, WORKER, t.readAt), start, end, r)
    ensures var code := if r.Ok? then 200 else StatusCode(r.error);
            !Retryable(code) ==> ExpireAnswer(start, end, id, reason, code, true)
  {
    if !t.answering.readable {
      return;
    }
    if ReadForPatch(t.seen, id, Expired, reason, WORKER, t.readAt).Ok? {
      PatchSigns(start, end, id, reason, t, r);
      PatchCommitted(start, end, id, reason, t, r);
    } else {
      RefusedAtRead(t.seen, id, reason, t.readAt);
      hide ReadForPatch;
    }
  }

  lemma PatchCommitted(start: Db, end: Db, id: Id, reason: string, t: Trail, r: Result<Intent, AppError>)
    requires Consistent(start)
    requires Follows(t, ReadForPatch(t.seen, id, Expired, reason, WORKER, t.readAt), start, end, r)
    requires ReadForPatch(t.seen, id, Expired, reason, WORKER, t.readAt).Ok? && (r.Ok? ==> Signed(end, id, reason))
    ensures var code := if r.Ok? then 200 else StatusCode(r.error);
            !Retryable(code) ==> ExpireAnswer(start, end, id, reason, code, true)
  {
    hide IsUuid;
    hide Signed;
    var w := ReadForPatch(t.seen, id, Expired, reason, WORKER, t.readAt).value;
    UpdateEffect(t.before, w, t.writtenAt);
    if Execute(t.before, UpdateScript(w, t.writtenAt)).Err? {
      NoConflictOnUpdate(t.before, w, t.writtenAt);
    }
  }

  /** The three refusals of the read, and what each says of the row. */
  lemma RefusedAtRead(seen: Db, id: Id, reason: string, readAt: Time)
    requires Consistent(seen)
    ensures var w := ReadForPatch(seen, id, Expired, reason, WORKER, readAt);
            w.Err? ==>
              match w.error
              case Internal => !IsUuid(id)
              case NotFound => id !in seen.rows
              case Conflict => id in seen.rows && seen.rows[id].status == Expired
              case InvalidTransition =>
                id in seen.rows && Terminal(seen.rows[id].status) && seen.rows[id].status != Expired
              case _ => false
  {
    if id in seen.rows {
      assert WellTyped(seen.rows[id]);
    }
  }

  /** An UPDATE never reports a uniqueness conflict, nor a domain error. */
  lemma NoConflictOnUpdate(db: Db, w: Write, dbNow: Time)
    requires Execute(db, UpdateScript(w, dbNow)).Err?
    ensures var e := Execute(db, UpdateScript(w, dbNow)).error; e == Internal || (e == NotFound && w.pi.id !in db.rows)
  {
    var script := UpdateScript(w, dbNow);
    assert script[1..] == [script[1]] && script[1..][1..] == [];
    if Exec(Tx(db, []), script[0]).Ok? {
      var tx := Exec(Tx(db, []), script[0]).value;
      assert ExecAll(tx, script[1..]) == (match Exec(tx, script[1]) case Ok(x) => Ok(x) case Err(e) => Err(e));
    }
  }

  /** The ceiling of the full-jitter backoff. */
  function BackoffCeiling(attempt: nat, base: real, cap: real): real {
    var grown := base * Pow2(attempt) as real;
    if grown < cap then grown else cap
  }

  /** Exponential: from the base on it doubles with every attempt, until it stays at the cap. */
  lemma CeilingDoubles(attempt: nat, base: real, cap: real)
    requires 0.0 <= base && 0.0 <= cap
    ensures BackoffCeiling(0, base, cap) == if base < cap then base else cap
    ensures var twice := 2.0 * BackoffCeiling(attempt, base, cap);
            BackoffCeiling(attempt + 1, base, cap) == if twice < cap then twice else cap
  {
    var p := Pow2(attempt) as real;
    assert base * Pow2(attempt + 1) as real == 2.0 * (base * p);
  }

  /** Total sleep after `n` pauses. */
  ghost predicate SleptWithin(slept: real, n: nat, base: real, cap: real) {
    0.0 <= slept <= n as real * cap && slept <= base * (Pow2(n) - 1) as real
  }

  lemma BackoffAddsUp(attempt: nat, base: real, cap: real, slept: real, more: real)
    requires SleptWithin(slept, attempt, base, cap) && 0.0 <= more <= BackoffCeiling(attempt, base, cap)
    ensures SleptWithin(slept + more, attempt + 1, base, cap)
  {
    assert (attempt + 1) as real * cap == attempt as real * cap + cap;
    var p := Pow2(attempt) as real;
    assert base * (Pow2(attempt + 1) - 1) as real == base * (p + (p - 1.0)) == base * p + base * (p - 1.0);
  }

  // ---- What the loop went through ----

  /** One pass of the retry loop: the breaker said no, the login failed, or the request went out. */
  datatype Exchange = TurnedAway(op: Operation) | NotSent(op: Operation) | Sent(op: Operation, reply: Option<Response>)

  datatype PassOutcome = CircuitOpen | TryAgain(unauthorized: bool) | Final(response: Response)

  function OutcomeOf(reply: Option<Response>): PassOutcome {
    if reply.None? || Retryable(reply.value.code) then TryAgain(false)
    else if reply.value.code == 401 then TryAgain(true)
    else Final(reply.value)
  }

  /** Exactly these codes are tried again, and only after a 401 the token is taken for the cause. */
  lemma TriedAgainIff(code: int, views: seq<PaymentIntentView>)
    ensures OutcomeOf(Some(Response(code, views)))
            == if code in {429, 500, 502, 503, 504} then TryAgain(false)
               else if code == 401 then TryAgain(true)
               else Final(Response(code, views))
  {
  }

  /** What the core answers in terms of the domain is never tried again; only its internal error is. */
  lemma DomainAnswersEndIff(e: AppError, views: seq<PaymentIntentView>)
    ensures OutcomeOf(Some(Response(StatusCode(e), views))).Final? <==> e != Internal
    ensures StatusCode(e) == match e
                             case NotFound => 404
                             case Conflict => 409
                             case Internal => 500
                             case InvalidTransition => 422
                             case MissingIdempotencyKey => 422
                             case MissingMerchantId => 422
                             case MissingExternalReference => 422
                             case InvalidAmount => 422
                             case InvalidCurrency => 422
                             case InvalidChannel => 422
  {
  }

  function OutcomeOfPass(x: Exchange): PassOutcome {
    match x
    case TurnedAway(_) => CircuitOpen
    case NotSent(_) => TryAgain(false)
    case Sent(_, reply) => OutcomeOf(reply)
  }

  function Retries(n: int): nat {
    if n < 0 then 0 else n
  }

  /** The reply that ended the loop, if one did. */
  function FinalOf(xs: seq<Exchange>): Option<Response> {
    if xs != [] && OutcomeOfPass(xs[|xs| - 1]).Final? then Some(OutcomeOfPass(xs[|xs| - 1]).response) else None
  }

  /** Passes that all asked to try again. */
  ghost predicate AllRetried(xs: seq<Exchange>, op: Operation) {
    forall k | 0 <= k < |xs| :: xs[k].op == op && OutcomeOfPass(xs[k]).TryAgain?
  }

  /**
    A whole run of the loop: every pass but the last asked to try again, and it stopped at the breaker, at a final
    reply, or out of passes.
   */
  ghost predicate Course(xs: seq<Exchange>, op: Operation, maxRetries: int) {
    && |xs| <= Retries(maxRetries + 1)
    && if AllRetried(xs, op) then |xs| == Retries(maxRetries + 1)
       else AllRetried(xs[..|xs| - 1], op) && xs[|xs| - 1].op == op
  }

  /** The requests that left this process. */
  function SentCount(xs: seq<Exchange>): nat {
    if xs == [] then 0 else SentCount(xs[..|xs| - 1]) + if xs[|xs| - 1].Sent? then 1 else 0
  }

  lemma {:induction false} SentCountJoins(xs: seq<Exchange>, ys: seq<Exchange>)
    ensures SentCount(xs + ys) == SentCount(xs) + SentCount(ys) <= SentCount(xs) + |ys|
    decreases |ys|
  {
    if ys == [] {
      assert xs + ys == xs;
    } else {
      var n := |ys| - 1;
      SentCountJoins(xs, ys[..n]);
      assert (xs + ys)[..|xs| + n] == xs + ys[..n];
    }
  }

  /** One more pass: the loop goes on exactly if it asks to try again, and otherwise it has run its course. */
  lemma OneMorePass(xs: seq<Exchange>, x: Exchange, op: Operation, maxRetries: int)
    requires AllRetried(xs, op) && x.op == op && |xs| < Retries(maxRetries + 1)
    ensures if OutcomeOfPass(x).TryAgain? then AllRetried(xs + [x], op) else Course(xs + [x], op, maxRetries)
    ensures FinalOf(xs + [x]) == match OutcomeOfPass(x)
                                 case Final(reply) => Some(reply)
                                 case _ => None
  {
    assert (xs + [x])[..|xs|] == xs && (xs + [x])[|xs|] == x;
  }

  lemma OutOfPasses(xs: seq<Exchange>, op: Operation, maxRetries: int)
    requires AllRetried(xs, op) && |xs| == Retries(maxRetries + 1)
    ensures Course(xs, op, maxRetries) && FinalOf(xs) == None
  {
    assert xs != [] ==> OutcomeOfPass(xs[|xs| - 1]).TryAgain?;
  }

  /** Why a request got no answer: the breaker turned its last pass away, or every pass asked to try again. */
  lemma UnansweredIff(course: seq<Exchange>, op: Operation, maxRetries: int)
    requires Course(course, op, maxRetries)
    ensures FinalOf(course).None? <==>
            || (|course| == Retries(maxRetries + 1) && AllRetried(course, op))
            || (course != [] && course[|course| - 1].TurnedAway?)
  {
  }

  /** Once a reply is neither a 401 nor an infrastructure code, nothing more is sent and it is the answer. */
  lemma NothingAfterAnAnswer(course: seq<Exchange>, op: Operation, maxRetries: int, k: nat, reply: Response)
    requires Course(course, op, maxRetries) && k < |course| && course[k] == Sent(op, Some(reply))
    requires reply.code !in {401, 429, 500, 502, 503, 504}
    ensures k == |course| - 1 && FinalOf(course) == Some(reply)
    ensures op.Expire? ==>
              && (reply.code == 200 ==> ExpiryOf(course) == Ok(ExpiredNow))
              && (reply.code == 409 ==> ExpiryOf(course) == Ok(AlreadyExpired))
              && (reply.code == 422 ==> ExpiryOf(course) == Err(TransitionRejected))
              && (reply.code == 404 || reply.code == 405 ==> ExpiryOf(course) == Err(StatusEndpointMissing))
  {
    TriedAgainIff(reply.code, reply.views);
    if k < |course| - 1 {
      RetriedBefore(course, op, maxRetries, k);
      assert false;
    }
  }

  lemma RetriedBefore(course: seq<Exchange>, op: Operation, maxRetries: int, k: nat)
    requires Course(course, op, maxRetries) && k < |course| - 1
    ensures OutcomeOfPass(course[k]).TryAgain?
  {
    if !AllRetried(course, op) {
      assert course[..|course| - 1][k] == course[k];
    }
  }

  lemma CourseSends(before: seq<Exchange>, course: seq<Exchange>, op: Operation, maxRetries: int)
    requires Course(course, op, maxRetries)
    ensures SentCount(before + course) <= SentCount(before) + Retries(maxRetries + 1)
  {
    SentCountJoins(before, course);
  }

  /** Nothing but network failures, retryable codes, failed logins and rejections by the breaker. */
  ghost predicate AllFailing(xs: seq<Exchange>) {
    forall k | 0 <= k < |xs| :: OutcomeOfPass(xs[k]) == CircuitOpen || OutcomeOfPass(xs[k]) == TryAgain(false)
  }

  /** A request that got neither a 401 nor a final reply keeps an outage an outage. */
  lemma OutageGoesOn(before: seq<Exchange>, course: seq<Exchange>, op: Operation, maxRetries: int)
    requires AllFailing(before) && Course(course, op, maxRetries) && FinalOf(course).None?
    requires forall k | 0 <= k < |course| :: OutcomeOfPass(course[k]) != TryAgain(true)
    ensures AllFailing(before + course)
  {
    forall k | 0 <= k < |course|
      ensures OutcomeOfPass(course[k]) == CircuitOpen || OutcomeOfPass(course[k]) == TryAgain(false)
    {
      if !AllRetried(course, op) && k < |course| - 1 {
        assert course[..|course| - 1][k] == course[k];
      }
    }
  }

  // ---- What the breaker was told ----

  function Joined(passes: seq<seq<B.Event>>): seq<B.Event> {
    if passes == [] then [] else Joined(passes[..|passes| - 1]) + passes[|passes| - 1]
  }

  lemma {:induction false} JoinedSplits(xs: seq<seq<B.Event>>, ys: seq<seq<B.Event>>)
    ensures Joined(xs + ys) == Joined(xs) + Joined(ys)
    decreases |ys|
  {
    if ys == [] {
      assert xs + ys == xs;
    } else {
      var n := |ys| - 1;
      JoinedSplits(xs, ys[..n]);
      assert (xs + ys)[..|xs| + n] == xs + ys[..n];
    }
  }

  /**
    The breaker's side of a pass it entered in state `b`: one call asked for, then nothing after a rejection or a 401
    and otherwise how it went, and last the gauge.
   */
  ghost predicate PassTold(cfg: B.Settings, b: B.Breaker, x: Exchange, told: seq<B.Event>) {
    && |told| >= 2 && told[0].Admit? && told[|told| - 1].Observe?
    && B.LetsThrough(B.Next(B.Python, cfg, b, told[0])) == !x.TurnedAway?
    && match OutcomeOfPass(x)
       case CircuitOpen => |told| == 2
       case TryAgain(unauthorized) => if unauthorized then |told| == 2 else |told| == 3 && told[1].Fail?
       case Final(_) => |told| == 3 && told[1].Succeed?
  }

  ghost predicate ToldAt(cfg: B.Settings, log: seq<Exchange>, trace: seq<seq<B.Event>>, k: nat)
    requires k < |log| == |trace|
  {
    PassTold(cfg, B.After(B.Python, cfg, B.FRESH, Joined(trace[..k])), log[k], trace[k])
  }

  /** The log and the breaker's trace tell the same story, pass by pass. */
  ghost predicate Agree(cfg: B.Settings, log: seq<Exchange>, trace: seq<seq<B.Event>>) {
    |log| == |trace| && forall k | 0 <= k < |log| :: ToldAt(cfg, log, trace, k)
  }

  lemma AgreeMore(cfg: B.Settings, log: seq<Exchange>, trace: seq<seq<B.Event>>, x: Exchange, told: seq<B.Event>)
    requires Agree(cfg, log, trace) && PassTold(cfg, B.After(B.Python, cfg, B.FRESH, Joined(trace)), x, told)
    ensures Agree(cfg, log + [x], trace + [told])
  {
    var n := |log|;
    forall k | 0 <= k < n + 1
      ensures ToldAt(cfg, log + [x], trace + [told], k)
    {
      if k < n {
        assert ToldAt(cfg, log, trace, k);
        assert (trace + [told])[..k] == trace[..k];
      } else {
        assert (trace + [told])[..n] == trace;
      }
    }
  }

  /** A failing pass is one more step of an outage, and sends at most what the breaker let through. */
  lemma FailingPass(cfg: B.Settings, b: B.Breaker, trace: seq<B.Event>, x: Exchange, told: seq<B.Event>)
    requires B.Outage(B.Python, cfg, b, trace) && !B.Pending(B.Python, cfg, b, trace)
    requires PassTold(cfg, B.After(B.Python, cfg, b, trace), x, told)
    requires OutcomeOfPass(x) == CircuitOpen || OutcomeOfPass(x) == TryAgain(false)
    ensures B.Outage(B.Python, cfg, b, trace + told) && !B.Pending(B.Python, cfg, b, trace + told)
    ensures B.Reached(B.Python, cfg, b, trace + told)
            >= B.Reached(B.Python, cfg, b, trace) + if x.Sent? then 1 else 0
  {
    hide B.After;
    hide B.Outage;
    hide B.Pending;
    hide B.Reached;
    hide B.Admissions;
    hide B.Disciplined;
    B.OneMoreEvent(B.Python, cfg, b, trace, told[0]);
    B.OneMoreEvent(B.Python, cfg, b, trace + [told[0]], told[1]);
    if |told| == 2 {
      assert trace + told == trace + [told[0]] + [told[1]];
    } else {
      B.OneMoreEvent(B.Python, cfg, b, trace + [told[0]] + [told[1]], told[2]);
      assert trace + told == trace + [told[0]] + [told[1]] + [told[2]];
    }
  }

  /** Any stretch of failing passes, wherever in the life of the client, is an outage for the breaker it found. */
  lemma {:induction false} FailingStretch(cfg: B.Settings, log: seq<Exchange>, trace: seq<seq<B.Event>>, k: nat, m: nat)
    requires Agree(cfg, log, trace) && k <= m <= |log| && AllFailing(log[k..m])
    ensures var b, part := B.After(B.Python, cfg, B.FRESH, Joined(trace[..k])), Joined(trace[k..m]);
            && B.Outage(B.Python, cfg, b, part) && !B.Pending(B.Python, cfg, b, part)
            && SentCount(log[k..m]) <= B.Reached(B.Python, cfg, b, part)
    decreases m
  {
    if k < m {
      hide B.After;
      hide B.Outage;
      hide B.Pending;
      hide B.Reached;
      hide PassTold;
      hide B.Admissions;
      hide B.Disciplined;
      hide Joined;
      hide SentCount;
      var b, part := B.After(B.Python, cfg, B.FRESH, Joined(trace[..k])), Joined(trace[k..m - 1]);
      StretchGrows(log, trace, k, m);
      FailingStretch(cfg, log, trace, k, m - 1);
      assert ToldAt(cfg, log, trace, m - 1);
      B.AfterJoins(B.Python, cfg, B.FRESH, Joined(trace[..k]), part);
      FailingPass(cfg, b, part, log[m - 1], trace[m - 1]);
    }
  }

  /** A stretch and its last pass. */
  lemma StretchGrows(log: seq<Exchange>, trace: seq<seq<B.Event>>, k: nat, m: nat)
    requires k < m <= |log| == |trace| && AllFailing(log[k..m])
    ensures AllFailing(log[k..m - 1])
    ensures OutcomeOfPass(log[m - 1]) == CircuitOpen || OutcomeOfPass(log[m - 1]) == TryAgain(false)
    ensures SentCount(log[k..m]) == SentCount(log[k..m - 1]) + if log[m - 1].Sent? then 1 else 0
    ensures Joined(trace[k..m]) == Joined(trace[k..m - 1]) + trace[m - 1]
    ensures Joined(trace[..m - 1]) == Joined(trace[..k]) + Joined(trace[k..m - 1])
  {
    hide SentCount;
    hide Joined;
    hide OutcomeOfPass;
    LastOfSlice(log, k, m);
    LastOfSlice(trace, k, m);
    OneMore(log[k..m - 1], log[m - 1], trace[k..m - 1], trace[m - 1]);
    assert log[k..m][m - 1 - k] == log[m - 1];
    JoinedSplits(trace[..k], trace[k..m - 1]);
    assert trace[..k] + trace[k..m - 1] == trace[..m - 1];
  }

  lemma LastGrows(trace: seq<seq<B.Event>>, e: B.Event)
    requires trace != []
    ensures var n := |trace| - 1;
            var more := trace[..n] + [trace[n] + [e]];
            more[..n] == trace[..n] && Joined(more) == Joined(trace) + [e]
  {
    var n := |trace| - 1;
    assert (trace[..n] + [trace[n] + [e]])[..n] == trace[..n];
  }

  lemma LastOfSlice<T>(s: seq<T>, k: nat, m: nat)
    requires k < m <= |s|
    ensures s[k..m] == s[k..m - 1] + [s[m - 1]]
  {
  }

  lemma OneMore(xs: seq<Exchange>, x: Exchange, told: seq<seq<B.Event>>, more: seq<B.Event>)
    ensures SentCount(xs + [x]) == SentCount(xs) + if x.Sent? then 1 else 0
    ensures Joined(told + [more]) == Joined(told) + more
    ensures AllFailing(xs + [x]) ==>
              AllFailing(xs) && (OutcomeOfPass(x) == CircuitOpen || OutcomeOfPass(x) == TryAgain(false))
  {
    assert (xs + [x])[..|xs|] == xs && (told + [more])[..|told|] == told;
    if AllFailing(xs + [x]) {
      FailingPrefix(xs + [x], |xs|);
    }
  }

  lemma FailingPrefix(xs: seq<Exchange>, n: nat)
    requires n < |xs| && AllFailing(xs)
    ensures AllFailing(xs[..n])
    ensures OutcomeOfPass(xs[n]) == CircuitOpen || OutcomeOfPass(xs[n]) == TryAgain(false)
  {
  }

  /** The outcome of an expiry, read off the reply that ended it. */
  function ExpiryOf(course: seq<Exchange>): Result<ExpireOutcome, ClientError> {
    match FinalOf(course)
    case None => Err(CoreUnavailable)
    case Some(reply) =>
      if reply.code == 404 || reply.code == 405 then Err(StatusEndpointMissing)
      else if reply.code == 409 then Ok(AlreadyExpired)
      else if reply.code == 422 then Err(TransitionRejected)
      else Ok(ExpiredNow)
  }

  class CoreClient {
    const core: PaymentIntentService
    const breaker: B.PythonBreaker
    const maxRetries: int
    const backoffBase: real
    const backoffCap: real
    const exposesPatch: bool  // does the core that answers expose the PATCH at all
    var hasToken: bool
    var clock: Time

    ghost var trace: seq<seq<B.Event>>  // what the breaker went through, pass by pass
    ghost var log: seq<Exchange>        // every pass of every retry loop
    ghost var slept: real               // seconds asleep so far

    ghost predicate Valid()
      reads this, breaker, core, core.payments
    {
      Consistent(core.payments.Db()) && InStep()
    }

    /** The breaker is where its trace leads, and that trace is well formed. */
    ghost predicate TraceOk()
      reads this`trace, this`clock, breaker
    {
      && breaker.Value() == B.After(B.Python, breaker.cfg, B.FRESH, Joined(trace))
      && B.InOrder(0, Joined(trace)) && 0 <= B.Clock(0, Joined(trace)) <= clock
      && B.Disciplined(B.Python, breaker.cfg, B.FRESH, Joined(trace))
    }

    ghost predicate Pending()
      reads this`trace
    {
      B.Pending(B.Python, breaker.cfg, B.FRESH, Joined(trace))
    }

    /** Between passes. */
    ghost predicate InStep()
      reads this`trace, this`log, this`clock, breaker
    {
      TraceOk() && Agree(breaker.cfg, log, trace)
    }

    /** During a pass, which is not in the log yet; `told` is what the breaker has gone through since it began. */
    ghost predicate Passing(told: seq<B.Event>)
      reads this`trace, this`log, this`clock, breaker
    {
      TraceOk() && |trace| == |log| + 1 && trace[|log|] == told && Agree(breaker.cfg, log, trace[..|log|])
    }

    /** The breaker as this pass found it. */
    ghost function Before(): B.Breaker
      requires |trace| == |log| + 1
      reads this`trace, this`log
    {
      B.After(B.Python, breaker.cfg, B.FRESH, Joined(trace[..|log|]))
    }

    /** The breaker has answered the call of a pass. */
    ghost predicate Asked(admitted: bool)
      reads this`trace, this`log, this`clock, breaker
    {
      && |trace| == |log| + 1 && |trace[|log|]| == 1 && Passing(trace[|log|]) && trace[|log|][0].Admit?
      && Pending() == admitted && B.LetsThrough(B.Next(B.Python, breaker.cfg, Before(), trace[|log|][0])) == admitted
    }

    constructor (core: PaymentIntentService, breaker: B.PythonBreaker, maxRetries: int, base: real, cap: real,
                 exposesPatch: bool)
      requires Consistent(core.payments.Db()) && breaker.Value() == B.FRESH
      ensures Valid() && this.core == core && this.breaker == breaker && log == [] && slept == 0.0
      ensures this.maxRetries == maxRetries && backoffBase == base && backoffCap == cap
      ensures this.exposesPatch == exposesPatch
    {
      this.core, this.breaker, this.maxRetries, this.exposesPatch := core, breaker, maxRetries, exposesPatch;
      backoffBase, backoffCap := base, cap;
      hasToken, clock := false, 0;
      trace, log, slept := [], [], 0.0;
    }

    /**
      An outage may begin and end anywhere: over any stretch of passes that all failed, whatever came before and comes
      after, and in however many cycles, no more requests went out than the breaker's bound.
     */
    lemma OutageLimitsSends(k: nat, m: nat)
      requires Valid() && k <= m <= |log| && AllFailing(log[k..m]) && breaker.cfg.reset > 0
      ensures SentCount(log[k..m]) <= OutageCap(k, m)
    {
      var before, part, after := Joined(trace[..k]), Joined(trace[k..m]), Joined(trace[m..]);
      JoinedSplits(trace[..k], trace[k..m]);
      JoinedSplits(trace[..m], trace[m..]);
      assert trace[..k] + trace[k..m] == trace[..m] && trace[..m] + trace[m..] == trace;
      B.LaterIsInOrder(0, before + part, after);
      B.LaterIsInOrder(0, before, part);
      B.FailuresStay(B.Python, breaker.cfg, B.FRESH, before);
      FailingStretch(breaker.cfg, log, trace, k, m);
      B.OutageBound(B.Python, breaker.cfg, B.After(B.Python, breaker.cfg, B.FRESH, before), B.Clock(0, before), part);
    }

    /** The threshold, and one more for each whole reset period since the breaker was first seen open in the stretch. */
    ghost function OutageCap(k: nat, m: nat): int
      requires k <= m <= |trace| && breaker.cfg.reset > 0
      reads this`trace
    {
      var before := Joined(trace[..k]);
      B.OutageCap(B.Python, breaker.cfg, B.After(B.Python, breaker.cfg, B.FRESH, before), B.Clock(0, before),
                  Joined(trace[k..m]))
    }

    /** Every stretch of failing passes so far has stayed within the breaker's bound. */
    ghost predicate OutagesAreBounded()
      reads this, breaker
    {
      && |log| == |trace|
      && (breaker.cfg.reset > 0 ==>
            forall k, m | 0 <= k <= m <= |log| && AllFailing(log[k..m]) :: SentCount(log[k..m]) <= OutageCap(k, m))
    }

    lemma OutagesStayBounded()
      requires Valid()
      ensures OutagesAreBounded()
    {
      forall k, m | 0 <= k <= m <= |log| && AllFailing(log[k..m]) && breaker.cfg.reset > 0
        ensures SentCount(log[k..m]) <= OutageCap(k, m)
      {
        OutageLimitsSends(k, m);
      }
    }

    method Tick() returns (now: Time)
      modifies this`clock
      ensures now == clock >= old(clock)
    {
      var d: nat :| true;
      clock := clock + d;
      return clock;
    }

    method Sleep(pause: real)
      requires InStep()
      modifies this`clock, this`slept
      ensures InStep() && slept == old(slept) + pause && clock >= old(clock)
    {
      var now := Tick();
      slept := slept + pause;
    }

    // ---- The breaker, with its trace kept ----

    /** Notes one more event of the pass that is going on. */
    ghost method Tell(e: B.Event)
      requires trace != []
      requires breaker.Value()
               == B.Next(B.Python, breaker.cfg, B.After(B.Python, breaker.cfg, B.FRESH, Joined(trace)), e)
      requires B.InOrder(0, Joined(trace)) && 0 <= B.Clock(0, Joined(trace)) <= e.at && B.EventTime(e) <= clock
      requires B.Disciplined(B.Python, breaker.cfg, B.FRESH, Joined(trace)) && (e.Fail? ==> e.at <= e.trippedAt)
      requires e.Succeed? || e.Fail? ==> Pending()
      modifies this`trace
      ensures TraceOk() && |trace| == |old(trace)| && trace[..|trace| - 1] == old(trace)[..|trace| - 1]
      ensures trace[|trace| - 1] == old(trace)[|trace| - 1] + [e]
    {
      hide B.After;
      hide B.Disciplined;
      hide B.Pending;
      hide B.InOrder;
      hide Joined;
      var n := |trace| - 1;
      var more := trace[..n] + [trace[n] + [e]];
      LastGrows(trace, e);
      B.OneMoreEvent(B.Python, breaker.cfg, B.FRESH, Joined(trace), e);
      B.InOrderGrows(0, Joined(trace), e);
      trace := more;
    }

    /** Reading the state for the gauge; it may open the way for a probe. */
    method Gauge(ghost told: seq<B.Event>) returns (ghost e: B.Event)
      requires Passing(told)
      modifies this`clock, this`trace, breaker
      ensures Passing(told + [e]) && e.Observe? && Before() == old(Before()) && clock >= old(clock)
    {
      var now := Tick();
      e := B.Observe(now);
      var s := breaker.ReadState(now);
      Tell(e);
    }

    method Ask() returns (rejected: bool)
      requires InStep()
      modifies this`clock, this`trace, breaker
      ensures Asked(!rejected) && clock >= old(clock)
    {
      var now := Tick();
      ghost var before := trace;
      assert (before + [[]])[..|before|] == before;
      assert Joined(before + [[]]) == Joined(before);
      trace := before + [[]];
      B.OneMoreEvent(B.Python, breaker.cfg, B.FRESH, Joined(trace), B.Admit(now));
      rejected := breaker.BeforeCall(now);
      Tell(B.Admit(now));
      assert trace[..|log|] == before;
      assert Joined(trace) == Joined(before) + [B.Admit(now)];
    }

    method NoteSuccess(ghost told: seq<B.Event>) returns (ghost e: B.Event)
      requires Passing(told) && Pending()
      modifies this`clock, this`trace, breaker
      ensures Passing(told + [e]) && e.Succeed? && Before() == old(Before()) && clock >= old(clock)
    {
      var now := Tick();
      e := B.Succeed(now);
      breaker.OnSuccess(now);
      Tell(e);
    }

    method NoteFailure(ghost told: seq<B.Event>) returns (ghost e: B.Event)
      requires Passing(told) && Pending()
      modifies this`clock, this`trace, breaker
      ensures Passing(told + [e]) && e.Fail? && Before() == old(Before()) && clock >= old(clock)
    {
      var now := Tick();
      var tripNow := Tick();
      e := B.Fail(now, tripNow);
      breaker.OnFailure(now, tripNow);
      Tell(e);
    }

    // ---- Transport ----

    /**
      One request on the wire. It may never arrive, its reply may be lost after the core acted, a gateway may
      answer in the core's place, and everyone else keeps working meanwhile.
     */
    method Send(op: Operation) returns (reply: Option<Response>, ghost seen: Db)
      requires Consistent(core.payments.Db())
      modifies core.payments
      ensures Consistent(core.payments.Db()) && Evolves(old(core.payments.Db()), core.payments.Db())
      ensures reply.Some? && reply.value.code != 401 && !Retryable(reply.value.code) ==>
                Answers(old(core.payments.Db()), seen, core.payments.Db(), op, reply.value, exposesPatch)
    {
      ghost var start := core.payments.Db();
      var fate: nat :| true;
      if fate == 0 {
        return None, start;
      }
      if fate == 1 {
        var sample: int := *;
        return Some(Response(if Retryable(sample) then sample else 401, [])), start;
      }
      if op.ListOpen? {
        reply, seen := ServeList(op);
      } else {
        reply, seen := ServePatch(op);
      }
      if fate == 2 {
        reply := None;
      }
    }

    method ServeList(op: Operation) returns (reply: Option<Response>, ghost seen: Db)
      requires Consistent(core.payments.Db()) && op.ListOpen?
      modifies core.payments
      ensures Consistent(core.payments.Db()) && Evolves(old(core.payments.Db()), core.payments.Db())
      ensures reply.Some? && Answers(old(core.payments.Db()), seen, core.payments.Db(), op, reply.value, exposesPatch)
    {
      var items;
      items, seen := core.List(op.status, 1, op.limit);
      assert Evolves(seen, core.payments.Db());
      reply := Some(Response(200, Views(items)));
    }

    method ServePatch(op: Operation) returns (reply: Option<Response>, ghost seen: Db)
      requires Consistent(core.payments.Db()) && op.Expire?
      modifies core.payments
      ensures Consistent(core.payments.Db()) && Evolves(old(core.payments.Db()), core.payments.Db())
      ensures reply.Some? && (!Retryable(reply.value.code) ==>
                Answers(old(core.payments.Db()), seen, core.payments.Db(), op, reply.value, exposesPatch))
    {
      ghost var start := core.payments.Db();
      seen := start;
      if !exposesPatch {
        var unrouted: bool := *;
        assert Evolves(start, start);
        return Some(Response(if unrouted then 404 else 405, [])), seen;
      }
      var r;
      ghost var t: Trail;
      var answering: Answering := *;
      r, t := core.UpdateStatus(op.id, Expired, op.reason, WORKER, answering);
      seen := start;
      assert Evolves(start, start);
      PatchAnswers(start, core.payments.Db(), op.id, op.reason, t, r);
      reply := Some(Response(if r.Ok? then 200 else StatusCode(r.error), []));
    }

    /** Logging in is a call of its own; when it fails, the request is not sent. */
    method Authenticate() returns (ok: bool)
      modifies this`hasToken
      ensures ok == hasToken && (old(hasToken) ==> hasToken)
    {
      if !hasToken {
        var accepted: bool := *;
        hasToken := accepted;
      }
      return hasToken;
    }

    /** One pass of the retry loop, up to the pause. */
    method Attempt(op: Operation) returns (o: PassOutcome, ghost seen: Db, ghost x: Exchange)
      requires Valid()
      modifies this`clock, this`trace, this`log, this`hasToken, breaker, core.payments
      ensures Valid() && Evolves(old(core.payments.Db()), core.payments.Db()) && clock >= old(clock)
      ensures log == old(log) + [x] && x.op == op && o == OutcomeOfPass(x)
      ensures o.Final? ==>
                Answers(old(core.payments.Db()), seen, core.payments.Db(), op, o.response, exposesPatch)
    {
      seen := core.payments.Db();
      assert Evolves(seen, seen);
      hide InStep;
      hide Asked;
      hide Evolves;
      hide Consistent;
      hide Answers;
      var rejected := Ask();
      if rejected {
        x := TurnedAway(op);
        Reject(x);
        return CircuitOpen, seen, x;
      }
      x := NotSent(op);
      var reply: Option<Response> := None;
      var authenticated := Authenticate();
      if authenticated {
        reply, seen := Send(op);
        x := Sent(op, reply);
      }
      o := Conclude(reply, x);
    }

    /** Enters a pass whose story is complete. */
    ghost method Book(x: Exchange, told: seq<B.Event>)
      requires Passing(told) && PassTold(breaker.cfg, Before(), x, told)
      modifies this`log
      ensures InStep() && log == old(log) + [x]
    {
      AgreeMore(breaker.cfg, log, trace[..|log|], x, told);
      assert trace[..|log|] + [told] == trace;
      log := log + [x];
    }

    /** A call that the breaker turned away: only the gauge is read. */
    method Reject(ghost x: Exchange)
      requires Asked(false) && x.TurnedAway?
      modifies this`clock, this`trace, this`log, breaker
      ensures InStep() && log == old(log) + [x] && clock >= old(clock)
    {
      ghost var told := trace[|log|];
      ghost var e := Gauge(told);
      Book(x, told + [e]);
    }

    /** What the reply means for the loop and for the breaker; then the gauge is read. */
    method Conclude(reply: Option<Response>, ghost x: Exchange) returns (o: PassOutcome)
      requires Asked(true) && !x.TurnedAway? && OutcomeOfPass(x) == OutcomeOf(reply)
      modifies this`clock, this`trace, this`log, this`hasToken, breaker
      ensures InStep() && clock >= old(clock) && log == old(log) + [x] && o == OutcomeOf(reply)
      ensures if o == TryAgain(true) then !hasToken else hasToken == old(hasToken)
    {
      ghost var told := trace[|log|];
      ghost var e;
      o := TryAgain(false);
      if reply.None? || Retryable(reply.value.code) {
        e := NoteFailure(told);
        told := told + [e];
      } else if reply.value.code == 401 {
        hasToken := false;
        o := TryAgain(true);
      } else {
        e := NoteSuccess(told);
        told := told + [e];
        o := Final(reply.value);
      }
      e := Gauge(told);
      Book(x, told + [e]);
    }

    /**
      Sends at most `maxRetries + 1` requests; returns only what is neither a 401 nor retryable, which is the reply
      to the last of them and the core's own; gives up only when the breaker turns it away or every pass has failed;
      sleeps once between two passes, and in total never longer than either backoff bound.
     */
    method Request(op: Operation)
      returns (r: Result<Response, ClientError>, ghost seen: Db, ghost course: seq<Exchange>)
      requires Valid() && backoffBase >= 0.0 && backoffCap >= 0.0
      modifies this`clock, this`trace, this`log, this`slept, this`hasToken, breaker, core.payments
      ensures Valid() && clock >= old(clock) && log == old(log) + course
      ensures Stopped(old(core.payments.Db()), seen, core.payments.Db(), old(log), course, op, r, slept - old(slept),
                      maxRetries, backoffBase, backoffCap, exposesPatch)
    {
      ghost var start, sleptBefore := core.payments.Db(), slept;
      seen, course := start, [];
      var attempt: nat := 0;
      NotYetTried(start, log, op, maxRetries, backoffBase, backoffCap);
      hide Evolves;
      hide InStep;
      hide Going;
      hide Stopped;
      while attempt < maxRetries + 1
        invariant Valid() && clock >= old(clock) && log == old(log) + course
        invariant Going(start, core.payments.Db(), course, op, attempt, slept - sleptBefore, maxRetries, backoffBase,
                        backoffCap)
      {
        var answer;
        answer, seen, course := Turn(op, attempt, start, sleptBefore, old(log), course);
        if answer.Some? {
          return answer.value, seen, course;
        }
        attempt := attempt + 1;
      }
      RunsOut(start, core.payments.Db(), old(log), course, op, attempt, slept - sleptBefore, maxRetries, backoffBase,
              backoffCap, exposesPatch);
      r := Err(CoreUnavailable);
    }

    /** One turn of that loop: a pass, and then the end of the loop or, except after the last pass, a pause. */
    method Turn(op: Operation, attempt: nat, ghost start: Db, ghost sleptBefore: real, ghost before: seq<Exchange>,
                ghost course: seq<Exchange>)
      returns (answer: Option<Result<Response, ClientError>>, ghost seen: Db, ghost more: seq<Exchange>)
      requires Valid() && backoffBase >= 0.0 && backoffCap >= 0.0 && attempt < maxRetries + 1 && log == before + course
      requires Going(start, core.payments.Db(), course, op, attempt, slept - sleptBefore, maxRetries, backoffBase,
                     backoffCap)
      modifies this`clock, this`trace, this`log, this`slept, this`hasToken, breaker, core.payments
      ensures Valid() && clock >= old(clock) && log == before + more
      ensures answer.Some? ==>
                Stopped(start, seen, core.payments.Db(), before, more, op, answer.value, slept - sleptBefore,
                        maxRetries,
                        backoffBase, backoffCap, exposesPatch)
      ensures answer.None? ==>
                Going(start, core.payments.Db(), more, op, attempt + 1, slept - sleptBefore, maxRetries, backoffBase,
                      backoffCap)
    {
      hide Evolves;
      hide InStep;
      hide Answers;
      hide Going;
      hide Stopped;
      ghost var mid := core.payments.Db();
      var o;
      ghost var x;
      o, seen, x := Attempt(op);
      more := course + [x];
      if !o.TryAgain? {
        var r := if o.Final? then Ok(o.response) else Err(CoreUnavailable);
        Stops(start, mid, seen, core.payments.Db(), before, course, x, op, r, attempt, slept - sleptBefore, maxRetries,
              backoffBase, backoffCap, exposesPatch);
        return Some(r), seen, more;
      }
      var pause: real := 0.0;
      if attempt < maxRetries {
        pause := Jitter(attempt);
        Sleep(pause);
      }
      GoesOn(start, mid, core.payments.Db(), course, x, op, attempt, slept - pause - sleptBefore, pause, maxRetries,
             backoffBase, backoffCap);
      answer := None;
    }

    method ListByStatus(status: Status, limit: int)
      returns (r: Result<seq<PaymentIntentView>, ClientError>, ghost seen: Db, ghost course: seq<Exchange>)
      requires Valid() && backoffBase >= 0.0 && backoffCap >= 0.0
      modifies this`clock, this`trace, this`log, this`slept, this`hasToken, breaker, core.payments
      ensures Valid() && Evolves(old(core.payments.Db()), core.payments.Db())
      ensures log == old(log) + course && Course(course, ListOpen(status, limit), maxRetries)
      ensures r == (match FinalOf(course) case Some(reply) => Ok(reply.views) case None => Err(CoreUnavailable))
      ensures r.Ok? ==> Evolves(old(core.payments.Db()), seen) && Evolves(seen, core.payments.Db())
                        && Consistent(seen) && ListAnswer(seen, ListOpen(status, limit), r.value)
    {
      var response;
      response, seen, course := Request(ListOpen(status, limit));
      r := if response.Ok? then Ok(response.value.views) else Err(response.error);
    }

    /**
      Success and "already there" both leave the intent EXPIRED, success with the worker's own history row; a
      rejection means another terminal status; a missing endpoint means that the core does not have it, or never
      had the intent. No answer means that the retry loop got none.
     */
    method ExpireIntent(id: Id, reason: string)
      returns (r: Result<ExpireOutcome, ClientError>, ghost course: seq<Exchange>)
      requires Valid() && backoffBase >= 0.0 && backoffCap >= 0.0
      modifies this`clock, this`trace, this`log, this`slept, this`hasToken, breaker, core.payments
      ensures Valid() && Evolves(old(core.payments.Db()), core.payments.Db())
      ensures log == old(log) + course && Course(course, Expire(id, reason), maxRetries) && r == ExpiryOf(course)
      ensures r.Ok? ==> HasStatus(core.payments.Db(), id, Expired)
      ensures r == Ok(ExpiredNow) ==> Signed(core.payments.Db(), id, reason)
      ensures r == Err(TransitionRejected) ==>
                && id in core.payments.rows && Terminal(core.payments.rows[id].status)
                && core.payments.rows[id].status != Expired
      ensures r == Err(StatusEndpointMissing) ==> !exposesPatch || id !in old(core.payments.rows)
    {
      var response;
      ghost var seen;
      response, seen, course := Request(Expire(id, reason));
      if response.Err? {
        return Err(response.error), course;
      }
      var code := response.value.code;
      if code == 404 || code == 405 {
        return Err(StatusEndpointMissing), course;
      }
      if code == 409 {
        return Ok(AlreadyExpired), course;
      }
      if code == 422 {
        return Err(TransitionRejected), course;
      }
      return Ok(ExpiredNow), course;
    }

    /** Full jitter: anything from nothing to the ceiling. */
    method Jitter(attempt: nat) returns (pause: real)
      requires backoffBase >= 0.0 && backoffCap >= 0.0
      ensures 0.0 <= pause <= BackoffCeiling(attempt, backoffBase, backoffCap)
    {
      var ceiling := BackoffCeiling(attempt, backoffBase, backoffCap);
      assert backoffBase * Pow2(attempt) as real >= 0.0;
      var drawn: real := *;
      pause := if 0.0 <= drawn <= ceiling then drawn else 0.0;
    }
  }

  // ---- The retry loop ----

  /** Before pass number `attempt`: all passes so far asked to try again, with a pause after each. */
  ghost predicate Going(start: Db, db: Db, course: seq<Exchange>, op: Operation, attempt: nat, slept: real,
                        maxRetries: int,
                        base: real, cap: real) {
    && Evolves(start, db) && AllRetried(course, op) && |course| == attempt <= Retries(maxRetries + 1)
    && SleptWithin(slept, if attempt <= maxRetries then attempt else Retries(maxRetries), base, cap)
  }

  /**
    How the loop ends. It ran its course and answers with the reply that ended it, which is the core's own, or with
    nothing; it sent no more than its passes, and slept once between two of them, within both bounds.
   */
  ghost predicate Stopped(start: Db, seen: Db, db: Db, before: seq<Exchange>, course: seq<Exchange>, op: Operation,
                          r: Result<Response, ClientError>, slept: real, maxRetries: int, base: real, cap: real,
                          exposesPatch: bool) {
    && Evolves(start, db) && Course(course, op, maxRetries)
    && r == (match FinalOf(course) case Some(reply) => Ok(reply) case None => Err(CoreUnavailable))
    && (r.Ok? ==>
          && r.value.code != 401 && !Retryable(r.value.code)
          && Answers(start, seen, db, op, r.value, exposesPatch))
    && SentCount(before + course) <= SentCount(before) + Retries(maxRetries + 1)
    && SleptWithin(slept, Retries(|course| - 1), base, cap) && SleptWithin(slept, Retries(maxRetries), base, cap)
  }

  lemma NotYetTried(db: Db, log: seq<Exchange>, op: Operation, maxRetries: int, base: real, cap: real)
    ensures Going(db, db, [], op, 0, 0.0, maxRetries, base, cap) && log + [] == log
  {
  }

  lemma GoesOn(start: Db, mid: Db, db: Db, course: seq<Exchange>, x: Exchange, op: Operation, attempt: nat, slept: real,
               pause: real, maxRetries: int, base: real, cap: real)
    requires Going(start, mid, course, op, attempt, slept, maxRetries, base, cap) && Evolves(mid, db)
    requires attempt < maxRetries + 1 && x.op == op && OutcomeOfPass(x).TryAgain?
    requires if attempt < maxRetries then 0.0 <= pause <= BackoffCeiling(attempt, base, cap) else pause == 0.0
    ensures Going(start, db, course + [x], op, attempt + 1, slept + pause, maxRetries, base, cap)
  {
    EvolvesTransitive(start, mid, db);
    OneMorePass(course, x, op, maxRetries);
    if attempt < maxRetries {
      BackoffAddsUp(attempt, base, cap, slept, pause);
    }
  }

  lemma Stops(start: Db, mid: Db, seen: Db, db: Db, before: seq<Exchange>, course: seq<Exchange>, x: Exchange,
              op: Operation,
              r: Result<Response, ClientError>, attempt: nat, slept: real, maxRetries: int, base: real, cap: real,
              exposesPatch: bool)
    requires Going(start, mid, course, op, attempt, slept, maxRetries, base, cap) && Evolves(mid, db)
    requires attempt < maxRetries + 1 && x.op == op && !OutcomeOfPass(x).TryAgain? && base >= 0.0 && cap >= 0.0
    requires r == (if OutcomeOfPass(x).Final? then Ok(OutcomeOfPass(x).response) else Err(CoreUnavailable))
    requires r.Ok? ==> Answers(mid, seen, db, op, r.value, exposesPatch)
    ensures Stopped(start, seen, db, before, course + [x], op, r, slept, maxRetries, base, cap, exposesPatch)
  {
    EvolvesTransitive(start, mid, db);
    OneMorePass(course, x, op, maxRetries);
    CourseSends(before, course + [x], op, maxRetries);
    SleepMore(attempt, Retries(maxRetries), base, cap, slept);
    if r.Ok? {
      AnswersFrom(start, mid, seen, db, op, r.value, exposesPatch);
    }
  }

  lemma RunsOut(start: Db, db: Db, before: seq<Exchange>, course: seq<Exchange>, op: Operation, attempt: nat,
                slept: real,
                maxRetries: int, base: real, cap: real, exposesPatch: bool)
    requires Going(start, db, course, op, attempt, slept, maxRetries, base, cap) && attempt >= maxRetries + 1
    ensures forall seen :: Stopped(start, seen, db, before, course, op, Err(CoreUnavailable), slept, maxRetries, base,
                                   cap,
                                   exposesPatch)
  {
    OutOfPasses(course, op, maxRetries);
    CourseSends(before, course, op, maxRetries);
  }

  /** Stopping early leaves the bounds of the full loop in place. */
  lemma SleepMore(attempt: nat, n: nat, base: real, cap: real, slept: real)
    requires attempt <= n && base >= 0.0 && cap >= 0.0
    requires SleptWithin(slept, attempt, base, cap)
    ensures SleptWithin(slept, n, base, cap)
  {
    Pow2Grows(attempt, n);
    RealTimes(attempt as real, n as real, cap);
    RealTimes((Pow2(attempt) - 1) as real, (Pow2(n) - 1) as real, base);
  }

  lemma RealTimes(a: real, b: real, c: real)
    requires a <= b && c >= 0.0
    ensures a * c <= b * c
  {
  }

  lemma AnswersFrom(start: Db, mid: Db, seen: Db, end: Db, op: Operation, r: Response, exposesPatch: bool)
    requires Evolves(start, mid) && Answers(mid, seen, end, op, r, exposesPatch)
    ensures Answers(start, seen, end, op, r, exposesPatch)
  {
    EvolvesTransitive(start, mid, seen);
  }
}
