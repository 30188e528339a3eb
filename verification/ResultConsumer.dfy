/**
  core-api's consumer of risk verdicts: it commits a message as it reads it, and reconnects for as long as it
  lives.
 */
module ResultConsumer {
  import opened Wrappers
  import opened Domain
  import opened Schema
  import opened UseCases
  import opened Service
  import opened Backoff

  // ---- Reconnecting ----

  const NANOS_PER_SECOND := 1_000_000_000
  const RECONNECT_BACKOFF_BASE := NANOS_PER_SECOND
  const RECONNECT_BACKOFF_CAP := 30 * NANOS_PER_SECOND
  const MAX_INT64 := 0x7fff_ffff_ffff_ffff
  const TWO_64 := 0x1_0000_0000_0000_0000

  predicate IsInt64(n: int) {
    -MAX_INT64 - 1 <= n <= MAX_INT64
  }

  /** The int64 that the low 64 bits of `n` spell. */
  function Wrap64(n: int): (r: int)
    ensures IsInt64(r) && (IsInt64(n) ==> r == n)
  {
    var low := n % TWO_64;
    if low > MAX_INT64 then low - TWO_64 else low
  }

  /** The longest pause before reconnection `attempt`, in int64 arithmetic. */
  function Ceiling(attempt: nat, base: int, cap: int): int {
    var ceiling := Wrap64(base * Pow2(if attempt > 20 then 20 else attempt));
    if ceiling <= 0 || ceiling > cap then cap else ceiling
  }

  /** Neither the clamp at 20 nor the width of an int64 shows: the pause is the textbook one for every attempt. */
  lemma CeilingIsExact(attempt: nat)
    ensures var grown := RECONNECT_BACKOFF_BASE * Pow2(attempt);
            Ceiling(attempt, RECONNECT_BACKOFF_BASE, RECONNECT_BACKOFF_CAP)
            == if grown < RECONNECT_BACKOFF_CAP then grown else RECONNECT_BACKOFF_CAP
  {
    assert Pow2(5) == 32;
    Pow2Adds(5, 5);
    Pow2Adds(10, 10);
    var shift := if attempt > 20 then 20 else attempt;
    assert Wrap64(RECONNECT_BACKOFF_BASE * Pow2(shift)) == RECONNECT_BACKOFF_BASE * Pow2(shift) by {
      Pow2Grows(shift, 20);
    }
    hide Wrap64;
    if attempt > 4 {
      Pow2Grows(5, shift);
      Pow2Grows(5, attempt);
    }
  }

  /** Full jitter. */
  method BackoffWithJitter(attempt: nat, base: int, cap: int) returns (pause: int)
    requires 0 <= cap < MAX_INT64
    ensures 0 <= pause <= Ceiling(attempt, base, cap) <= cap
  {
    var shift := attempt;
    if shift > 20 {
      shift := 20;
    }
    var ceiling := Wrap64(base * Pow2(shift));
    if ceiling <= 0 || ceiling > cap {
      ceiling := cap;
    }
    var drawn: nat :| drawn < ceiling + 1;
    return drawn;
  }

  // ---- Consuming ----

  /** A message of risk.evaluation.completed. */
  datatype Message = Malformed | Completed(verdict: Evaluation)

  /**
    What happens around one read: does it reach the broker and commit, does its reply arrive, does the process live to
    use it, and does the database answer the verdict's read and take its transaction.
   */
  datatype Turn = Turn(reached: bool, replied: bool, alive: bool, database: Answering)

  predicate ReadFails(t: Turn) {
    !t.reached || !t.replied
  }

  predicate Usable(t: Turn) {
    t.reached && t.replied && t.alive
  }

  /** The reads that committed, one for each message below the offset. */
  function Committed(turns: seq<Turn>): seq<Turn> {
    if turns == [] then []
    else
      var last := turns[|turns| - 1];
      Committed(turns[..|turns| - 1]) + if last.reached then [last] else []
  }

  function FailedReads(turns: seq<Turn>): nat {
    if turns == [] then 0
    else FailedReads(turns[..|turns| - 1]) + if ReadFails(turns[|turns| - 1]) then 1 else 0
  }

  /** What became of one message; `from` and `to` are the tables around an application. */
  datatype Fate =
    | Lost
    | Skipped
    | Applied(from: Db, to: Db, trail: Trail, answer: Result<Intent, AppError>)

  /** Committed without a usable reply, a message is lost; malformed it is skipped; else it is applied, once. */
  ghost predicate Handled(m: Message, t: Turn, f: Fate) {
    && t.reached
    && if !Usable(t) then f.Lost?
       else match m
            case Malformed => f.Skipped?
            case Completed(v) =>
              && f.Applied? && f.trail.answering == t.database && Evolves(f.from, f.to)
              && Follows(f.trail, ReadForApply(f.trail.seen, v, REASON_RISK_EVALUATED, f.trail.readAt), f.from, f.to,
                         f.answer)
  }

  /** The messages in topic order, each with its turn and its fate, one application after the other. */
  ghost predicate Drained(start: Db, messages: seq<Message>, turns: seq<Turn>, fates: seq<Fate>, end: Db)
    decreases |messages|
  {
    && |messages| == |turns| == |fates|
    && if messages == [] then Evolves(start, end)
       else
         var n := |messages| - 1;
         && Handled(messages[n], turns[n], fates[n])
         && if fates[n].Applied? then
              && Drained(start, messages[..n], turns[..n], fates[..n], fates[n].from)
              && Evolves(fates[n].to, end)
            else Drained(start, messages[..n], turns[..n], fates[..n], end)
  }

  lemma {:induction false} DrainedWaits(start: Db, messages: seq<Message>, turns: seq<Turn>, fates: seq<Fate>, mid: Db,
                                        end: Db)
    requires Drained(start, messages, turns, fates, mid) && Evolves(mid, end)
    ensures Drained(start, messages, turns, fates, end)
    decreases |messages|
  {
    if messages == [] {
      EvolvesTransitive(start, mid, end);
    } else {
      var n := |messages| - 1;
      if fates[n].Applied? {
        EvolvesTransitive(fates[n].to, mid, end);
      } else {
        DrainedWaits(start, messages[..n], turns[..n], fates[..n], mid, end);
      }
    }
  }

  function Losses(fates: seq<Fate>): nat {
    if fates == [] then 0 else Losses(fates[..|fates| - 1]) + if fates[|fates| - 1].Lost? then 1 else 0
  }

  // ---- Which verdicts reach the tables ----

  lemma {:induction false} EachIsHandled(start: Db, messages: seq<Message>, turns: seq<Turn>, fates: seq<Fate>, end: Db,
                                         k: nat)
    requires Drained(start, messages, turns, fates, end) && k < |messages|
    ensures Handled(messages[k], turns[k], fates[k])
    decreases |messages|
  {
    var n := |messages| - 1;
    if k < n {
      EachIsHandled(start, messages[..n], turns[..n], fates[..n], if fates[n].Applied? then fates[n].from else end, k);
    }
  }

  /** What the read and the domain made of an applied verdict. */
  ghost function Judged(v: Evaluation, f: Fate): Result<Write, AppError>
    requires f.Applied?
  {
    ReadForApply(f.trail.seen, v, REASON_RISK_EVALUATED, f.trail.readAt)
  }

  /** The tables as the application last found them. */
  ghost function Found(v: Evaluation, f: Fate): Db
    requires f.Applied?
  {
    if f.trail.answering.readable && Judged(v, f).Ok? then f.trail.before else f.trail.seen
  }

  /** The verdict is in its row, and the history has grown by a row of its own. */
  ghost predicate StoredBy(m: Message, f: Fate) {
    && m.Completed? && f.Applied?
    && m.verdict.paymentIntentId in f.to.rows && f.to.rows[m.verdict.paymentIntentId].risk == Verdict(m.verdict)
    && |f.to.history| > |Found(m.verdict, f).history|
  }

  /**
    A message below the committed offset ends up in the tables exactly when it is a verdict, its reply arrived, the
    process lived to use it, the database answered the read and took the transaction, and the domain and the schema
    accepted it. In every other case it changes nothing, and it is never read again.
   */
  lemma StoredIff(start: Db, messages: seq<Message>, turns: seq<Turn>, fates: seq<Fate>, end: Db, k: nat)
    requires Drained(start, messages, turns, fates, end) && k < |messages|
    ensures fates[k].Applied? <==> messages[k].Completed? && turns[k].replied && turns[k].alive
    ensures StoredBy(messages[k], fates[k]) <==>
            && messages[k].Completed? && turns[k].replied && turns[k].alive
            && turns[k].database.readable && turns[k].database.writable
            && Judged(messages[k].verdict, fates[k]).Ok?
            && Execute(fates[k].trail.before,
                       UpdateScript(Judged(messages[k].verdict, fates[k]).value, fates[k].trail.writtenAt)).Ok?
    ensures fates[k].Applied? && !StoredBy(messages[k], fates[k]) ==>
              fates[k].to == Found(messages[k].verdict, fates[k])
  {
    EachIsHandled(start, messages, turns, fates, end, k);
    hide IsUuid;
    hide Drained;
    hide Evolves;
    hide Execute;
    var f := fates[k];
    if f.Applied? && f.trail.answering.readable && Judged(messages[k].verdict, f).Ok? && f.trail.answering.writable {
      var w := Judged(messages[k].verdict, f).value;
      UpdateEffect(f.trail.before, w, f.trail.writtenAt);
      assert w.pi.id == f.trail.seen.rows[messages[k].verdict.paymentIntentId].id;
      assert w.pi.risk == Verdict(messages[k].verdict);
    }
  }

  /** A database outage loses every verdict read meanwhile, on connections that never fail. */
  lemma OutageLosesVerdicts(db: Db, v: Evaluation, n: nat)
    requires Consistent(db)
    ensures var down := Turn(true, true, true, Answering(false, false));
            var messages, turns := seq(n, _ => Completed(v)), seq(n, _ => down);
            exists fates ::
              && Drained(db, messages, turns, fates, db)
              && Losses(fates) == 0 && FailedReads(turns) == 0 && Committed(turns) == turns
              && forall k | 0 <= k < n :: !StoredBy(messages[k], fates[k])
  {
    var down := Turn(true, true, true, Answering(false, false));
    var messages, turns: seq<Turn> := seq(n, _ => Completed(v)), seq(n, _ => down);
    var f := Applied(db, db, Trail(db, 0, db, 0, false, Answering(false, false)), Err(Internal));
    var fates: seq<Fate> := seq(n, _ => f);
    DroppedInARow(db, v, f, n);
    forall k | 0 <= k < n
      ensures !StoredBy(messages[k], fates[k])
    {
      assert Found(v, f) == db;
    }
  }

  lemma {:induction false} DroppedInARow(db: Db, v: Evaluation, f: Fate, n: nat)
    requires Consistent(db)
    requires f == Applied(db, db, Trail(db, 0, db, 0, false, Answering(false, false)), Err(Internal))
    ensures var down := Turn(true, true, true, Answering(false, false));
            var messages, turns, fates := seq(n, _ => Completed(v)), seq(n, _ => down), seq(n, _ => f);
            && Drained(db, messages, turns, fates, db)
            && Losses(fates) == 0 && FailedReads(turns) == 0 && Committed(turns) == turns
  {
    assert Evolves(db, db);
    if n > 0 {
      DroppedInARow(db, v, f, n - 1);
      var down := Turn(true, true, true, Answering(false, false));
      var messages, turns, fates := seq(n, _ => Completed(v)), seq(n, _ => down), seq(n, _ => f);
      assert messages[..n - 1] == seq(n - 1, _ => Completed(v));
      assert turns[..n - 1] == seq(n - 1, _ => down) && fates[..n - 1] == seq(n - 1, _ => f);
      assert turns == turns[..n - 1] + [down];
    }
  }

  /** One reply that does not arrive, or one process that dies on it, loses one verdict. */
  lemma LostReplyLosesAVerdict(db: Db, v: Evaluation, t: Turn)
    requires t.reached && !Usable(t)
    ensures Drained(db, [Completed(v)], [t], [Lost], db) && !StoredBy(Completed(v), Lost)
  {
    assert [Completed(v)][..0] == [] && [t][..0] == [] && [Lost][..0] == [];
    assert Evolves(db, db);
    assert Drained(db, [], [], [], db);
  }

  /** The history has a row of risk-service's for this status. */
  ghost predicate Recorded(db: Db, id: Id, status: Status) {
    exists j :: 0 <= j < |db.history| && IsVerdictRow(db.history[j], id, status)
  }

  predicate IsVerdictRow(h: HistoryRow, id: Id, status: Status) {
    h.intentId == id && h.newStatus == status && h.changedBy == RISK_SERVICE
  }

  /** The intent took `status`, by a row of risk-service's, and may have moved on from there. */
  ghost predicate Took(db: Db, id: Id, status: Status) {
    id in db.rows && Reaches(status, db.rows[id].status) && Recorded(db, id, status)
  }

  lemma TookStays(a: Db, b: Db, id: Id, status: Status)
    requires Took(a, id, status) && Evolves(a, b)
    ensures Took(b, id, status)
  {
    ReachesTransitive(status, a.rows[id].status, b.rows[id].status);
    var j :| 0 <= j < |a.history| && IsVerdictRow(a.history[j], id, status);
    assert b.history[j] == a.history[j];
  }

  lemma AppliedTakes(v: Evaluation, t: Trail, from: Db, to: Db, r: Result<Intent, AppError>)
    requires Follows(t, ReadForApply(t.seen, v, REASON_RISK_EVALUATED, t.readAt), from, to, r) && r.Ok?
    ensures v.paymentIntentId in t.seen.rows
    ensures r.value.status == Target(v.decision, t.seen.rows[v.paymentIntentId].status)
    ensures Took(to, v.paymentIntentId, r.value.status) && to.rows[v.paymentIntentId].risk == Verdict(v)
  {
    var w := ReadForApply(t.seen, v, REASON_RISK_EVALUATED, t.readAt).value;
    UpdateEffect(t.before, w, t.writtenAt);
    assert w.pi.id == t.seen.rows[v.paymentIntentId].id == v.paymentIntentId;
    assert IsVerdictRow(to.history[|to.history| - 1], v.paymentIntentId, w.pi.status);
  }

  /** A verdict applied with success leaves a trace that nothing after it removes. */
  lemma {:induction false} AppliedVerdictLasts(start: Db, messages: seq<Message>, turns: seq<Turn>, fates: seq<Fate>,
                                               end: Db, k: nat)
    requires Drained(start, messages, turns, fates, end) && k < |messages| && fates[k].Applied? && fates[k].answer.Ok?
    ensures messages[k].Completed? && Took(end, messages[k].verdict.paymentIntentId, fates[k].answer.value.status)
    decreases |messages|
  {
    hide Took;
    var n := |messages| - 1;
    if k == n {
      var f := fates[k];
      AppliedTakes(messages[k].verdict, f.trail, f.from, f.to, f.answer);
      TookStays(f.to, end, messages[k].verdict.paymentIntentId, f.answer.value.status);
    } else if fates[n].Applied? {
      AppliedVerdictLasts(start, messages[..n], turns[..n], fates[..n], fates[n].from, k);
      EvolvesTransitive(fates[n].from, fates[n].to, end);
      TookStays(fates[n].from, end, messages[k].verdict.paymentIntentId, fates[k].answer.value.status);
    } else {
      AppliedVerdictLasts(start, messages[..n], turns[..n], fates[..n], end, k);
    }
  }

  /** The completed topic and the offset that the consumer's group has committed. */
  class CompletedTopic {
    var log: seq<Message>
    var offset: nat
    var readers: nat      // connections opened so far
    var failedReads: nat  // reads that ended in an error

    ghost predicate Valid()
      reads this
    {
      offset <= |log|
    }

    constructor ()
      ensures Valid() && log == [] && offset == 0 && readers == 0 && failedReads == 0
    {
      log, offset, readers, failedReads := [], 0, 0, 0;
    }

    method OpenReader()
      modifies this`readers
      ensures readers == old(readers) + 1
    {
      readers := readers + 1;
    }

    /** Waits for a message and commits it; the reply may still be lost, and then its message is gone. */
    method ReadMessage(turn: Turn) returns (m: Option<Message>)
      requires Valid()
      modifies this`log, this`offset, this`failedReads
      ensures Valid() && old(log) <= log && offset == old(offset) + if turn.reached then 1 else 0
      ensures failedReads == old(failedReads) + if ReadFails(turn) then 1 else 0
      ensures m == if ReadFails(turn) then None else Some(log[old(offset)])
    {
      var more: seq<Message> := *;
      log := log + more;
      if turn.reached {
        if offset == |log| {
          var next: Message := *;
          log := log + [next];
        }
        offset := offset + 1;
        if turn.replied {
          return Some(log[offset - 1]);
        }
      }
      failedReads := failedReads + 1;
      return None;
    }
  }

  /** Why the inner loop ended: the read failed, the process died, or it was cancelled. */
  datatype Ending = Broken | Died | Stopped

  class RiskResultConsumer {
    const topic: CompletedTopic
    const service: PaymentIntentService

    constructor (topic: CompletedTopic, service: PaymentIntentService)
      modifies topic`readers
      ensures this.topic == topic && this.service == service && topic.readers == old(topic.readers) + 1
    {
      this.topic, this.service := topic, service;
      new;
      topic.OpenReader();
    }

    /** Errors of the use case are logged and the loop goes on. */
    method HandleMessage(m: Message, turn: Turn) returns (ghost f: Fate)
      requires Consistent(service.payments.Db()) && Usable(turn)
      modifies service.payments
      ensures Consistent(service.payments.Db()) && Handled(m, turn, f)
      ensures if f.Applied? then f.from == old(service.payments.Db()) && f.to == service.payments.Db()
              else service.payments.Db() == old(service.payments.Db())
    {
      hide IsUuid;
      hide ReadForApply;
      match m {
        case Malformed =>
          return Skipped;
        case Completed(v) =>
          var answer;
          ghost var t: Trail;
          answer, t := service.ApplyRiskResult(v, REASON_RISK_EVALUATED, turn.database);
          return Applied(old(service.payments.Db()), service.payments.Db(), t, answer);
      }
    }

    /** One read, and what comes of its message. */
    method Take(turns: seq<Turn>, used: nat, ghost start: Db, ghost first: nat, ghost fates: seq<Fate>)
      returns (usable: bool, ghost more: seq<Fate>)
      requires topic.Valid() && Consistent(service.payments.Db()) && used < |turns|
      requires Kept(start, first, topic.log, topic.offset, turns, used, fates, service.payments.Db())
      requires forall k | 0 <= k < |fates| :: !fates[k].Lost?
      modifies topic`log, topic`offset, topic`failedReads, service.payments
      ensures topic.Valid() && Consistent(service.payments.Db()) && usable == Usable(turns[used])
      ensures old(topic.log) <= topic.log && old(topic.offset) <= topic.offset
      ensures topic.failedReads == old(topic.failedReads) + if ReadFails(turns[used]) then 1 else 0
      ensures Kept(start, first, topic.log, topic.offset, turns, used + 1, more, service.payments.Db())
      ensures forall k | 0 <= k < |more| - (if usable then 0 else 1) :: !more[k].Lost?
    {
      hide Kept;
      hide Handled;
      ghost var log, at, db := topic.log, topic.offset, service.payments.Db();
      var turn := turns[used];
      var m := topic.ReadMessage(turn);
      usable := m.Some? && turn.alive;
      ghost var f := Lost;
      if usable {
        f := HandleMessage(m.value, turn);
        HandledVerdictIsKept(m.value, turn, f);
      }
      if turn.reached {
        KeptMore(start, first, log, topic.log, at, turns, used, fates, db, f, service.payments.Db());
        more := fates + [f];
      } else {
        KeptUnread(start, first, log, topic.log, at, turns, used, fates, db);
        more := fates;
      }
    }

    /**
      Until a read fails, the process dies or is cancelled: every message in order, each as its turn has it, and at most
      the last one lost.
     */
    method ConsumeUntilError(turns: seq<Turn>) returns (used: nat, ending: Ending, ghost fates: seq<Fate>)
      requires topic.Valid() && Consistent(service.payments.Db())
      modifies topic`log, topic`offset, topic`failedReads, service.payments
      ensures topic.Valid() && Consistent(service.payments.Db())
      ensures old(topic.log) <= topic.log && old(topic.offset) <= topic.offset
      ensures used <= |turns| && forall k | 0 <= k < used - 1 :: Usable(turns[k])
      ensures match ending
              case Broken => used > 0 && ReadFails(turns[used - 1]) && turns[used - 1].alive
              case Died => used > 0 && !turns[used - 1].alive
              case Stopped => used == |turns| && (used > 0 ==> Usable(turns[used - 1]))
      ensures topic.failedReads == old(topic.failedReads) + FailedReads(turns[..used])
      ensures Drained(old(service.payments.Db()), topic.log[old(topic.offset)..topic.offset], Committed(turns[..used]),
                      fates, service.payments.Db())
      ensures Losses(fates) <= 1 && forall k | 0 <= k < |fates| - 1 :: !fates[k].Lost?
    {
      hide IsUuid;
      hide ReadForApply;
      ghost var start, first := service.payments.Db(), topic.offset;
      used, ending, fates := 0, Stopped, [];
      NothingKept(start, topic.log, first, turns);
      hide Kept;
      hide Handled;
      hide Committed;
      hide FailedReads;
      hide Drained;
      hide Losses;
      while used < |turns|
        invariant used <= |turns| && (forall k | 0 <= k < used :: Usable(turns[k]))
        invariant topic.Valid() && Consistent(service.payments.Db()) && topic.failedReads == old(topic.failedReads)
        invariant old(topic.log) <= topic.log && first <= topic.offset
        invariant Kept(start, first, topic.log, topic.offset, turns, used, fates, service.payments.Db())
        invariant forall k | 0 <= k < |fates| :: !fates[k].Lost?
      {
        var turn := turns[used];
        var usable;
        usable, fates := Take(turns, used, start, first, fates);
        used := used + 1;
        if !usable {
          ending := if turn.alive then Broken else Died;
          break;
        }
      }
      KeptSays(start, first, topic.log, topic.offset, turns, used, fates, service.payments.Db());
    }

    /**
      A process life: read until the connection fails, wait, reconnect, until it is cancelled or dies. Verdicts are
      handled in topic order, each at most once and each as its turn has it. Each reader loses at most one of them on
      the way; a new reader is opened only after a read that failed.
     */
    method Run(turns: seq<Turn>) returns (used: nat, ghost fates: seq<Fate>)
      requires topic.Valid() && Consistent(service.payments.Db())
      modifies topic, service.payments
      ensures topic.Valid() && Consistent(service.payments.Db())
      ensures old(topic.log) <= topic.log && old(topic.offset) <= topic.offset
      ensures used <= |turns| && (used < |turns| ==> used > 0 && !turns[used - 1].alive)
      ensures topic.failedReads == old(topic.failedReads) + FailedReads(turns[..used])
      ensures Drained(old(service.payments.Db()), topic.log[old(topic.offset)..topic.offset], Committed(turns[..used]),
                      fates, service.payments.Db())
      ensures Losses(fates) <= 1 + topic.readers - old(topic.readers)
      ensures 0 <= topic.readers - old(topic.readers) <= topic.failedReads - old(topic.failedReads)
    {
      ghost var start, first, readers := service.payments.Db(), topic.offset, topic.readers;
      used, fates := 0, [];
      NothingKept(start, topic.log, first, turns);
      hide Kept;
      hide Drained;
      hide Losses;
      hide Committed;
      var attempt: nat := 0;
      while true
        invariant topic.Valid() && Consistent(service.payments.Db())
        invariant old(topic.log) <= topic.log && first <= topic.offset && used <= |turns|
        invariant Kept(start, first, topic.log, topic.offset, turns, used, fates, service.payments.Db())
        invariant topic.readers == readers + attempt && Losses(fates) <= attempt
        invariant topic.failedReads == old(topic.failedReads) + FailedReads(turns[..used])
        invariant attempt <= FailedReads(turns[..used])
        decreases |turns| - used
      {
        ghost var log, at, db := topic.log, topic.offset, service.payments.Db();
        var more, ending;
        ghost var fatesMore;
        more, ending, fatesMore := ConsumeUntilError(turns[used..]);
        KeptJoins(start, first, log, topic.log, at, topic.offset, turns, used, more, fates, fatesMore, db,
                  service.payments.Db());
        used, fates := used + more, fates + fatesMore;
        if !ending.Broken? {
          KeptIs(start, first, topic.log, topic.offset, turns, used, fates, service.payments.Db());
          return;
        }
        var pause := BackoffWithJitter(attempt, RECONNECT_BACKOFF_BASE, RECONNECT_BACKOFF_CAP);
        topic.OpenReader();
        attempt := attempt + 1;
      }
    }
  }

  // ---- The inner loop ----

  /** The reads so far, and what they committed. */
  ghost predicate Kept(start: Db, first: nat, log: seq<Message>, offset: nat, turns: seq<Turn>, used: nat,
                       fates: seq<Fate>, db: Db) {
    && used <= |turns| && first <= offset <= |log|
    && Drained(start, log[first..offset], Committed(turns[..used]), fates, db)
  }

  lemma NothingKept(db: Db, log: seq<Message>, first: nat, turns: seq<Turn>)
    requires first <= |log|
    ensures Kept(db, first, log, first, turns, 0, [], db)
  {
    NothingDrained(db);
    assert log[first..first] == [] && turns[..0] == [];
  }

  /** What the loop may conclude when it stops: no turn before the last one was unusable, and so on. */
  lemma KeptSays(start: Db, first: nat, log: seq<Message>, offset: nat, turns: seq<Turn>, used: nat, fates: seq<Fate>,
                 db: Db)
    requires Kept(start, first, log, offset, turns, used, fates, db)
    requires forall k | 0 <= k < used - 1 :: Usable(turns[k])
    requires forall k | 0 <= k < |fates| - 1 :: !fates[k].Lost?
    ensures Drained(start, log[first..offset], Committed(turns[..used]), fates, db)
    ensures FailedReads(turns[..used]) == if used > 0 && ReadFails(turns[used - 1]) then 1 else 0
    ensures Losses(fates) <= 1
  {
    if used > 0 {
      assert turns[..used][..used - 1] == turns[..used - 1];
      NoneFails(turns[..used - 1]);
    }
    if fates != [] {
      NoneLost(fates[..|fates| - 1]);
    }
  }

  lemma KeptIs(start: Db, first: nat, log: seq<Message>, offset: nat, turns: seq<Turn>, used: nat, fates: seq<Fate>,
               db: Db)
    requires Kept(start, first, log, offset, turns, used, fates, db)
    ensures Drained(start, log[first..offset], Committed(turns[..used]), fates, db)
  {
  }

  /** One connection after the other. */
  lemma KeptJoins(start: Db, first: nat, log: seq<Message>, longer: seq<Message>, at: nat, offset: nat,
                  turns: seq<Turn>, used: nat, more: nat, fates: seq<Fate>, fatesMore: seq<Fate>, db: Db, after: Db)
    requires Kept(start, first, log, at, turns, used, fates, db) && log <= longer && at <= offset <= |longer|
    requires more <= |turns| - used
    requires Drained(db, longer[at..offset], Committed(turns[used..][..more]), fatesMore, after)
    ensures Kept(start, first, longer, offset, turns, used + more, fates + fatesMore, after)
    ensures Losses(fates + fatesMore) == Losses(fates) + Losses(fatesMore)
    ensures FailedReads(turns[..used + more]) == FailedReads(turns[..used]) + FailedReads(turns[used..][..more])
    ensures more > 0 && ReadFails(turns[used..][more - 1]) ==> FailedReads(turns[used..][..more]) > 0
  {
    var xs, ys := turns[..used], turns[used..][..more];
    assert xs + ys == turns[..used + more];
    TurnsJoin(xs, ys);
    assert longer[first..offset] == log[first..at] + longer[at..offset];
    DrainedJoin(start, log[first..at], Committed(xs), fates, db, longer[at..offset], Committed(ys), fatesMore, after);
  }

  lemma {:induction false} NoneFails(turns: seq<Turn>)
    requires forall k | 0 <= k < |turns| :: Usable(turns[k])
    ensures FailedReads(turns) == 0
  {
    if turns != [] {
      NoneFails(turns[..|turns| - 1]);
    }
  }

  lemma {:induction false} NoneLost(fates: seq<Fate>)
    requires forall k | 0 <= k < |fates| :: !fates[k].Lost?
    ensures Losses(fates) == 0
  {
    if fates != [] {
      NoneLost(fates[..|fates| - 1]);
    }
  }

  lemma HandledVerdictIsKept(m: Message, t: Turn, f: Fate)
    requires Usable(t) && Handled(m, t, f)
    ensures !f.Lost?
  {
  }

  lemma KeptUnread(start: Db, first: nat, log: seq<Message>, longer: seq<Message>, offset: nat, turns: seq<Turn>,
                   used: nat, fates: seq<Fate>, db: Db)
    requires Kept(start, first, log, offset, turns, used, fates, db) && log <= longer
    requires used < |turns| && !turns[used].reached
    ensures Kept(start, first, longer, offset, turns, used + 1, fates, db)
  {
    assert turns[..used + 1][..used] == turns[..used] && longer[first..offset] == log[first..offset];
    assert Committed(turns[..used + 1]) == Committed(turns[..used]);
  }

  lemma KeptMore(start: Db, first: nat, log: seq<Message>, longer: seq<Message>, offset: nat, turns: seq<Turn>,
                 used: nat, fates: seq<Fate>, db: Db, f: Fate, after: Db)
    requires Kept(start, first, log, offset, turns, used, fates, db) && log <= longer && offset < |longer|
    requires used < |turns| && turns[used].reached
    requires Handled(longer[offset], turns[used], f) || (f.Lost? && !Usable(turns[used]))
    requires if f.Applied? then f.from == db && f.to == after else db == after
    ensures Kept(start, first, longer, offset + 1, turns, used + 1, fates + [f], after)
  {
    assert turns[..used + 1][..used] == turns[..used];
    assert longer[first..offset + 1] == log[first..offset] + [longer[offset]];
    var more := Next(start, log[first..offset], Committed(turns[..used]), fates, db, longer[offset], turns[used], f,
                     after);
  }

  lemma FailedLast(turns: seq<Turn>)
    requires turns != [] && ReadFails(turns[|turns| - 1])
    ensures FailedReads(turns) > 0
  {
  }

  lemma {:induction false} TurnsJoin(xs: seq<Turn>, ys: seq<Turn>)
    ensures Committed(xs + ys) == Committed(xs) + Committed(ys)
    ensures FailedReads(xs + ys) == FailedReads(xs) + FailedReads(ys)
    decreases |ys|
  {
    if ys == [] {
      assert xs + ys == xs;
    } else {
      var n := |ys| - 1;
      TurnsJoin(xs, ys[..n]);
      assert (xs + ys)[..|xs| + n] == xs + ys[..n];
    }
  }

  lemma NothingDrained(db: Db)
    ensures Drained(db, [], [], [], db) && Committed([]) == [] && FailedReads([]) == 0
  {
    assert Evolves(db, db);
  }

  lemma DrainedNothing(start: Db, messages: seq<Message>, turns: seq<Turn>, fates: seq<Fate>, end: Db)
    requires Drained(start, messages, turns, fates, end) && messages == []
    ensures Evolves(start, end)
  {
  }

  lemma {:induction false} DrainedJoin(start: Db, ms: seq<Message>, ts: seq<Turn>, fs: seq<Fate>, mid: Db,
                                       ns: seq<Message>, us: seq<Turn>, gs: seq<Fate>, end: Db)
    requires Drained(start, ms, ts, fs, mid) && Drained(mid, ns, us, gs, end)
    ensures Drained(start, ms + ns, ts + us, fs + gs, end) && Losses(fs + gs) == Losses(fs) + Losses(gs)
    decreases |ns|
  {
    hide Handled;
    hide Evolves;
    if ns == [] {
      DrainedNothing(mid, ns, us, gs, end);
      DrainedWaits(start, ms, ts, fs, mid, end);
      assert ms + ns == ms && ts + us == ts && fs + gs == fs;
    } else {
      var n := |ns| - 1;
      DrainedJoin(start, ms, ts, fs, mid, ns[..n], us[..n], gs[..n], if gs[n].Applied? then gs[n].from else end);
      assert (ms + ns)[..|ms| + n] == ms + ns[..n] && (fs + gs)[..|fs| + n] == fs + gs[..n];
      assert (ts + us)[..|ts| + n] == ts + us[..n];
    }
  }

  lemma Next(start: Db, messages: seq<Message>, turns: seq<Turn>, fates: seq<Fate>, mid: Db, m: Message, t: Turn,
             f: Fate, end: Db)
    returns (more: seq<Fate>)
    requires Drained(start, messages, turns, fates, mid) && Handled(m, t, f)
    requires if f.Applied? then f.from == mid && f.to == end else mid == end
    ensures Drained(start, messages + [m], turns + [t], more, end)
    ensures Losses(more) == Losses(fates) + if f.Lost? then 1 else 0
    ensures more == fates + [f]
  {
    assert (messages + [m])[..|messages|] == messages && (turns + [t])[..|turns|] == turns;
    assert (fates + [f])[..|fates|] == fates;
    assert Evolves(end, end);
    more := fates + [f];
  }
}
