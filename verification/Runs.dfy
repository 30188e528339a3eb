/** What holds over every run of the system, from the empty database on. */
module Runs {
  import opened Wrappers
  import opened Domain
  import opened Schema
  import opened History
  import opened RiskRules
  import opened UseCases
  import opened Protocol

  ghost predicate Linked(cfg: Config, states: seq<System>, actions: seq<Action>, i: nat)
    requires |states| == |actions| + 1 && i < |actions|
  {
    Enabled(cfg, states[i], actions[i]) && states[i + 1] == Step(cfg, states[i], actions[i])
  }

  ghost predicate IsRun(cfg: Config, states: seq<System>, actions: seq<Action>) {
    && |states| == |actions| + 1
    && states[0] == INITIAL
    && forall i | 0 <= i < |actions| :: Linked(cfg, states, actions, i)
  }

  lemma {:induction false} Invariant(cfg: Config, states: seq<System>, actions: seq<Action>, i: nat)
    requires IsRun(cfg, states, actions) && i < |states|
    ensures Inv(cfg, states[i])
  {
    if i > 0 {
      Invariant(cfg, states, actions, i - 1);
      hide Inv;
      assert Linked(cfg, states, actions, i - 1);
      StepKeeps(cfg, states[i - 1], actions[i - 1]);
    }
  }

  lemma GrowsTransitive(s: System, t: System, u: System)
    requires Grows(s, t) && Grows(t, u)
    ensures Grows(s, u)
  {
    EvolvesTransitive(s.db, t.db, u.db);
  }

  /** Time only moves the tables forward. */
  lemma {:induction false} Forward(cfg: Config, states: seq<System>, actions: seq<Action>, i: nat, j: nat)
    requires IsRun(cfg, states, actions) && i <= j < |states|
    ensures Grows(states[i], states[j])
    decreases j
  {
    if i < j {
      hide Inv;
      hide Grows;
      Invariant(cfg, states, actions, j - 1);
      assert Linked(cfg, states, actions, j - 1);
      StepKeeps(cfg, states[j - 1], actions[j - 1]);
      Forward(cfg, states, actions, i, j - 1);
      GrowsTransitive(states[i], states[j - 1], states[j]);
    }
  }

  /**
    End to end. Whatever interleaves, dies or is redelivered, the risk columns of a row are all empty or are
    exactly the verdict on the one event its Create published. When the only PATCHes are the worker's, the row
    is APPROVED just when that verdict says APPROVE and has been stored, and REJECTED likewise.
   */
  lemma RiskFieldsAreTheVerdict(cfg: Config, states: seq<System>, actions: seq<Action>, i: nat, id: Id)
    requires IsRun(cfg, states, actions) && i < |states| && id in states[i].db.rows
    ensures var s, row := states[i], states[i].db.rows[id];
            var stored := id in s.events && row.risk == Verdict(VerdictOn(s.events[id], cfg.thresholds));
            && (stored || row.risk == NO_RISK)
            && (!cfg.manualPatches ==>
                  && (row.status == Approved <==> stored && VerdictOn(s.events[id], cfg.thresholds).decision == Approve)
                  && (row.status == Rejected <==> stored && VerdictOn(s.events[id], cfg.thresholds).decision == Reject))
  {
    hide IsUuid;
    Invariant(cfg, states, actions, i);
    var s := states[i];
    assert RiskShape(cfg, s.events, id, s.db.rows[id].status, s.db.rows[id].risk);
  }

  /** With arbitrary PATCHes too, no row is resolved without a verdict, nor against one. */
  lemma NoSilentResolution(cfg: Config, states: seq<System>, actions: seq<Action>, i: nat, id: Id)
    requires IsRun(cfg, states, actions) && i < |states| && id in states[i].db.rows
    requires states[i].db.rows[id].status == Approved || states[i].db.rows[id].status == Rejected
    ensures id in states[i].events
    ensures var v := VerdictOn(states[i].events[id], cfg.thresholds);
            && states[i].db.rows[id].risk == Verdict(v)
            && v.decision != (if states[i].db.rows[id].status == Approved then Reject else Approve)
  {
    Invariant(cfg, states, actions, i);
    var s := states[i];
    assert RiskShape(cfg, s.events, id, s.db.rows[id].status, s.db.rows[id].risk);
  }

  /** The history of every intent is a walk to its status, with at most two real changes. */
  lemma HistoryIsAWalk(cfg: Config, states: seq<System>, actions: seq<Action>, i: nat, id: Id)
    requires IsRun(cfg, states, actions) && i < |states| && id in states[i].db.rows
    ensures var walk := HistoryOf(states[i].db.history, id);
            Walk(walk, states[i].db.rows[id].status) && RealChanges(walk) <= 2
  {
    Invariant(cfg, states, actions, i);
    RealChangesAtMostRank(HistoryOf(states[i].db.history, id), states[i].db.rows[id].status);
  }

  ghost predicate CreatedOk(s: System, k: CallId, key: string, id: Id) {
    && k in s.calls && s.calls[k].Create? && s.calls[k].req.idempotencyKey == key
    && s.calls[k].pc.Finished? && s.calls[k].pc.answer.Ok? && s.calls[k].pc.answer.value.id == id
  }

  /** Whatever the lock did, one row per key, and every successful Create with the key returns that row's id. */
  lemma IdempotencyHolds(cfg: Config, states: seq<System>, actions: seq<Action>, i: nat, key: string)
    requires IsRun(cfg, states, actions) && i < |states|
    ensures forall a, b | a in states[i].db.rows && b in states[i].db.rows
                          && states[i].db.rows[a].idempotencyKey == key == states[i].db.rows[b].idempotencyKey :: a == b
    ensures forall k, a | CreatedOk(states[i], k, key, a) :: Stored(states[i], a, key)
    ensures forall k, l, a, b | CreatedOk(states[i], k, key, a) && CreatedOk(states[i], l, key, b) :: a == b
  {
    Invariant(cfg, states, actions, i);
    forall k, a | CreatedOk(states[i], k, key, a)
      ensures Stored(states[i], a, key)
    {
      assert CallOk(cfg, states[i], states[i].calls[k]);
    }
  }

  /** At most one Publish per intent, only after its UNDER_REVIEW commit; never PENDING or CANCELLED from then on. */
  lemma PublishedOnceAfterReview(cfg: Config, states: seq<System>, actions: seq<Action>, i: nat, j: nat, id: Id)
    requires IsRun(cfg, states, actions) && i <= j < |states|
    ensures states[i].publishCalls[id] <= 1
    ensures states[i].publishCalls[id] == 1 ==>
      && id in states[j].db.rows && states[j].db.rows[id].status != Pending && states[j].db.rows[id].status != Cancelled
      && (i > 0 && states[i - 1].publishCalls[id] == 0 ==> Held(states[i - 1].db.history, id, UnderReview))
  {
    Invariant(cfg, states, actions, i);
    Forward(cfg, states, actions, i, j);
    if states[i].publishCalls[id] == 1 {
      assert Published(states[i], id);
      ReachesTransitive(UnderReview, states[i].db.rows[id].status, states[j].db.rows[id].status);
      AfterReview(states[j].db.rows[id].status);
      if i > 0 && states[i - 1].publishCalls[id] == 0 {
        assert Linked(cfg, states, actions, i - 1);
        PublishTouchesNoTable(cfg, states[i - 1], actions[i - 1], id);
      }
    }
  }

  lemma PublishTouchesNoTable(cfg: Config, s: System, a: Action, id: Id)
    requires Enabled(cfg, s, a) && s.publishCalls[id] != Step(cfg, s, a).publishCalls[id]
    ensures Step(cfg, s, a).db == s.db
  {
  }

  lemma TerminalForever(cfg: Config, states: seq<System>, actions: seq<Action>, i: nat, j: nat, id: Id)
    requires IsRun(cfg, states, actions) && i <= j < |states|
    requires id in states[i].db.rows && Terminal(states[i].db.rows[id].status)
    ensures id in states[j].db.rows && states[j].db.rows[id].status == states[i].db.rows[id].status
  {
    Forward(cfg, states, actions, i, j);
    TerminalIsForever(states[i].db.rows[id].status, states[j].db.rows[id].status);
  }

  /** This action is a step of a PATCH that asks for EXPIRED. */
  ghost predicate Expires(s: System, a: Action, id: Id) {
    && a.Advance? && a.call in s.calls && s.calls[a.call].Patch?
    && s.calls[a.call].id == id && s.calls[a.call].next == Expired
  }

  function AnswerIn(s: System, call: CallId): Option<Result<Intent, AppError>> {
    if call in s.calls && s.calls[call].Patch? && s.calls[call].wpc.Answered? then Some(s.calls[call].wpc.answer)
    else None
  }

  lemma AnsweredExpired(cfg: Config, s: System, a: Action, id: Id)
    requires CallsInv(cfg, s) && Enabled(cfg, s, a) && Expires(s, a, id)
    requires var answer := AnswerIn(Step(cfg, s, a), a.call);
             answer.Some? && (answer.value.Ok? || answer.value == Err(Conflict))
    ensures var t := Step(cfg, s, a); id in t.db.rows && t.db.rows[id].status == Expired
  {
    hide IsUuid;
    var c := s.calls[a.call];
    assert CallOk(cfg, s, c);
    if c.wpc.Commit? {
      UpdateEffect(s.db, c.wpc.write, a.input.now);
    }
  }

  /** Success and conflict alike mean that the intent is EXPIRED, now and in every later state. */
  lemma ExpiredAnswersAreFinal(cfg: Config, states: seq<System>, actions: seq<Action>, i: nat, j: nat, id: Id)
    requires IsRun(cfg, states, actions) && i < j < |states| && Expires(states[i], actions[i], id)
    requires var answer := AnswerIn(states[i + 1], actions[i].call);
             answer.Some? && (answer.value.Ok? || answer.value == Err(Conflict))
    ensures id in states[j].db.rows && states[j].db.rows[id].status == Expired
  {
    hide StoreInv;
    hide CallsInv;
    hide Step;
    hide AnswerIn;
    Invariant(cfg, states, actions, i);
    assert Linked(cfg, states, actions, i);
    AnsweredExpired(cfg, states[i], actions[i], id);
    TerminalForever(cfg, states, actions, i + 1, j, id);
  }

  /** The commit of this PATCH is refused by the database, or its domain check says no. */
  ghost predicate Refused(cfg: Config, s: System, a: Action, id: Id)
    requires Enabled(cfg, s, a) && Expires(s, a, id)
  {
    var c := s.calls[a.call];
    || (c.wpc.Commit? && Execute(s.db, UpdateScript(c.wpc.write, a.input.now)).Err?)
    || AnswerIn(Step(cfg, s, a), a.call) == Some(Err(InvalidTransition))
  }

  lemma RefusedIsClosed(cfg: Config, s: System, a: Action, id: Id)
    requires CallsInv(cfg, s) && Consistent(s.db) && Enabled(cfg, s, a) && Expires(s, a, id)
    requires Refused(cfg, s, a, id)
    ensures id in s.db.rows && Terminal(s.db.rows[id].status) && s.db.rows[id].status != Expired
  {
    hide IsUuid;
    var c := s.calls[a.call];
    assert CallOk(cfg, s, c);
    if c.wpc.Commit? {
      UpdateEffect(s.db, c.wpc.write, a.input.now);
    }
    assert id in s.db.rows && WellTyped(s.db.rows[id]);
  }

  /**
    A PATCH to EXPIRED refused at commit, or refused by the domain check, found the intent in another terminal
    status; every later attempt to expire it is answered INVALID_TRANSITION.
   */
  lemma RefusedStaysRefused(cfg: Config, states: seq<System>, actions: seq<Action>, i: nat, j: nat, id: Id)
    requires IsRun(cfg, states, actions) && i < |actions| && i <= j < |states| && Expires(states[i], actions[i], id)
    requires Enabled(cfg, states[i], actions[i]) && Refused(cfg, states[i], actions[i], id)
    ensures id in states[j].db.rows && Terminal(states[j].db.rows[id].status)
            && states[j].db.rows[id].status != Expired
    ensures forall reason, actor, now ::
              ReadForPatch(states[j].db, id, Expired, reason, actor, now) == Err(InvalidTransition)
  {
    hide CallsInv;
    hide Step;
    hide Refused;
    Invariant(cfg, states, actions, i);
    RefusedIsClosed(cfg, states[i], actions[i], id);
    TerminalForever(cfg, states, actions, i, j, id);
  }

  // ---- What stale reads do to the history ----

  /** A row's claimed previous status is the one just before it exactly when the writer's read was still current. */
  lemma PreviousMatchesIffReadIsFresh(db: Db, w: Write, dbNow: Time)
    requires Consistent(db) && Walks(db) && Execute(db, UpdateScript(w, dbNow)).Ok?
    ensures var walk := HistoryOf(Execute(db, UpdateScript(w, dbNow)).value.history, w.pi.id);
            && |walk| >= 2
            && (walk[|walk| - 1].previous == Some(walk[|walk| - 2].newStatus)
                <==> db.rows[w.pi.id].status == w.previous)
  {
    hide IsUuid;
    UpdateEffect(db, w, dbNow);
    WriteAppends(db, w, dbNow);
    assert Walk(HistoryOf(db.history, w.pi.id), db.rows[w.pi.id].status);
    hide Consistent;
    hide Walks;
    hide Execute;
    hide HistoryOf;
  }

  /**
    Two expirers that both read an open intent both commit, since the trigger lets the second one restate EXPIRED. The
    history ends with two EXPIRED rows, and the second does not name the status of the row before it.
   */
  lemma RacingExpirersBothCommit(db: Db, id: Id, reason: string, actor: string, t1: Time, t2: Time)
    requires Consistent(db) && id in db.rows && Open(db.rows[id].status)
    ensures var first := ReadForPatch(db, id, Expired, reason, actor, t1);
            var second := ReadForPatch(db, id, Expired, reason, actor, t2);
            && first.Ok? && second.Ok?
            && Execute(db, UpdateScript(first.value, t1)).Ok?
            && var mid := Execute(db, UpdateScript(first.value, t1)).value;
            && Execute(mid, UpdateScript(second.value, t2)).Ok?
            && var a, b := UpdateScript(first.value, t1)[1].h, UpdateScript(second.value, t2)[1].h;
            && HistoryOf(Execute(mid, UpdateScript(second.value, t2)).value.history, id)
               == HistoryOf(db.history, id) + [a] + [b]
            && a.newStatus == Expired == b.newStatus && b.previous == Some(db.rows[id].status) != Some(a.newStatus)
  {
    assert Evolves(db, db);
    hide Consistent;
    hide Evolves;
    hide Execute;
    hide ReadForPatch;
    hide UpdateScript;
    hide HistoryOf;
    var first := StaleExpiryCommits(db, db, id, reason, actor, t1, t1);
    var mid := Execute(db, UpdateScript(first, t1)).value;
    ExecuteEvolves(db, UpdateScript(first, t1));
    var second := StaleExpiryCommits(db, mid, id, reason, actor, t2, t2);
  }

  /** Where an intent may go, spelled out. */
  predicate MayGo(from: Status, to: Status) {
    || (from == Pending && (to == UnderReview || to == Cancelled || to == Expired))
    || (from == UnderReview && (to == Approved || to == Rejected || to == Expired))
  }

  /** What a PATCH reads, for every row and every wish. */
  lemma PatchReads(db: Db, id: Id, next: Status, reason: string, actor: string, now: Time)
    requires Consistent(db) && IsUuid(id)
    ensures ReadForPatch(db, id, next, reason, actor, now)
            == if id !in db.rows then Err(NotFound)
               else if db.rows[id].status == next then Err(Conflict)
               else if !MayGo(db.rows[id].status, next) then Err(InvalidTransition)
               else Ok(Write(db.rows[id].(status := next, updatedAt := now), db.rows[id].status, reason, actor))
  {
  }

  /** What it leaves behind when nobody has disturbed it: only a resolution without a decision is refused. */
  lemma QuietPatchCommits(db: Db, id: Id, next: Status, reason: string, actor: string, now: Time, dbNow: Time)
    requires Consistent(db) && id in db.rows && MayGo(db.rows[id].status, next)
    ensures var row := db.rows[id];
            var w := Write(row.(status := next, updatedAt := now), row.status, reason, actor);
            Execute(db, UpdateScript(w, dbNow))
            == if (next == Approved || next == Rejected) && row.risk.decision == None then Err(Internal)
               else Ok(Db(db.rows[id := row.(status := next, updatedAt := dbNow)],
                          db.history + [HistoryRow(id, Some(row.status), next, reason, actor, row.correlationId)]))
  {
    var row := db.rows[id];
    assert row.id == id && WellTyped(row) && RowChecks(row);
    ChecksAfter(row, next);
    hide IsUuid;
    hide Consistent;
    hide Execute;
    hide RowChecks;
    var moved := row.(status := next, updatedAt := dbNow);
    var w := Write(row.(status := next, updatedAt := now), row.status, reason, actor);
    assert row.(status := w.pi.status, risk := w.pi.risk) == row.(status := next);
    UpdateEffect(db, w, dbNow);
    hide WellTyped;
    if Execute(db, UpdateScript(w, dbNow)).Ok? {
      var done := Execute(db, UpdateScript(w, dbNow)).value;
      assert done.rows[id] == moved;
      OneRowMoved(db.rows, done.rows, id, moved);
    } else {
      RefusedIsInternal(db, w, dbNow);
    }
  }

  lemma ChecksAfter(row: Intent, next: Status)
    requires MayGo(row.status, next)
    ensures RowChecks(row) ==>
              (RowChecks(row.(status := next)) <==>
                 !((next == Approved || next == Rejected) && row.risk.decision == None))
    ensures WellTyped(row) ==> WellTyped(row.(status := next))
  {
    hide IsUuid;
  }

  lemma OneRowMoved(before: map<Id, Intent>, after: map<Id, Intent>, id: Id, moved: Intent)
    requires id in before && after.Keys == before.Keys && after[id] == moved
    requires forall other | other in before && other != id :: after[other] == before[other]
    ensures after == before[id := moved]
  {
  }

  /** A write to a row that exists is refused with an internal error, whatever the reason. */
  lemma RefusedIsInternal(db: Db, w: Write, dbNow: Time)
    requires w.pi.id in db.rows && Execute(db, UpdateScript(w, dbNow)).Err?
    ensures Execute(db, UpdateScript(w, dbNow)) == Err(Internal)
  {
    hide IsUuid;
    var script := UpdateScript(w, dbNow);
    assert script[1..] == [script[1]] && script[1..][1..] == [];
    if Exec(Tx(db, []), script[0]).Ok? {
      var tx := Exec(Tx(db, []), script[0]).value;
      assert ExecAll(tx, script[1..]) == (match Exec(tx, script[1]) case Ok(x) => Ok(x) case Err(e) => Err(e));
    }
  }

  /**
    A PATCH writes back the risk columns it read. Committed, it erases a stored decision exactly when it read the row
    before there was one; and it changes the columns exactly when they changed since its read.
   */
  lemma StaleWriteErasesIff(seen: Db, db: Db, id: Id, next: Status, reason: string, actor: string, readAt: Time,
                            dbNow: Time)
    requires Consistent(seen) && ReadForPatch(seen, id, next, reason, actor, readAt).Ok?
    requires Execute(db, UpdateScript(ReadForPatch(seen, id, next, reason, actor, readAt).value, dbNow)).Ok?
    ensures var done :=
              Execute(db, UpdateScript(ReadForPatch(seen, id, next, reason, actor, readAt).value, dbNow)).value;
            && id in seen.rows && id in db.rows && id in done.rows
            && (done.rows[id].risk != db.rows[id].risk <==> seen.rows[id].risk != db.rows[id].risk)
            && (db.rows[id].risk.decision.Some? && done.rows[id].risk.decision.None?
                <==> db.rows[id].risk.decision.Some? && seen.rows[id].risk.decision.None?)
  {
    hide IsUuid;
    assert seen.rows[id].id == id;
    hide Consistent;
    UpdateEffect(db, ReadForPatch(seen, id, next, reason, actor, readAt).value, dbNow);
  }

  /**
    An expiry read while the intent was open commits if it still is, or is EXPIRED by now; its row names what was
    read.
   */
  lemma StaleExpiryCommits(seen: Db, db: Db, id: Id, reason: string, actor: string, readAt: Time, dbNow: Time)
    returns (w: Write)
    requires Consistent(seen) && Evolves(seen, db) && Consistent(db) && id in seen.rows && Open(seen.rows[id].status)
    requires Open(db.rows[id].status) || db.rows[id].status == Expired
    ensures ReadForPatch(seen, id, Expired, reason, actor, readAt) == Ok(w)
    ensures Execute(db, UpdateScript(w, dbNow)).Ok?
    ensures var done := Execute(db, UpdateScript(w, dbNow)).value;
            && id in done.rows && done.rows[id].status == Expired
            && HistoryOf(done.history, id) == HistoryOf(db.history, id) + [UpdateScript(w, dbNow)[1].h]
            && UpdateScript(w, dbNow)[1].h.newStatus == Expired
            && UpdateScript(w, dbNow)[1].h.previous == Some(seen.rows[id].status)
  {
    assert WellTyped(seen.rows[id]) && WellTyped(db.rows[id]) && RowChecks(seen.rows[id]) && RowChecks(db.rows[id]);
    assert seen.rows[id].id == id;
    hide IsUuid;
    w := ReadForPatch(seen, id, Expired, reason, actor, readAt).value;
    UpdateEffect(db, w, dbNow);
    hide Consistent;
    hide Evolves;
    hide Execute;
    WriteAppends(db, w, dbNow);
  }

  /** What a committed write adds to the history of its intent. */
  lemma WriteAppends(db: Db, w: Write, dbNow: Time)
    requires Execute(db, UpdateScript(w, dbNow)).Ok?
    ensures HistoryOf(Execute(db, UpdateScript(w, dbNow)).value.history, w.pi.id)
            == HistoryOf(db.history, w.pi.id) + [UpdateScript(w, dbNow)[1].h]
  {
    hide IsUuid;
    UpdateEffect(db, w, dbNow);
    HistoryOfAppend(db.history, UpdateScript(w, dbNow)[1].h, w.pi.id);
  }

  /**
    What APPROVED and REJECTED mean when anyone may PATCH: an intent under review can be resolved by hand exactly
    when some verdict is stored, and that verdict stays as it was.
   */
  lemma ResolvingPatchCommitsIff(db: Db, id: Id, next: Status, reason: string, actor: string, readAt: Time, dbNow: Time)
    requires Consistent(db) && id in db.rows && db.rows[id].status == UnderReview
    requires next == Approved || next == Rejected
    ensures var w := ReadForPatch(db, id, next, reason, actor, readAt);
            && w.Ok?
            && (Execute(db, UpdateScript(w.value, dbNow)).Ok? <==> db.rows[id].risk.decision.Some?)
            && (db.rows[id].risk.decision.Some? ==>
                  var done := Execute(db, UpdateScript(w.value, dbNow)).value;
                  id in done.rows && done.rows[id].status == next && done.rows[id].risk == db.rows[id].risk)
  {
    UpdateEffect(db, ReadForPatch(db, id, next, reason, actor, readAt).value, dbNow);
    assert RowChecks(db.rows[id]) && WellTyped(db.rows[id]);
  }
}
