/** The payments schema: CHECK and UNIQUE constraints, the transition rows, the triggers, and transactions. */
module Schema {
  import opened Wrappers
  import opened Domain

  datatype HistoryRow = HistoryRow(
    intentId: Id,
    previous: Option<Status>,
    newStatus: Status,
    reason: string,
    changedBy: string,
    correlationId: Id)

  /** Committed state: the intents by id and the append-only history, oldest first. */
  datatype Db = Db(rows: map<Id, Intent>, history: seq<HistoryRow>)

  const EMPTY := Db(map[], [])

  datatype SqlError = UniqueViolation | CheckViolation | InvalidText | ForeignKeyViolation | RestrictViolation | NoRow

  /** The rows of payment_status_transitions. */
  const TRANSITION_ROWS: set<(Status, Status)> := {
    (Pending, UnderReview), (Pending, Cancelled), (Pending, Expired),
    (UnderReview, Approved), (UnderReview, Rejected), (UnderReview, Expired)
  }

  /** The table the trigger reads and the map the domain reads are the same relation. */
  lemma TablesAgree(s: Status, t: Status)
    ensures (s, t) in TRANSITION_ROWS <==> CanTransitionTo(s, t)
  {
  }

  predicate IsHex(c: char) {
    '0' <= c <= '9' || 'a' <= c <= 'f' || 'A' <= c <= 'F'
  }

  /** The bytes of a UUID from byte `n` on: two digits each, and a hyphen allowed after every second byte. */
  predicate UuidBytes(s: string, n: nat)
    decreases |s|
  {
    if n == 16 then s == ""
    else
      && |s| >= 2 && IsHex(s[0]) && IsHex(s[1])
      && UuidBytes(if n % 2 == 1 && n < 15 && |s| > 2 && s[2] == '-' then s[3..] else s[2..], n + 1)
  }

  /** The texts PostgreSQL takes for a UUID. */
  predicate IsUuid(s: string) {
    if s != "" && s[0] == '{' then |s| > 1 && s[|s| - 1] == '}' && UuidBytes(s[1..|s| - 1], 0) else UuidBytes(s, 0)
  }

  predicate AllHex(a: string) {
    forall i | 0 <= i < |a| :: IsHex(a[i])
  }

  /** May this text follow byte `n - 1`? */
  predicate FollowsByte(rest: string, n: nat) {
    if rest != "" && rest[0] == '-' then n % 2 == 0 && 0 < n < 16 && UuidBytes(rest[1..], n) else UuidBytes(rest, n)
  }

  lemma HexPair(x: char, y: char, rest: string, n: nat)
    requires IsHex(x) && IsHex(y) && n < 16 && FollowsByte(rest, n + 1)
    ensures UuidBytes([x, y] + rest, n)
  {
    var s := [x, y] + rest;
    assert s[2..] == rest && (rest != "" ==> s[3..] == rest[1..]);
  }

  /** A run of hexadecimal digits, and whatever UUID text may follow it. */
  lemma {:induction false} HexThen(a: string, rest: string, n: nat)
    requires |a| > 0 && |a| % 2 == 0 && n + |a| / 2 <= 16 && AllHex(a) && FollowsByte(rest, n + |a| / 2)
    ensures UuidBytes(a + rest, n)
    decreases |a|
  {
    hide UuidBytes;
    if |a| > 2 {
      HexThen(a[2..], rest, n + 1);
      HexPair(a[0], a[1], a[2..] + rest, n);
      assert a + rest == [a[0], a[1]] + (a[2..] + rest);
    } else {
      HexPair(a[0], a[1], rest, n);
      assert a + rest == [a[0], a[1]] + rest;
    }
  }

  /** The two usual spellings are taken: digits alone, and groups of 8, 4, 4, 4 and 12. */
  lemma PlainHexIsUuid(s: string)
    requires |s| == 32 && AllHex(s)
    ensures IsUuid(s)
  {
    assert UuidBytes("", 16) && s + "" == s;
    HexThen(s, "", 0);
  }

  lemma GroupedHexIsUuid(a: string, b: string, c: string, d: string, e: string)
    requires |a| == 8 && |b| == |c| == |d| == 4 && |e| == 12
    requires AllHex(a) && AllHex(b) && AllHex(c) && AllHex(d) && AllHex(e)
    ensures IsUuid(a + ("-" + (b + ("-" + (c + ("-" + (d + ("-" + e))))))))
  {
    assert UuidBytes("", 16) && e + "" == e;
    HexThen(e, "", 10);
    hide UuidBytes;
    HyphenThen(d, e, 8);
    HyphenThen(c, d + ("-" + e), 6);
    HyphenThen(b, c + ("-" + (d + ("-" + e))), 4);
    HyphenThen(a, b + ("-" + (c + ("-" + (d + ("-" + e))))), 0);
  }

  lemma HyphenThen(a: string, rest: string, n: nat)
    requires |a| > 0 && |a| % 4 == 0 && n % 2 == 0 && n + |a| / 2 < 16 && AllHex(a) && UuidBytes(rest, n + |a| / 2)
    ensures UuidBytes(a + ("-" + rest), n)
  {
    assert ("-" + rest)[1..] == rest;
    HexThen(a, "-" + rest, n);
  }

  /** Nothing shorter than its digits, nor longer than with every hyphen and both braces. */
  lemma {:induction false} UuidLength(s: string, n: nat)
    requires n <= 16 && UuidBytes(s, n)
    ensures 2 * (16 - n) <= |s| <= 2 * (16 - n) + (15 - n) / 2 + 1
    decreases |s|
  {
    if n < 16 {
      UuidLength(if n % 2 == 1 && n < 15 && |s| > 2 && s[2] == '-' then s[3..] else s[2..], n + 1);
    }
  }

  /** A UUID of one digit, written without hyphens. */
  function Uuid(digit: char): string {
    seq(32, _ => digit)
  }

  lemma {:induction false} PlainUuid(digit: char, n: nat)
    requires IsHex(digit) && n <= 16
    ensures UuidBytes(seq(2 * (16 - n), _ => digit), n)
    ensures n == 0 ==> IsUuid(Uuid(digit))
    decreases 16 - n
  {
    if n < 16 {
      PlainUuid(digit, n + 1);
      var s: string := seq(2 * (16 - n), _ => digit);
      assert s[2..] == seq(2 * (16 - n - 1), _ => digit);
    }
  }

  predicate WellTyped(row: Intent) {
    && IsUuid(row.id) && IsUuid(row.merchantId) && IsUuid(row.correlationId)
    && !row.status.Foreign?
    && !row.channel.ForeignChannel?
    && (row.risk.decision.Some? ==> !row.risk.decision.value.ForeignDecision?)
  }

  predicate WellTypedHistory(h: HistoryRow) {
    && IsUuid(h.intentId) && IsUuid(h.correlationId)
    && !h.newStatus.Foreign? && !(h.previous.Some? && h.previous.value.Foreign?)
  }

  predicate RowChecks(row: Intent) {
    && row.amountMinor > 0
    && row.currency == SUPPORTED_CURRENCY
    && row.expiresAt > row.createdAt
    && (row.risk.score.Some? ==> 0 <= row.risk.score.value <= 100)
    && (row.risk.decision.None? <==> row.risk.modelVersion.None?)
    && (row.status == Approved || row.status == Rejected ==> row.risk.decision.Some?)
  }

  predicate Duplicates(rows: map<Id, Intent>, row: Intent) {
    exists id | id in rows ::
      || id == row.id
      || rows[id].idempotencyKey == row.idempotencyKey
      || (rows[id].merchantId == row.merchantId && rows[id].externalReference == row.externalReference)
  }

  datatype Stmt =
    | InsertIntent(row: Intent)
    | UpdateIntent(id: Id, status: Status, risk: RiskFields, updatedAt: Time, dbNow: Time)
    | InsertHistory(h: HistoryRow)

  /** An open transaction: the state it sees and the deferred checks it has queued. */
  datatype Tx = Tx(db: Db, deferred: seq<(Id, Status)>)

  /** The BEFORE UPDATE trigger: the row to store, or a refusal judged on the stored status. */
  function EnforceTransition(stored: Intent, wanted: Intent, dbNow: Time): Result<Intent, SqlError> {
    if wanted.status == stored.status then Ok(wanted)
    else if (stored.status, wanted.status) !in TRANSITION_ROWS then Err(CheckViolation)
    else Ok(wanted.(updatedAt := dbNow))
  }

  function Exec(tx: Tx, stmt: Stmt): Result<Tx, SqlError> {
    match stmt
    case InsertIntent(row) =>
      if !WellTyped(row) then Err(InvalidText)
      else if !RowChecks(row) then Err(CheckViolation)
      else if Duplicates(tx.db.rows, row) then Err(UniqueViolation)
      else Ok(Tx(tx.db.(rows := tx.db.rows[row.id := row]), tx.deferred + [(row.id, row.status)]))
    case UpdateIntent(id, status, risk, updatedAt, dbNow) =>
      if id !in tx.db.rows then Err(NoRow)
      else
        var stored := tx.db.rows[id];
        var wanted := stored.(status := status, risk := risk, updatedAt := updatedAt);
        if !WellTyped(wanted) then Err(InvalidText)
        else
          match EnforceTransition(stored, wanted, dbNow) {
            case Err(e) => Err(e)
            case Ok(row) =>
              if !RowChecks(row) then Err(CheckViolation)
              else Ok(Tx(tx.db.(rows := tx.db.rows[id := row]), tx.deferred + [(id, status)]))
          }
    case InsertHistory(h) =>
      if !WellTypedHistory(h) then Err(InvalidText)
      else if h.intentId !in tx.db.rows then Err(ForeignKeyViolation)
      else Ok(tx.(db := tx.db.(history := tx.db.history + [h])))
  }

  /** Some history row of the intent carries this status. */
  predicate Held(history: seq<HistoryRow>, id: Id, status: Status) {
    exists i :: 0 <= i < |history| && history[i].intentId == id && history[i].newStatus == status
  }

  /** COMMIT: every queued check must find its history row. */
  function Commit(tx: Tx): Result<Db, SqlError> {
    if forall k | 0 <= k < |tx.deferred| :: Held(tx.db.history, tx.deferred[k].0, tx.deferred[k].1)
    then Ok(tx.db) else Err(RestrictViolation)
  }

  function ExecAll(tx: Tx, script: seq<Stmt>): Result<Tx, SqlError>
    decreases |script|
  {
    if script == [] then Ok(tx)
    else match Exec(tx, script[0])
         case Ok(next) => ExecAll(next, script[1..])
         case Err(e) => Err(e)
  }

  /** A whole transaction: all of the script and the deferred checks, or nothing. */
  function Transact(db: Db, script: seq<Stmt>): Result<Db, SqlError> {
    match ExecAll(Tx(db, []), script)
    case Ok(tx) => Commit(tx)
    case Err(e) => Err(e)
  }

  /** What a transaction leaves behind: an aborted one leaves the state as it was. */
  function After(db: Db, script: seq<Stmt>): Db {
    match Transact(db, script)
    case Ok(done) => done
    case Err(_) => db
  }

  /** Exactly which intents the table takes, column by column and row against row. */
  lemma TakenIff(tx: Tx, row: Intent)
    ensures Exec(tx, InsertIntent(row)).Ok? <==>
            && IsUuid(row.id) && IsUuid(row.merchantId) && IsUuid(row.correlationId)
            && row.channel in {Qr, PaymentLink, DataphoneSimulated}
            && row.status in {Pending, UnderReview, Approved, Rejected, Cancelled, Expired}
            && row.risk.decision in {None, Some(Approve), Some(Review), Some(Reject)}
            && row.amountMinor >= 1 && row.currency == "COP" && row.createdAt < row.expiresAt
            && (row.risk.score == None || (row.risk.score.value >= 0 && row.risk.score.value <= 100))
            && (row.risk.decision == None <==> row.risk.modelVersion == None)
            && (row.risk.decision == None ==> row.status != Approved && row.status != Rejected)
            && row.id !in tx.db.rows
            && forall id | id in tx.db.rows ::
                 && tx.db.rows[id].idempotencyKey != row.idempotencyKey
                 && (tx.db.rows[id].merchantId, tx.db.rows[id].externalReference)
                    != (row.merchantId, row.externalReference)
  {
    hide IsUuid;
  }

  // ---- Constraints that hold of every committed state ----

  ghost predicate UniqueKeys(rows: map<Id, Intent>) {
    && (forall id | id in rows :: rows[id].id == id)
    && (forall a, b | a in rows && b in rows && rows[a].idempotencyKey == rows[b].idempotencyKey :: a == b)
    && (forall a, b | a in rows && b in rows && rows[a].merchantId == rows[b].merchantId
                      && rows[a].externalReference == rows[b].externalReference :: a == b)
  }

  ghost predicate Consistent(db: Db) {
    && UniqueKeys(db.rows)
    && (forall id | id in db.rows :: RowChecks(db.rows[id]) && WellTyped(db.rows[id]))
    && (forall i | 0 <= i < |db.history| :: db.history[i].intentId in db.rows)
  }

  /** What every other writer may do to the state while a use case is between two statements. */
  ghost predicate Evolves(a: Db, b: Db) {
    && (forall id | id in a.rows :: id in b.rows && SameIdentity(a.rows[id], b.rows[id])
                                    && Reaches(a.rows[id].status, b.rows[id].status))
    && a.history <= b.history
  }

  lemma EvolvesTransitive(a: Db, b: Db, c: Db)
    requires Evolves(a, b) && Evolves(b, c)
    ensures Evolves(a, c)
  {
    forall id | id in a.rows
      ensures id in c.rows && SameIdentity(a.rows[id], c.rows[id]) && Reaches(a.rows[id].status, c.rows[id].status)
    {
      assert id in b.rows;
      ReachesTransitive(a.rows[id].status, b.rows[id].status, c.rows[id].status);
    }
  }

  lemma InsertKeeps(tx: Tx, row: Intent)
    requires Consistent(tx.db) && Exec(tx, InsertIntent(row)).Ok?
    ensures Consistent(Exec(tx, InsertIntent(row)).value.db) && Evolves(tx.db, Exec(tx, InsertIntent(row)).value.db)
  {
    hide IsUuid;
    var rows, next := tx.db.rows, tx.db.rows[row.id := row];
    forall a, b | a in next && b in next && a != b
      ensures next[a].idempotencyKey != next[b].idempotencyKey
      ensures next[a].merchantId == next[b].merchantId ==> next[a].externalReference != next[b].externalReference
    {
      assert a in rows || b in rows;
    }
    assert row.id !in rows;
  }

  lemma UpdateKeeps(tx: Tx, stmt: Stmt)
    requires stmt.UpdateIntent? && Consistent(tx.db) && Exec(tx, stmt).Ok?
    ensures Consistent(Exec(tx, stmt).value.db) && Evolves(tx.db, Exec(tx, stmt).value.db)
  {
    hide IsUuid;
    var rows, next := tx.db.rows, Exec(tx, stmt).value.db.rows;
    TablesAgree(rows[stmt.id].status, stmt.status);
    if rows[stmt.id].status != stmt.status {
      TransitionsAreAcyclic(rows[stmt.id].status, stmt.status);
    }
    assert next.Keys == rows.Keys;
    assert forall id | id in rows :: SameIdentity(rows[id], next[id]);
  }

  lemma StatementKeeps(tx: Tx, stmt: Stmt)
    requires Consistent(tx.db) && Exec(tx, stmt).Ok?
    ensures Consistent(Exec(tx, stmt).value.db) && Evolves(tx.db, Exec(tx, stmt).value.db)
  {
    match stmt
    case InsertIntent(row) => InsertKeeps(tx, row);
    case UpdateIntent(_, _, _, _, _) => UpdateKeeps(tx, stmt);
    case InsertHistory(_) =>
  }

  lemma {:induction false} ScriptKeeps(tx: Tx, script: seq<Stmt>)
    requires Consistent(tx.db) && ExecAll(tx, script).Ok?
    ensures Consistent(ExecAll(tx, script).value.db) && Evolves(tx.db, ExecAll(tx, script).value.db)
    decreases |script|
  {
    if script != [] {
      StatementKeeps(tx, script[0]);
      var next := Exec(tx, script[0]).value;
      ScriptKeeps(next, script[1..]);
      EvolvesTransitive(tx.db, next.db, ExecAll(tx, script).value.db);
    }
  }

  /** Any transaction at all, committed or aborted, keeps the constraints and only moves the state forward. */
  lemma TransactionKeeps(db: Db, script: seq<Stmt>)
    requires Consistent(db)
    ensures Consistent(After(db, script)) && Evolves(db, After(db, script))
  {
    if Transact(db, script).Ok? {
      ScriptKeeps(Tx(db, []), script);
    }
  }

  // ---- The deferred check ----

  /** Every recorded status is one the intent has left behind or still holds. */
  ghost predicate HistoryBehind(db: Db) {
    forall i | 0 <= i < |db.history| ::
      db.history[i].intentId in db.rows && Reaches(db.history[i].newStatus, db.rows[db.history[i].intentId].status)
  }

  /** Each history row the script inserts carries the status its intent has at that moment. */
  ghost predicate Honest(tx: Tx, script: seq<Stmt>)
    decreases |script|
  {
    script != [] && Exec(tx, script[0]).Ok? ==>
      && (script[0].InsertHistory? ==> tx.db.rows[script[0].h.intentId].status == script[0].h.newStatus)
      && Honest(Exec(tx, script[0]).value, script[1..])
  }

  /** Does this statement really change the status of an intent, or create one? */
  predicate RealChange(tx: Tx, stmt: Stmt) {
    match stmt
    case InsertIntent(_) => true
    case UpdateIntent(id, status, _, _, _) => id in tx.db.rows && tx.db.rows[id].status != status
    case InsertHistory(_) => false
  }

  function ChangedIntent(stmt: Stmt): (Id, Status)
    requires !stmt.InsertHistory?
  {
    match stmt
    case InsertIntent(row) => (row.id, row.status)
    case UpdateIntent(id, status, _, _, _) => (id, status)
  }

  ghost predicate Inserts(script: seq<Stmt>, id: Id, status: Status) {
    exists j :: 0 <= j < |script| && script[j].InsertHistory?
                && script[j].h.intentId == id && script[j].h.newStatus == status
  }

  lemma HonestStatementKeepsBehind(tx: Tx, stmt: Stmt)
    requires HistoryBehind(tx.db) && Exec(tx, stmt).Ok? && Honest(tx, [stmt])
    ensures HistoryBehind(Exec(tx, stmt).value.db)
  {
    var next := Exec(tx, stmt).value.db;
    if stmt.UpdateIntent? && tx.db.rows[stmt.id].status != stmt.status {
      TablesAgree(tx.db.rows[stmt.id].status, stmt.status);
      TransitionsAreAcyclic(tx.db.rows[stmt.id].status, stmt.status);
      forall i | 0 <= i < |next.history| && next.history[i].intentId == stmt.id
        ensures Reaches(next.history[i].newStatus, stmt.status)
      {
        ReachesTransitive(next.history[i].newStatus, tx.db.rows[stmt.id].status, stmt.status);
      }
    }
  }

  /** A statement makes a status held only by inserting its row. */
  lemma StatementAppends(tx: Tx, stmt: Stmt, id: Id, status: Status)
    requires Exec(tx, stmt).Ok?
    ensures tx.deferred <= Exec(tx, stmt).value.deferred
    ensures Held(Exec(tx, stmt).value.db.history, id, status) && !Held(tx.db.history, id, status)
            ==> stmt.InsertHistory? && stmt.h.intentId == id && stmt.h.newStatus == status
  {
    var next := Exec(tx, stmt).value;
    if Held(next.db.history, id, status) && !Held(tx.db.history, id, status) {
      var i :| 0 <= i < |next.db.history| && next.db.history[i].intentId == id
               && next.db.history[i].newStatus == status;
      if i < |tx.db.history| {
        assert tx.db.history[i] == next.db.history[i];
      }
    }
  }

  /** What a script adds to the history and to the queue of deferred checks. */
  lemma {:induction false} ScriptAppends(tx: Tx, script: seq<Stmt>, id: Id, status: Status)
    requires ExecAll(tx, script).Ok?
    ensures tx.deferred <= ExecAll(tx, script).value.deferred
    ensures Held(ExecAll(tx, script).value.db.history, id, status)
            ==> Held(tx.db.history, id, status) || Inserts(script, id, status)
    decreases |script|
  {
    if script != [] {
      StatementAppends(tx, script[0], id, status);
      hide Held;
      ScriptAppends(Exec(tx, script[0]).value, script[1..], id, status);
      if Inserts(script[1..], id, status) {
        var j :| 0 <= j < |script[1..]| && script[1..][j].InsertHistory?
                 && script[1..][j].h.intentId == id && script[1..][j].h.newStatus == status;
        assert script[j + 1] == script[1..][j];
      }
    }
  }

  /** A status an intent is about to take up is one its honest history has never shown. */
  lemma NewStatusIsUnrecorded(tx: Tx, stmt: Stmt)
    requires HistoryBehind(tx.db) && Exec(tx, stmt).Ok? && RealChange(tx, stmt)
    ensures !Held(tx.db.history, ChangedIntent(stmt).0, ChangedIntent(stmt).1)
  {
    if stmt.UpdateIntent? {
      TablesAgree(tx.db.rows[stmt.id].status, stmt.status);
      TransitionsAreAcyclic(tx.db.rows[stmt.id].status, stmt.status);
    }
  }

  /** The state reached just before statement `i`. */
  function Before(tx: Tx, script: seq<Stmt>, i: nat): Tx
    requires i <= |script| && ExecAll(tx, script).Ok?
    decreases i
  {
    if i == 0 then tx else Before(Exec(tx, script[0]).value, script[1..], i - 1)
  }

  lemma {:induction false} ChangeNeedsItsRowWithin(tx: Tx, script: seq<Stmt>, i: nat)
    requires HistoryBehind(tx.db) && Honest(tx, script) && i < |script|
    requires ExecAll(tx, script).Ok? && Commit(ExecAll(tx, script).value).Ok?
    requires RealChange(Before(tx, script, i), script[i])
    ensures Inserts(script[i + 1..], ChangedIntent(script[i]).0, ChangedIntent(script[i]).1)
    decreases i
  {
    var next := Exec(tx, script[0]).value;
    if i == 0 {
      var (id, status) := ChangedIntent(script[0]);
      NewStatusIsUnrecorded(tx, script[0]);
      ScriptAppends(next, script[1..], id, status);
      var last := ExecAll(tx, script).value;
      assert next.deferred[|tx.deferred|] == (id, status);
      assert last.deferred[|tx.deferred|] == (id, status);
      assert Held(last.db.history, last.deferred[|tx.deferred|].0, last.deferred[|tx.deferred|].1);
    } else {
      HonestStatementKeepsBehind(tx, script[0]);
      ChangeNeedsItsRowWithin(next, script[1..], i - 1);
      assert script[1..][i..] == script[i + 1..];
    }
  }

  lemma {:induction false} HonestScriptKeepsBehind(tx: Tx, script: seq<Stmt>)
    requires HistoryBehind(tx.db) && Honest(tx, script) && ExecAll(tx, script).Ok?
    ensures HistoryBehind(ExecAll(tx, script).value.db)
    decreases |script|
  {
    if script != [] {
      HonestStatementKeepsBehind(tx, script[0]);
      HonestScriptKeepsBehind(Exec(tx, script[0]).value, script[1..]);
    }
  }

  /** The state after the first `n` of a sequence of transactions, committed or aborted. */
  function AfterAll(db: Db, scripts: seq<seq<Stmt>>, n: nat): Db
    requires n <= |scripts|
  {
    if n == 0 then db else After(AfterAll(db, scripts, n - 1), scripts[n - 1])
  }

  ghost predicate HonestRun(db: Db, scripts: seq<seq<Stmt>>) {
    forall n | 0 <= n < |scripts| :: Honest(Tx(AfterAll(db, scripts, n), []), scripts[n])
  }

  lemma {:induction false} HonestRunKeepsBehind(scripts: seq<seq<Stmt>>, n: nat)
    requires HonestRun(EMPTY, scripts) && n <= |scripts|
    ensures HistoryBehind(AfterAll(EMPTY, scripts, n))
  {
    hide IsUuid;
    hide Exec;
    if n > 0 {
      HonestRunKeepsBehind(scripts, n - 1);
      var db := AfterAll(EMPTY, scripts, n - 1);
      if Transact(db, scripts[n - 1]).Ok? {
        assert Honest(Tx(db, []), scripts[n - 1]);
        HonestScriptKeepsBehind(Tx(db, []), scripts[n - 1]);
      }
    }
  }

  /**
    Over any run of transactions made of any statements, the deferred check is enough: each committed
    transaction that creates an intent or really changes a status inserts, after the change, a history row
    of its own for that intent and that status.
   */
  lemma EveryChangeCarriesItsRow(scripts: seq<seq<Stmt>>, n: nat, i: nat)
    requires HonestRun(EMPTY, scripts) && n < |scripts| && i < |scripts[n]|
    requires Transact(AfterAll(EMPTY, scripts, n), scripts[n]).Ok?
    requires RealChange(Before(Tx(AfterAll(EMPTY, scripts, n), []), scripts[n], i), scripts[n][i])
    ensures Inserts(scripts[n][i + 1..], ChangedIntent(scripts[n][i]).0, ChangedIntent(scripts[n][i]).1)
  {
    HonestRunKeepsBehind(scripts, n);
    assert Honest(Tx(AfterAll(EMPTY, scripts, n), []), scripts[n]);
    ChangeNeedsItsRowWithin(Tx(AfterAll(EMPTY, scripts, n), []), scripts[n], i);
  }

  /**
    Without that honesty the check is weaker than its comment: a lone UPDATE that really changes a status
    commits exactly when it is a legal write and some earlier history row already names the new status.
   */
  lemma SilentChangeCommitsIff(db: Db, id: Id, status: Status, risk: RiskFields, at: Time, dbNow: Time)
    ensures Transact(db, [UpdateIntent(id, status, risk, at, dbNow)]).Ok?
            <==> Exec(Tx(db, []), UpdateIntent(id, status, risk, at, dbNow)).Ok? && Held(db.history, id, status)
  {
    var stmt := UpdateIntent(id, status, risk, at, dbNow);
    assert [stmt][1..] == [];
    if Exec(Tx(db, []), stmt).Ok? {
      var tx := Exec(Tx(db, []), stmt).value;
      assert ExecAll(Tx(db, []), [stmt]) == Ok(tx);
      assert tx.deferred == [(id, status)];
      assert tx.deferred[0] == (id, status);
    }
  }

  const SAMPLE := Intent(Uuid('1'), Uuid('2'), "r", "k", 1, "COP", Qr, Pending, NO_RISK, Uuid('3'), 1, 0, 0)

  /** Nor is an INSERT enough by itself: it needs a history row of its status, and a new intent has none. */
  lemma LoneInsertCommitsIff(db: Db, row: Intent)
    ensures Transact(db, [InsertIntent(row)]).Ok?
            <==> Exec(Tx(db, []), InsertIntent(row)).Ok? && Held(db.history, row.id, row.status)
  {
    var stmt := InsertIntent(row);
    hide IsUuid;
    assert [stmt][1..] == [];
    if Exec(Tx(db, []), stmt).Ok? {
      var tx := Exec(Tx(db, []), stmt).value;
      assert ExecAll(Tx(db, []), [stmt]) == Ok(tx);
      assert tx.deferred == [(row.id, row.status)];
      assert tx.deferred[0] == (row.id, row.status);
    }
  }

  function SampleRow(status: Status): HistoryRow {
    HistoryRow(SAMPLE.id, None, status, "", "", SAMPLE.correlationId)
  }

  const SAMPLE_FIRST := [InsertIntent(SAMPLE), InsertHistory(SampleRow(Pending)), InsertHistory(SampleRow(Expired))]
  const SAMPLE_SECOND := [UpdateIntent(SAMPLE.id, Expired, NO_RISK, 2, 2)]

  /** A concrete run: an EXPIRED row slipped in while the intent is PENDING lets it expire unrecorded later. */
  lemma DishonestRowHidesAChange()
    ensures var scripts := [SAMPLE_FIRST, SAMPLE_SECOND];
            && Transact(EMPTY, SAMPLE_FIRST).Ok?
            && Transact(AfterAll(EMPTY, scripts, 1), SAMPLE_SECOND).Ok?
            && RealChange(Tx(AfterAll(EMPTY, scripts, 1), []), SAMPLE_SECOND[0])
            && !Inserts(SAMPLE_SECOND, SAMPLE.id, Expired)
            && !HonestRun(EMPTY, scripts)
  {
    var scripts := [SAMPLE_FIRST, SAMPLE_SECOND];
    var db := SampleFirstCommits();
    assert AfterAll(EMPTY, scripts, 0) == EMPTY;
    assert AfterAll(EMPTY, scripts, 1) == After(EMPTY, SAMPLE_FIRST) == db;
    SilentChangeCommitsIff(db, SAMPLE.id, Expired, NO_RISK, 2, 2);
    assert scripts[0] == SAMPLE_FIRST;
  }

  lemma SampleFirstCommits() returns (db: Db)
    ensures Transact(EMPTY, SAMPLE_FIRST) == Ok(db) && !Honest(Tx(EMPTY, []), SAMPLE_FIRST)
    ensures db.rows == map[SAMPLE.id := SAMPLE] && Held(db.history, SAMPLE.id, Expired)
    ensures Exec(Tx(db, []), SAMPLE_SECOND[0]).Ok?
  {
    PlainUuid('1', 0);
    PlainUuid('2', 0);
    PlainUuid('3', 0);
    hide IsUuid;
    var a, b, c := SAMPLE_FIRST[0], SAMPLE_FIRST[1], SAMPLE_FIRST[2];
    var t0 := Tx(EMPTY, []);
    var t1 := Exec(t0, a).value;
    var t2 := Exec(t1, b).value;
    var t3 := Exec(t2, c).value;
    assert SAMPLE_FIRST[1..] == [b, c] && [b, c][1..] == [c] && [c][1..] == [];
    assert ExecAll(t3, []) == Ok(t3);
    assert ExecAll(t2, [c]) == Ok(t3);
    assert ExecAll(t1, [b, c]) == Ok(t3);
    assert ExecAll(t0, SAMPLE_FIRST) == Ok(t3);
    assert t3.deferred == [(SAMPLE.id, Pending)] && t3.db.history[0].newStatus == Pending;
    assert t3.db.history[1].newStatus == Expired;
    assert !Honest(t2, [c]);
    assert !Honest(t1, [b, c]);
    assert !Honest(t0, SAMPLE_FIRST);
    db := t3.db;
  }
}
