/** The PostgreSQL repositories and the unit of work of core-api, over one mutable store. */
module Store {
  import opened Wrappers
  import opened Domain
  import opened Schema
  import opened UseCases

  class PaymentStore {
    var rows: map<Id, Intent>
    var history: seq<HistoryRow>
    var deferred: seq<(Id, Status)>

    constructor ()
      ensures Db() == EMPTY && Consistent(Db())
    {
      rows, history, deferred := map[], [], [];
    }

    function Db(): Db
      reads this
    {
      Schema.Db(rows, history)
    }

    function OpenTx(): Tx
      reads this
    {
      Tx(Db(), deferred)
    }

    // ---- Repository statements, inside a transaction ----

    method CreateIntent(pi: Intent) returns (error: Option<SqlError>)
      modifies this`rows, this`deferred
      ensures error.None? ==> Exec(old(OpenTx()), InsertIntent(pi)) == Ok(OpenTx())
      ensures error.Some? ==> Exec(old(OpenTx()), InsertIntent(pi)) == Err(error.value) && OpenTx() == old(OpenTx())
    {
      if !WellTyped(pi) {
        return Some(InvalidText);
      }
      if !RowChecks(pi) {
        return Some(CheckViolation);
      }
      if Duplicates(rows, pi) {
        return Some(UniqueViolation);
      }
      rows := rows[pi.id := pi];
      deferred := deferred + [(pi.id, pi.status)];
      return None;
    }

    /** Overwrites the mutable columns with whatever the use case holds; the trigger judges the stored status. */
    method UpdateIntent(pi: Intent, dbNow: Time) returns (error: Option<SqlError>)
      modifies this`rows, this`deferred
      ensures var stmt := Stmt.UpdateIntent(pi.id, pi.status, pi.risk, pi.updatedAt, dbNow);
              && (error.None? ==> Exec(old(OpenTx()), stmt) == Ok(OpenTx()))
              && (error.Some? ==> Exec(old(OpenTx()), stmt) == Err(error.value) && OpenTx() == old(OpenTx()))
    {
      if pi.id !in rows {
        return Some(NoRow);
      }
      var stored := rows[pi.id];
      var wanted := stored.(status := pi.status, risk := pi.risk, updatedAt := pi.updatedAt);
      if !WellTyped(wanted) {
        return Some(InvalidText);
      }
      if wanted.status != stored.status {
        if (stored.status, wanted.status) !in TRANSITION_ROWS {
          return Some(CheckViolation);
        }
        wanted := wanted.(updatedAt := dbNow);
      }
      if !RowChecks(wanted) {
        return Some(CheckViolation);
      }
      rows := rows[pi.id := wanted];
      deferred := deferred + [(pi.id, pi.status)];
      return None;
    }

    method CreateHistory(h: HistoryRow) returns (error: Option<SqlError>)
      modifies this`history
      ensures error.None? ==> Exec(old(OpenTx()), InsertHistory(h)) == Ok(OpenTx())
      ensures error.Some? ==> Exec(old(OpenTx()), InsertHistory(h)) == Err(error.value) && OpenTx() == old(OpenTx())
    {
      if !WellTypedHistory(h) {
        return Some(InvalidText);
      }
      if h.intentId !in rows {
        return Some(ForeignKeyViolation);
      }
      history := history + [h];
      return None;
    }

    /** The deferred constraint trigger, queued check by queued check. */
    method CommitTx() returns (error: Option<SqlError>)
      ensures Commit(OpenTx()) == if error.None? then Ok(Db()) else Err(error.value)
    {
      for k := 0 to |deferred|
        invariant forall j | 0 <= j < k :: Held(history, deferred[j].0, deferred[j].1)
      {
        if !Held(history, deferred[k].0, deferred[k].1) {
          return Some(RestrictViolation);
        }
      }
      return None;
    }

    // ---- Unit of work ----

    /** Row and history in one transaction: both are stored, or neither. */
    method ExecuteUpdate(w: Write, dbNow: Time) returns (error: Option<AppError>)
      modifies this
      ensures error.None? ==> Execute(old(Db()), UpdateScript(w, dbNow)) == Ok(Db())
      ensures error.Some? ==> Execute(old(Db()), UpdateScript(w, dbNow)) == Err(error.value) && Db() == old(Db())
    {
      ghost var script := UpdateScript(w, dbNow);
      assert script[1..] == [script[1]] && script[1..][1..] == [];
      var savedRows, savedHistory := rows, history;
      deferred := [];
      var failure := UpdateIntent(w.pi, dbNow);
      if failure.None? {
        ghost var middle := OpenTx();
        failure := CreateHistory(
          HistoryRow(w.pi.id, Some(w.previous), w.pi.status, w.reason, w.changedBy, w.pi.correlationId));
        assert ExecAll(middle, script[1..]) == if failure.None? then Ok(OpenTx()) else Err(failure.value);
        if failure.None? {
          failure := CommitTx();
        }
      }
      if failure.Some? {
        rows, history := savedRows, savedHistory;
        return Some(ErrorOf(failure.value));
      }
      return None;
    }

    method ExecuteInsert(pi: Intent, actor: string) returns (error: Option<AppError>)
      modifies this
      ensures error.None? ==> Execute(old(Db()), InsertScript(pi, actor)) == Ok(Db())
      ensures error.Some? ==> Execute(old(Db()), InsertScript(pi, actor)) == Err(error.value) && Db() == old(Db())
    {
      ghost var script := InsertScript(pi, actor);
      assert script[1..] == [script[1]] && script[1..][1..] == [];
      var savedRows, savedHistory := rows, history;
      deferred := [];
      var failure := CreateIntent(pi);
      if failure.None? {
        ghost var middle := OpenTx();
        failure := CreateHistory(HistoryRow(pi.id, None, pi.status, REASON_CREATED, actor, pi.correlationId));
        assert ExecAll(middle, script[1..]) == if failure.None? then Ok(OpenTx()) else Err(failure.value);
        if failure.None? {
          failure := CommitTx();
        }
      }
      if failure.Some? {
        rows, history := savedRows, savedHistory;
        return Some(ErrorOf(failure.value));
      }
      return None;
    }

    // ---- Reads ----

    method GetByIdempotencyKey(key: string) returns (found: Option<Intent>)
      requires Consistent(Db())
      ensures found == ByKey(Db(), key)
    {
      if exists id | id in rows :: rows[id].idempotencyKey == key {
        var id :| id in rows && rows[id].idempotencyKey == key;
        return Some(rows[id]);
      }
      return None;
    }

    // ---- Everyone else ----

    /**
      What other requests, consumers and workers do between two statements of a use case: any number of
      transactions, each inserting or rewriting anything at all.
     */
    method Others()
      requires Consistent(Db())
      modifies this
      ensures Consistent(Db()) && Evolves(old(Db()), Db())
    {
      var n: nat :| true;
      for i := 0 to n
        invariant Consistent(Db()) && Evolves(old(Db()), Db())
      {
        ghost var before := Db();
        var w: Write, pi: Intent, actor: string, dbNow: Time := *, *, *, *;
        if * {
          var error := ExecuteUpdate(w, dbNow);
          if error.None? {
            ExecuteEvolves(before, UpdateScript(w, dbNow));
          }
        } else {
          var error := ExecuteInsert(pi, actor);
          if error.None? {
            ExecuteEvolves(before, InsertScript(pi, actor));
          }
        }
        if before != Db() {
          EvolvesTransitive(old(Db()), before, Db());
        }
      }
    }
  }
}
