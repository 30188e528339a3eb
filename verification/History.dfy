/** The history of one intent, read as a walk through the transition graph. */
module History {
  import opened Wrappers
  import opened Domain
  import opened Schema

  /** The rows of one intent, in the order they were committed. */
  function HistoryOf(history: seq<HistoryRow>, id: Id): seq<HistoryRow>
    decreases |history|
  {
    if history == [] then []
    else
      var last := |history| - 1;
      HistoryOf(history[..last], id) + (if history[last].intentId == id then [history[last]] else [])
  }

  lemma HistoryOfAppend(history: seq<HistoryRow>, h: HistoryRow, id: Id)
    ensures HistoryOf(history + [h], id) == HistoryOf(history, id) + (if h.intentId == id then [h] else [])
  {
    assert (history + [h])[..|history|] == history;
  }

  ghost predicate Shows(walk: seq<HistoryRow>, upTo: nat, status: Status)
    requires upTo <= |walk|
  {
    exists j :: 0 <= j < upTo && walk[j].newStatus == status
  }

  ghost predicate StaysOrMoves(s: Status, t: Status) {
    s == t || CanTransitionTo(s, t)
  }

  /** Row `i` moves or stays, and claims a previous status really held earlier from which its new one is legal. */
  ghost predicate WalkStep(walk: seq<HistoryRow>, i: nat)
    requires 0 < i < |walk|
  {
    && StaysOrMoves(walk[i - 1].newStatus, walk[i].newStatus)
    && walk[i].previous.Some?
    && StaysOrMoves(walk[i].previous.value, walk[i].newStatus)
    && Shows(walk, i, walk[i].previous.value)
  }

  /** A stuttering walk from PENDING to `status`; a claimed previous status need not be the one just before. */
  ghost predicate Walk(walk: seq<HistoryRow>, status: Status) {
    && |walk| > 0
    && walk[0].previous == None && walk[0].newStatus == Pending
    && walk[|walk| - 1].newStatus == status
    && forall i | 0 < i < |walk| :: WalkStep(walk, i)
  }

  /** The rows at which the recorded status really differs from the one before. */
  function RealChanges(walk: seq<HistoryRow>): nat
    decreases |walk|
  {
    if |walk| < 2 then 0
    else
      var last := |walk| - 1;
      RealChanges(walk[..last]) + (if walk[last].newStatus != walk[last - 1].newStatus then 1 else 0)
  }

  lemma {:induction false} WalkPrefix(walk: seq<HistoryRow>, status: Status, n: nat)
    requires Walk(walk, status) && 0 < n <= |walk|
    ensures Walk(walk[..n], walk[n - 1].newStatus)
  {
    var p := walk[..n];
    forall i | 0 < i < n
      ensures WalkStep(p, i)
    {
      assert WalkStep(walk, i);
      var j :| 0 <= j < i && walk[j].newStatus == walk[i].previous.value;
      assert p[j].newStatus == p[i].previous.value;
    }
  }

  lemma {:induction false} RealChangesAtMostRank(walk: seq<HistoryRow>, status: Status)
    requires Walk(walk, status)
    ensures RealChanges(walk) <= Rank(status) <= 2
    decreases |walk|
  {
    if |walk| > 1 {
      var last := |walk| - 1;
      WalkPrefix(walk, status, last);
      RealChangesAtMostRank(walk[..last], walk[last - 1].newStatus);
      assert WalkStep(walk, last);
    }
  }

  /** Walks only grow by appending a row whose claims check out. */
  lemma WalkExtends(walk: seq<HistoryRow>, status: Status, h: HistoryRow)
    requires Walk(walk, status) && StaysOrMoves(status, h.newStatus)
    requires h.previous.Some? && StaysOrMoves(h.previous.value, h.newStatus)
    requires Shows(walk, |walk|, h.previous.value)
    ensures Walk(walk + [h], h.newStatus)
  {
    var next := walk + [h];
    forall i | 0 < i < |next|
      ensures WalkStep(next, i)
    {
      assert i < |walk| ==> WalkStep(walk, i);
      var j :| 0 <= j < i && walk[j].newStatus == next[i].previous.value;
      assert next[j] == walk[j];
    }
  }

  lemma {:induction false} HeldIsShown(history: seq<HistoryRow>, id: Id, status: Status)
    ensures Held(history, id, status) <==> Shows(HistoryOf(history, id), |HistoryOf(history, id)|, status)
    decreases |history|
  {
    if history != [] {
      var last := |history| - 1;
      var rest, walk := HistoryOf(history[..last], id), HistoryOf(history, id);
      HeldIsShown(history[..last], id, status);
      if Held(history, id, status) {
        var i :| 0 <= i < |history| && history[i].intentId == id && history[i].newStatus == status;
        if i < last {
          assert history[..last][i] == history[i];
          var j :| 0 <= j < |rest| && rest[j].newStatus == status;
          assert walk[j] == rest[j];
        } else {
          assert walk[|rest|] == history[last];
        }
      }
      if Shows(walk, |walk|, status) {
        var j :| 0 <= j < |walk| && walk[j].newStatus == status;
        if j < |rest| {
          assert rest[j] == walk[j];
          var i :| 0 <= i < last && history[..last][i].intentId == id && history[..last][i].newStatus == status;
          assert history[i].intentId == id;
        } else {
          assert history[last].intentId == id;
        }
      }
    }
  }

  /** Every intent's history walks to its current status. */
  ghost predicate Walks(db: Db) {
    forall id | id in db.rows :: Walk(HistoryOf(db.history, id), db.rows[id].status)
  }

  lemma {:induction false} NoHistoryOfUnknown(history: seq<HistoryRow>, id: Id)
    requires forall i | 0 <= i < |history| :: history[i].intentId != id
    ensures HistoryOf(history, id) == []
    decreases |history|
  {
    if history != [] {
      NoHistoryOfUnknown(history[..|history| - 1], id);
    }
  }
}
