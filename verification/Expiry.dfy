/** What the reconciliation worker sees of an intent, and when it takes it for expired. */
module Expiry {
  import opened Wrappers
  import opened Domain
  import opened Schema

  /** The API prints instants with whole seconds. */
  function Truncate(t: Time): (r: Time)
    ensures r <= t < r + SECOND
  {
    t - t % SECOND
  }

  datatype PaymentIntentView = PaymentIntentView(
    id: Id, status: Status, createdAt: Time, expiresAt: Time, correlationId: Id)

  function ViewOf(row: Intent): PaymentIntentView {
    PaymentIntentView(row.id, row.status, Truncate(row.createdAt), Truncate(row.expiresAt), row.correlationId)
  }

  predicate IsExpired(v: PaymentIntentView, now: Time, overrideMinutes: Option<int>) {
    if !Open(v.status) then false
    else if overrideMinutes.Some? then now - v.createdAt >= overrideMinutes.value * MINUTE
    else now >= v.expiresAt
  }

  function FilterExpired(vs: seq<PaymentIntentView>, now: Time, overrideMinutes: Option<int>)
    : (r: seq<PaymentIntentView>)
    ensures forall v :: v in r <==> v in vs && IsExpired(v, now, overrideMinutes)
  {
    if vs == [] then []
    else (if IsExpired(vs[0], now, overrideMinutes) then [vs[0]] else []) + FilterExpired(vs[1..], now, overrideMinutes)
  }

  /** Expiry asks nothing of the status beyond being open, and the columns it reads never change. */
  lemma ExpiryFollowsIdentity(a: Intent, b: Intent, now: Time, overrideMinutes: Option<int>)
    requires SameIdentity(a, b) && Open(a.status) && Open(b.status)
    ensures IsExpired(ViewOf(a), now, overrideMinutes) == IsExpired(ViewOf(b), now, overrideMinutes)
  {
  }

  /** Only an open intent is ever taken for expired. */
  lemma OnlyOpenExpire(v: PaymentIntentView, now: Time, overrideMinutes: Option<int>)
    requires IsExpired(v, now, overrideMinutes)
    ensures v.status == Pending || v.status == UnderReview
  {
  }

  /** When an intent is due by the stored row: at its expiry or, in the demo, some minutes after its creation. */
  function Deadline(row: Intent, overrideMinutes: Option<int>): Time {
    match overrideMinutes
    case None => row.expiresAt
    case Some(minutes) => row.createdAt + minutes * 60 * 1_000_000
  }

  /** Judged on truncated instants, an intent is never missed, and never taken a whole second early. */
  lemma NeverASecondEarly(row: Intent, now: Time, overrideMinutes: Option<int>)
    requires Open(row.status)
    ensures now >= Deadline(row, overrideMinutes) ==> IsExpired(ViewOf(row), now, overrideMinutes)
    ensures IsExpired(ViewOf(row), now, overrideMinutes) ==> Deadline(row, overrideMinutes) < now + 1_000_000
  {
  }

  // ---- Pages ----

  predicate HasStatus(db: Db, id: Id, status: Status) {
    id in db.rows && db.rows[id].status == status
  }

  function WithStatus(db: Db, status: Status): set<Id> {
    set id | id in db.rows && db.rows[id].status == status
  }

  ghost predicate Listed(items: seq<Intent>, id: Id) {
    exists k :: 0 <= k < |items| && items[k].id == id
  }

  /** Every matching row exactly once, newest first. */
  ghost predicate Listing(db: Db, status: Status, all: seq<Intent>) {
    && (forall k | 0 <= k < |all| :: all[k].id in WithStatus(db, status) && all[k] == db.rows[all[k].id])
    && (forall j, k | 0 <= j < k < |all| :: all[j].id != all[k].id && all[j].createdAt >= all[k].createdAt)
    && (forall id | id in WithStatus(db, status) :: Listed(all, id))
  }

  function AtMost(n: int, max: nat): nat {
    if n < 0 then 0 else if n > max then max else n
  }

  lemma PageBounds(page: nat, limit: nat, max: nat)
    requires page > 0
    ensures AtMost((page - 1) * limit, max) <= AtMost(page * limit, max) <= max
  {
    assert page * limit == (page - 1) * limit + limit;
  }

  /** One page of that listing; pages count from 1. */
  ghost predicate IsPage(db: Db, status: Status, page: nat, limit: nat, items: seq<Intent>)
    requires page > 0
  {
    exists all: seq<Intent> ::
      Listing(db, status, all) && items == all[AtMost((page - 1) * limit, |all|)..AtMost(page * limit, |all|)]
  }

  /** How many rows come on the pages before this one. */
  function RowsBefore(page: nat, limit: nat): nat
    requires page > 0
  {
    (page - 1) * limit
  }

  lemma NextPage(page: nat, limit: nat)
    requires page > 0
    ensures page * limit == RowsBefore(page, limit) + limit
  {
  }

  /** Page after page the listing comes out in order, `limit` rows at a time, each row on one page. */
  lemma PageHolds(db: Db, status: Status, page: nat, limit: nat, items: seq<Intent>) returns (all: seq<Intent>)
    requires page > 0 && IsPage(db, status, page, limit, items)
    ensures PageFrom(db, status, all, RowsBefore(page, limit), limit, items)
  {
    all :|
      Listing(db, status, all) && items == all[AtMost((page - 1) * limit, |all|)..AtMost(page * limit, |all|)];
    PageBounds(page, limit, |all|);
    NextPage(page, limit);
    var start := RowsBefore(page, limit);
    assert items == all[AtMost(start, |all|)..AtMost(start + limit, |all|)];
    hide AtMost;
    hide RowsBefore;
    SliceHolds(all, start, limit, items);
  }

  ghost predicate PageFrom(db: Db, status: Status, all: seq<Intent>, start: nat, limit: nat, items: seq<Intent>) {
    Listing(db, status, all) && HoldsFrom(all, start, limit, items)
  }

  /** `limit` rows from position `start` on, fewer only at the end of the listing. */
  ghost predicate HoldsFrom(all: seq<Intent>, start: nat, limit: nat, items: seq<Intent>) {
    && |items| <= limit && (|items| < limit ==> start + |items| >= |all|)
    && forall k | 0 <= k < |items| :: RowAt(all, start + k, items[k])
  }

  lemma SliceHolds(all: seq<Intent>, start: nat, limit: nat, items: seq<Intent>)
    requires AtMost(start, |all|) <= AtMost(start + limit, |all|)
    requires items == all[AtMost(start, |all|)..AtMost(start + limit, |all|)]
    ensures HoldsFrom(all, start, limit, items)
  {
  }

  predicate RowAt(all: seq<Intent>, position: int, row: Intent) {
    0 <= position < |all| && all[position] == row
  }

  lemma {:induction false} DistinctIds(items: seq<Intent>)
    requires forall j, k | 0 <= j < k < |items| :: items[j].id != items[k].id
    ensures |set k | 0 <= k < |items| :: items[k].id| == |items|
    decreases |items|
  {
    if items != [] {
      var front := items[..|items| - 1];
      DistinctIds(front);
      var all, some := set k | 0 <= k < |items| :: items[k].id, set k | 0 <= k < |front| :: front[k].id;
      var last := items[|items| - 1].id;
      assert forall k | 0 <= k < |front| :: front[k].id == items[k].id;
      assert all == some + {last};
      assert last !in some;
    }
  }

  lemma ListingSize(db: Db, status: Status, all: seq<Intent>)
    requires Listing(db, status, all)
    ensures |all| == |WithStatus(db, status)|
  {
    DistinctIds(all);
    assert (set k | 0 <= k < |all| :: all[k].id) == WithStatus(db, status);
  }

  /**
    The first page misses nothing exactly when the status holds no more intents than fit on it; a page that is not
    full shows that it does.
   */
  lemma PageIsCompleteIff(db: Db, status: Status, limit: nat, items: seq<Intent>)
    requires IsPage(db, status, 1, limit, items)
    ensures (forall id | id in WithStatus(db, status) :: Listed(items, id))
            <==> |WithStatus(db, status)| <= limit
    ensures |items| == AtMost(|WithStatus(db, status)|, limit)
  {
    var all: seq<Intent> :| Listing(db, status, all) && items == all[0..AtMost(limit, |all|)];
    ListingSize(db, status, all);
    if |all| <= limit {
      assert items == all;
    } else {
      var missed := all[limit].id;
      assert missed in WithStatus(db, status);
      assert forall k | 0 <= k < |items| :: items[k] == all[k];
      assert !Listed(items, missed);
    }
  }

  lemma PageRowsAreStored(db: Db, status: Status, limit: nat, items: seq<Intent>)
    requires IsPage(db, status, 1, limit, items)
    ensures forall k | 0 <= k < |items| :: items[k].id in WithStatus(db, status) && items[k] == db.rows[items[k].id]
  {
    var all: seq<Intent> :| Listing(db, status, all) && items == all[0..AtMost(limit, |all|)];
  }

  lemma {:induction false} NewestExists(rows: map<Id, Intent>, ids: set<Id>)
    requires ids != {} && ids <= rows.Keys
    ensures exists id :: id in ids && forall other | other in ids :: rows[id].createdAt >= rows[other].createdAt
    decreases |ids|
  {
    var id :| id in ids;
    var rest := ids - {id};
    assert ids == rest + {id};
    if rest == {} {
      assert forall other | other in ids :: rows[id].createdAt >= rows[other].createdAt;
    } else {
      NewestExists(rows, rest);
      var best :| best in rest && forall other | other in rest :: rows[best].createdAt >= rows[other].createdAt;
      var newest := if rows[id].createdAt >= rows[best].createdAt then id else best;
      assert newest in ids && forall other | other in ids :: rows[newest].createdAt >= rows[other].createdAt;
    }
  }

  /** `all` lists, newest first, the intents with the status that are not in `left`, and none of `left` is newer. */
  ghost predicate Partial(db: Db, status: Status, all: seq<Intent>, left: set<Id>) {
    && left <= WithStatus(db, status)
    && (forall k | 0 <= k < |all| ::
          all[k].id in WithStatus(db, status) && all[k].id !in left && all[k] == db.rows[all[k].id])
    && (forall j, k | 0 <= j < k < |all| :: all[j].id != all[k].id && all[j].createdAt >= all[k].createdAt)
    && (forall id | id in WithStatus(db, status) && id !in left :: Listed(all, id))
    && (forall k, id | 0 <= k < |all| && id in left :: all[k].createdAt >= db.rows[id].createdAt)
  }

  lemma PartialGrows(db: Db, status: Status, all: seq<Intent>, left: set<Id>, id: Id)
    requires UniqueKeys(db.rows) && Partial(db, status, all, left) && id in left
    requires forall other | other in left :: db.rows[id].createdAt >= db.rows[other].createdAt
    ensures Partial(db, status, all + [db.rows[id]], left - {id})
  {
    var more := all + [db.rows[id]];
    assert more[|all|].id == id;
    forall other | other in WithStatus(db, status) && other !in left - {id}
      ensures Listed(more, other)
    {
      if other != id {
        assert Listed(all, other);
        var k :| 0 <= k < |all| && all[k].id == other;
        assert more[k].id == other;
      }
    }
  }

  /** ORDER BY created_at DESC over the intents with one status. */
  method NewestFirst(db: Db, status: Status) returns (all: seq<Intent>)
    requires UniqueKeys(db.rows)
    ensures Listing(db, status, all)
  {
    all := [];
    var left := WithStatus(db, status);
    while left != {}
      invariant Partial(db, status, all, left)
      decreases |left|
    {
      NewestExists(db.rows, left);
      var id :| id in left && forall other | other in left :: db.rows[id].createdAt >= db.rows[other].createdAt;
      PartialGrows(db, status, all, left, id);
      all := all + [db.rows[id]];
      left := left - {id};
    }
  }
}
