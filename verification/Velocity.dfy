/** The in-memory sliding window of risk-service, checked against the full log of what it was told. */
module Velocity {
  import opened Wrappers
  import opened Domain

  datatype Seen = Seen(merchant: Id, intent: Id, at: Time)

  /** When the log last saw this intent of this merchant. */
  function Latest(log: seq<Seen>, merchant: Id, intent: Id): Option<Time>
    decreases |log|
  {
    if log == [] then None
    else
      var last := log[|log| - 1];
      if last.merchant == merchant && last.intent == intent then Some(last.at)
      else Latest(log[..|log| - 1], merchant, intent)
  }

  predicate Recent(log: seq<Seen>, merchant: Id, intent: Id, now: Time, window: Time) {
    Latest(log, merchant, intent).Some? && Latest(log, merchant, intent).value > now - window
  }

  /** The distinct intents of a merchant whose latest record is inside the window; nothing is ever forgotten. */
  function InWindow(log: seq<Seen>, merchant: Id, now: Time, window: Time): set<Id> {
    set k | 0 <= k < |log| && Recent(log, merchant, log[k].intent, now, window) :: log[k].intent
  }

  lemma {:induction false} LatestIsLogged(log: seq<Seen>, merchant: Id, intent: Id)
    requires Latest(log, merchant, intent).Some?
    ensures exists k :: 0 <= k < |log| && log[k] == Seen(merchant, intent, Latest(log, merchant, intent).value)
    decreases |log|
  {
    var last := |log| - 1;
    if log[last].merchant != merchant || log[last].intent != intent {
      LatestIsLogged(log[..last], merchant, intent);
      var k :| 0 <= k < last && log[..last][k] == Seen(merchant, intent, Latest(log, merchant, intent).value);
      assert log[k] == log[..last][k];
    }
  }

  lemma InWindowIsRecent(log: seq<Seen>, merchant: Id, now: Time, window: Time)
    ensures forall i :: i in InWindow(log, merchant, now, window) <==> Recent(log, merchant, i, now, window)
  {
    forall i | Recent(log, merchant, i, now, window)
      ensures i in InWindow(log, merchant, now, window)
    {
      LatestIsLogged(log, merchant, i);
    }
  }

  lemma LatestAppend(log: seq<Seen>, s: Seen)
    ensures forall m, i :: Latest(log + [s], m, i) ==
              if m == s.merchant && i == s.intent then Some(s.at) else Latest(log, m, i)
  {
    assert (log + [s])[..|log|] == log;
  }

  lemma EmptyWindow(merchant: Id, now: Time, window: Time)
    ensures InWindow([], merchant, now, window) == {}
  {
  }

  /**
    What the log says, record by record: the last record of an intent decides whether it counts, for as long as it is
    younger than the window.
   */
  lemma WindowAfterRecord(log: seq<Seen>, s: Seen, merchant: Id, intent: Id, now: Time, window: Time)
    ensures intent in InWindow(log + [s], merchant, now, window)
            <==> if s.merchant == merchant && s.intent == intent then now - s.at < window
                 else intent in InWindow(log, merchant, now, window)
  {
    LatestAppend(log, s);
    InWindowIsRecent(log, merchant, now, window);
    InWindowIsRecent(log + [s], merchant, now, window);
  }

  /** What is kept is current, and what is not kept has left the window. */
  ghost predicate Faithful(seen: map<Id, map<Id, Time>>, log: seq<Seen>, clock: Time, window: Time) {
    && (forall m, i | m in seen && i in seen[m] :: Latest(log, m, i) == Some(seen[m][i]))
    && (forall m, i :: Latest(log, m, i).Some? ==>
          (m in seen && i in seen[m]) || Latest(log, m, i).value <= clock - window)
  }

  ghost predicate NoneEmpty(seen: map<Id, map<Id, Time>>) {
    forall m | m in seen :: seen[m] != map[]
  }

  function Alive(entries: map<Id, Time>, cutoff: Time): map<Id, Time> {
    map i | i in entries && entries[i] > cutoff :: entries[i]
  }

  function Pruned(seen: map<Id, map<Id, Time>>, merchant: Id, cutoff: Time): map<Id, map<Id, Time>> {
    if merchant !in seen then seen
    else if Alive(seen[merchant], cutoff) != map[] then seen[merchant := Alive(seen[merchant], cutoff)]
    else seen - {merchant}
  }

  lemma PruneKeeps(seen: map<Id, map<Id, Time>>, log: seq<Seen>, clock: Time, window: Time, merchant: Id, now: Time)
    requires Faithful(seen, log, clock, window) && NoneEmpty(seen) && clock <= now
    ensures Faithful(Pruned(seen, merchant, now - window), log, now, window)
    ensures NoneEmpty(Pruned(seen, merchant, now - window))
  {
    var next := Pruned(seen, merchant, now - window);
    if merchant in seen {
      var alive := Alive(seen[merchant], now - window);
      forall m, i | Latest(log, m, i).Some?
        ensures (m in next && i in next[m]) || Latest(log, m, i).value <= now - window
      {
        if m == merchant && i in seen[m] && seen[m][i] > now - window {
          assert i in alive;
        }
      }
    }
  }

  lemma PruneShowsWindow(seen: map<Id, map<Id, Time>>, log: seq<Seen>, clock: Time, window: Time, merchant: Id,
                         now: Time)
    requires Faithful(seen, log, clock, window) && clock <= now
    ensures var next := Pruned(seen, merchant, now - window);
            InWindow(log, merchant, now, window) == if merchant in next then next[merchant].Keys else {}
  {
    var next := Pruned(seen, merchant, now - window);
    InWindowIsRecent(log, merchant, now, window);
    var kept := if merchant in next then next[merchant].Keys else {};
    if merchant in seen {
      var alive := Alive(seen[merchant], now - window);
      assert forall i :: i in alive <==> i in seen[merchant] && seen[merchant][i] > now - window;
      assert kept == alive.Keys;
    }
    forall i
      ensures i in kept <==> Recent(log, merchant, i, now, window)
    {
      if merchant in seen && i in seen[merchant] {
        assert Latest(log, merchant, i) == Some(seen[merchant][i]);
      }
    }
  }

  function Recorded(seen: map<Id, map<Id, Time>>, s: Seen): map<Id, map<Id, Time>> {
    var entries := if s.merchant in seen then seen[s.merchant] else map[];
    seen[s.merchant := entries[s.intent := s.at]]
  }

  lemma RecordKeeps(seen: map<Id, map<Id, Time>>, log: seq<Seen>, clock: Time, window: Time, s: Seen)
    requires Faithful(seen, log, clock, window) && NoneEmpty(seen) && clock <= s.at
    ensures Faithful(Recorded(seen, s), log + [s], s.at, window) && NoneEmpty(Recorded(seen, s))
  {
    LatestAppend(log, s);
    var next := Recorded(seen, s);
    assert s.intent in next[s.merchant];
    forall m, i | Latest(log + [s], m, i).Some?
      ensures (m in next && i in next[m]) || Latest(log + [s], m, i).value <= s.at - window
    {
      assert Latest(log, m, i).Some? || (m == s.merchant && i == s.intent);
    }
  }

  class SlidingWindowVelocity {
    const window: Time
    var seen: map<Id, map<Id, Time>>
    var clock: Time  // the last instant read from the process's monotonic clock
    ghost var log: seq<Seen>

    /** The map answers for the whole log, and no merchant is kept with nothing in it. */
    ghost predicate Valid()
      reads this
    {
      Faithful(seen, log, clock, window) && NoneEmpty(seen)
    }

    constructor (window: Time, now: Time)
      ensures Valid() && this.window == window && log == [] && clock == now
    {
      this.window := window;
      seen, log, clock := map[], [], now;
    }

    /** Called on every access, so memory follows the traffic of the window. */
    method Prune(merchant: Id, now: Time)
      requires Valid() && now >= clock
      modifies this`seen, this`clock
      ensures Valid() && clock == now
      ensures seen == Pruned(old(seen), merchant, now - window)
    {
      hide Faithful;
      hide NoneEmpty;
      hide Alive;
      PruneKeeps(seen, log, clock, window, merchant, now);
      clock := now;
      if merchant in seen {
        var cutoff := now - window;
        var alive := Alive(seen[merchant], cutoff);
        seen := if alive != map[] then seen[merchant := alive] else seen - {merchant};
      }
    }

    /** The answer is the one the unpruned log gives. */
    method Count(merchant: Id, now: Time) returns (n: nat)
      requires Valid() && now >= clock
      modifies this`seen, this`clock
      ensures Valid() && clock == now
      ensures n == |InWindow(log, merchant, now, window)|
    {
      PruneShowsWindow(seen, log, clock, window, merchant, now);
      Prune(merchant, now);
      return if merchant in seen then |seen[merchant]| else 0;
    }

    /** Idempotent per intent: a redelivery moves the intent's instant and adds no intent. */
    method Record(merchant: Id, intent: Id, prunedAt: Time, seenAt: Time)
      requires Valid() && clock <= prunedAt <= seenAt
      modifies this
      ensures Valid() && clock == seenAt
      ensures log == old(log) + [Seen(merchant, intent, seenAt)]
    {
      Prune(merchant, prunedAt);
      RecordKeeps(seen, log, clock, window, Seen(merchant, intent, seenAt));
      hide Faithful;
      log := log + [Seen(merchant, intent, seenAt)];
      clock := seenAt;
      var entries := if merchant in seen then seen[merchant] else map[];
      seen := seen[merchant := entries[intent := seenAt]];
    }
  }

  // ---- How many can slip through ----

  /** One evaluation: the window is counted first and the intent recorded after. */
  datatype Delivery = Delivery(merchant: Id, intent: Id, countedAt: Time, recordedAt: Time)

  function LogOf(deliveries: seq<Delivery>): seq<Seen> {
    seq(|deliveries|, k requires 0 <= k < |deliveries| =>
      Seen(deliveries[k].merchant, deliveries[k].intent, deliveries[k].recordedAt))
  }

  /** Evaluations run one at a time on a clock that never goes back. */
  ghost predicate OneAtATime(ds: seq<Delivery>) {
    && (forall k | 0 <= k < |ds| :: ds[k].countedAt <= ds[k].recordedAt)
    && (forall j, k | 0 <= j < k < |ds| :: ds[j].recordedAt <= ds[k].countedAt)
  }

  function CountAt(ds: seq<Delivery>, k: nat, window: Time): nat
    requires k < |ds|
  {
    |InWindow(LogOf(ds[..k]), ds[k].merchant, ds[k].countedAt, window)|
  }

  predicate FirstDelivery(ds: seq<Delivery>, k: nat)
    requires k < |ds|
  {
    forall j | 0 <= j < k :: ds[j].merchant != ds[k].merchant || ds[j].intent != ds[k].intent
  }

  /** First deliveries of a merchant, inside [start, start + window), that the velocity rule would not stop. */
  function Escapes(ds: seq<Delivery>, merchant: Id, window: Time, limit: int, start: Time): set<nat> {
    set k: nat | k < |ds| && ds[k].merchant == merchant && FirstDelivery(ds, k)
                 && start <= ds[k].countedAt < start + window && CountAt(ds, k, window) <= limit
  }

  lemma {:induction false} LatestAfter(ds: seq<Delivery>, j: nat, n: nat)
    requires j < n <= |ds| && OneAtATime(ds)
    ensures Latest(LogOf(ds[..n]), ds[j].merchant, ds[j].intent).Some?
    ensures Latest(LogOf(ds[..n]), ds[j].merchant, ds[j].intent).value >= ds[j].recordedAt
    decreases n
  {
    assert LogOf(ds[..n])[..n - 1] == LogOf(ds[..n - 1]);
    if j < n - 1 {
      LatestAfter(ds, j, n - 1);
    }
  }

  /** A delivery counts its own intent exactly when an earlier delivery of it was recorded inside the window. */
  lemma SelfCountedIff(ds: seq<Delivery>, k: nat, window: Time)
    requires k < |ds| && OneAtATime(ds)
    ensures ds[k].intent in InWindow(LogOf(ds[..k]), ds[k].merchant, ds[k].countedAt, window)
            <==> exists j :: 0 <= j < k && ds[j].merchant == ds[k].merchant && ds[j].intent == ds[k].intent
                             && ds[j].recordedAt > ds[k].countedAt - window
  {
    var log := LogOf(ds[..k]);
    InWindowIsRecent(log, ds[k].merchant, ds[k].countedAt, window);
    if Recent(log, ds[k].merchant, ds[k].intent, ds[k].countedAt, window) {
      LatestIsLogged(log, ds[k].merchant, ds[k].intent);
      var latest := Latest(log, ds[k].merchant, ds[k].intent).value;
      var j :| 0 <= j < |log| && log[j] == Seen(ds[k].merchant, ds[k].intent, latest);
      assert ds[j].intent == ds[k].intent;
    }
    if j :| 0 <= j < k && ds[j].merchant == ds[k].merchant && ds[j].intent == ds[k].intent
            && ds[j].recordedAt > ds[k].countedAt - window
    {
      LatestAfter(ds, j, k);
    }
  }

  lemma {:induction false} DistinctIntents(ds: seq<Delivery>, ks: set<nat>, merchant: Id)
    requires forall k | k in ks :: k < |ds| && ds[k].merchant == merchant && FirstDelivery(ds, k)
    ensures |set k | k in ks :: ds[k].intent| == |ks|
    decreases |ks|
  {
    if ks != {} {
      var k :| k in ks;
      var rest := ks - {k};
      DistinctIntents(ds, rest, merchant);
      var all, others := set x | x in ks :: ds[x].intent, set x | x in rest :: ds[x].intent;
      assert all == others + {ds[k].intent};
      assert ds[k].intent !in others;
    }
  }

  lemma SubsetSize<T>(a: set<T>, b: set<T>)
    requires a <= b
    ensures |a| <= |b|
  {
    assert b == a + (b - a);
  }

  lemma {:induction false} Greatest(ks: set<nat>) returns (top: nat)
    requires ks != {}
    ensures top in ks && forall k | k in ks :: k <= top
    decreases |ks|
  {
    top :| top in ks;
    if ks != {top} {
      assert ks == {top} + (ks - {top});
      var other := Greatest(ks - {top});
      if other > top {
        top := other;
      }
    }
  }

  /** An earlier escape is still counted when a later one is evaluated. */
  lemma EarlierIsCounted(ds: seq<Delivery>, merchant: Id, window: Time, limit: int, start: Time, top: nat, k: nat)
    requires OneAtATime(ds)
    requires top in Escapes(ds, merchant, window, limit, start) && k in Escapes(ds, merchant, window, limit, start)
    requires k < top
    ensures ds[k].intent in InWindow(LogOf(ds[..top]), merchant, ds[top].countedAt, window)
  {
    LatestAfter(ds, k, top);
    InWindowIsRecent(LogOf(ds[..top]), merchant, ds[top].countedAt, window);
  }

  /**
    Counting locally and whatever redeliveries are mixed in, in any time window of the configured length at most
    `limit + 1` first deliveries of a merchant are not stopped by the velocity rule.
   */
  lemma AtMostLimitPlusOneEscape(ds: seq<Delivery>, merchant: Id, window: Time, limit: int, start: Time)
    requires OneAtATime(ds)
    ensures |Escapes(ds, merchant, window, limit, start)| <= if limit < 0 then 0 else limit + 1
  {
    var ks := Escapes(ds, merchant, window, limit, start);
    hide InWindow;
    hide FirstDelivery;
    hide LogOf;
    if ks != {} {
      var top := Greatest(ks);
      var earlier := ks - {top};
      DistinctIntents(ds, earlier, merchant);
      var intents := set k | k in earlier :: ds[k].intent;
      forall k | k in earlier
        ensures ds[k].intent in InWindow(LogOf(ds[..top]), merchant, ds[top].countedAt, window)
      {
        EarlierIsCounted(ds, merchant, window, limit, start, top, k);
      }
      SubsetSize(intents, InWindow(LogOf(ds[..top]), merchant, ds[top].countedAt, window));
      assert |intents| <= CountAt(ds, top, window);
    }
  }
}
