/** One reconciliation cycle: list, filter, and ask for each expiry, against a core that everyone else keeps using. */
module Reconcile {
  import opened Wrappers
  import opened Domain
  import opened Schema
  import opened Expiry
  import opened Service
  import C = CoreClient

  const EXPIRY_REASON := "vencido sin resolverse dentro de la ventana"

  datatype CycleReport = CycleReport(
    found: nat, expired: nat, already: nat, rejected: nat, failed: nat, endpointMissing: bool)

  const NOTHING := CycleReport(0, 0, 0, 0, 0, false)

  /** An open intent that a cycle started at `now` takes for expired. */
  ghost predicate Due(db: Db, id: Id, now: Time, overrideMinutes: Option<int>) {
    id in db.rows && Open(db.rows[id].status) && IsExpired(ViewOf(db.rows[id]), now, overrideMinutes)
  }

  ghost predicate Among(vs: seq<PaymentIntentView>, id: Id) {
    exists k :: 0 <= k < |vs| && vs[k].id == id
  }

  ghost predicate Closed(db: Db, id: Id) {
    id in db.rows && Terminal(db.rows[id].status)
  }

  /** Both listings held all there was to list. */
  ghost predicate PagesSuffice(pendingSeen: Db, reviewSeen: Db, pageSize: int) {
    && |WithStatus(pendingSeen, Pending)| <= EffectiveLimit(pageSize)
    && |WithStatus(reviewSeen, UnderReview)| <= EffectiveLimit(pageSize)
  }

  /** A candidate is a stored intent that is not taken a whole second early. */
  ghost predicate SoundCandidate(db: Db, v: PaymentIntentView, now: Time, overrideMinutes: Option<int>) {
    v.id in db.rows && Deadline(db.rows[v.id], overrideMinutes) < now + SECOND
  }

  ghost predicate SoundCandidates(db: Db, vs: seq<PaymentIntentView>, now: Time, overrideMinutes: Option<int>) {
    forall k | 0 <= k < |vs| :: SoundCandidate(db, vs[k], now, overrideMinutes)
  }

  lemma ClosedStays(a: Db, b: Db, id: Id)
    requires Closed(a, id) && Evolves(a, b)
    ensures Closed(b, id)
  {
    TerminalIsForever(a.rows[id].status, b.rows[id].status);
  }

  lemma SoundStays(a: Db, b: Db, vs: seq<PaymentIntentView>, now: Time, overrideMinutes: Option<int>)
    requires SoundCandidates(a, vs, now, overrideMinutes) && Evolves(a, b)
    ensures SoundCandidates(b, vs, now, overrideMinutes)
  {
    forall k | 0 <= k < |vs|
      ensures SoundCandidate(b, vs[k], now, overrideMinutes)
    {
      assert SoundCandidate(a, vs[k], now, overrideMinutes);
    }
  }

  /** One listing catches every due intent that holds its status at that instant, if the page is large enough. */
  lemma ListingCatches(seen: Db, status: Status, pageSize: int, vs: seq<PaymentIntentView>, now: Time,
                       overrideMinutes: Option<int>)
    requires C.ListAnswer(seen, C.ListOpen(status, pageSize), vs) && UniqueKeys(seen.rows) && Open(status)
    ensures SoundCandidates(seen, FilterExpired(vs, now, overrideMinutes), now, overrideMinutes)
    ensures |WithStatus(seen, status)| <= EffectiveLimit(pageSize) ==>
              forall id | Due(seen, id, now, overrideMinutes) && seen.rows[id].status == status ::
                Among(FilterExpired(vs, now, overrideMinutes), id)
  {
    var items: seq<Intent> :|
      IsPage(seen, status, 1, EffectiveLimit(pageSize), items) && vs == C.Views(items);
    var kept := FilterExpired(vs, now, overrideMinutes);
    PageRowsAreStored(seen, status, EffectiveLimit(pageSize), items);
    PageIsCompleteIff(seen, status, EffectiveLimit(pageSize), items);
    forall k | 0 <= k < |kept|
      ensures SoundCandidate(seen, kept[k], now, overrideMinutes)
    {
      assert kept[k] in vs;
      var j :| 0 <= j < |vs| && vs[j] == kept[k];
      assert vs[j] == ViewOf(items[j]) && items[j].id in WithStatus(seen, status);
      NeverASecondEarly(items[j], now, overrideMinutes);
    }
    if |WithStatus(seen, status)| <= EffectiveLimit(pageSize) {
      forall id | Due(seen, id, now, overrideMinutes) && seen.rows[id].status == status
        ensures Among(kept, id)
      {
        assert id in WithStatus(seen, status) && Listed(items, id);
        var j :| 0 <= j < |items| && items[j].id == id;
        assert vs[j] == ViewOf(items[j]) && vs[j] in vs;
        assert vs[j] in kept;
        var k :| 0 <= k < |kept| && kept[k] == vs[j];
        assert kept[k].id == id;
      }
    }
  }

  /**
    Two listings, PENDING first, lose no one: a due intent is listed as it stands, or has moved on to the second
    listing, or is closed by then.
   */
  lemma NobodySlipsBetween(start: Db, pendingSeen: Db, reviewSeen: Db, end: Db, first: seq<PaymentIntentView>,
                           second: seq<PaymentIntentView>, now: Time, overrideMinutes: Option<int>, id: Id)
    requires Evolves(start, pendingSeen) && Evolves(pendingSeen, reviewSeen) && Evolves(reviewSeen, end)
    requires Consistent(pendingSeen) && Consistent(reviewSeen)
    requires forall x | Due(pendingSeen, x, now, overrideMinutes) && pendingSeen.rows[x].status == Pending ::
               Among(first, x)
    requires forall x | Due(reviewSeen, x, now, overrideMinutes) && reviewSeen.rows[x].status == UnderReview ::
               Among(second, x)
    requires Due(start, id, now, overrideMinutes)
    ensures Among(first, id) || Among(second, id) || Closed(end, id)
  {
    var row, mid, late := start.rows[id], pendingSeen.rows[id], reviewSeen.rows[id];
    assert WellTyped(mid) && WellTyped(late);
    if mid.status == Pending {
      ExpiryFollowsIdentity(row, mid, now, overrideMinutes);
    } else if Terminal(mid.status) {
      EvolvesTransitive(pendingSeen, reviewSeen, end);
      ClosedStays(pendingSeen, end, id);
    } else if Terminal(late.status) {
      ClosedStays(reviewSeen, end, id);
    } else {
      AfterReview(late.status);
      assert late.status == UnderReview;
      EvolvesTransitive(start, pendingSeen, reviewSeen);
      ExpiryFollowsIdentity(row, late, now, overrideMinutes);
    }
  }

  // ---- A cycle, as the requests it made ----

  type Outcome = Result<C.ExpireOutcome, C.ClientError>

  /** What the worker and its client are configured with. */
  datatype Setup = Setup(pageSize: int, overrideMinutes: Option<int>, maxRetries: int, exposesPatch: bool)

  /** The passes of the two list requests, and the states their pages were read from. */
  datatype Listings = Listings(pending: seq<C.Exchange>, review: seq<C.Exchange>, pendingSeen: Db, reviewSeen: Db)

  /** One cycle: between which states it ran, the passes of all its requests in order, and what it reported. */
  datatype Cycle = Cycle(
    now: Time, start: Db, end: Db, listings: Listings, expiries: seq<seq<C.Exchange>>, report: CycleReport)

  function Flatten(courses: seq<seq<C.Exchange>>): seq<C.Exchange> {
    if courses == [] then [] else Flatten(courses[..|courses| - 1]) + courses[|courses| - 1]
  }

  /** Everything the cycle added to its client's log. */
  function Exchanges(c: Cycle): seq<C.Exchange> {
    c.listings.pending + c.listings.review + Flatten(c.expiries)
  }

  predicate BothListed(l: Listings) {
    C.FinalOf(l.pending).Some? && C.FinalOf(l.review).Some?
  }

  /** Both listings filtered, PENDING before UNDER_REVIEW. */
  function Candidates(l: Listings, now: Time, overrideMinutes: Option<int>): seq<PaymentIntentView>
    requires BothListed(l)
  {
    FilterExpired(C.FinalOf(l.pending).value.views, now, overrideMinutes)
    + FilterExpired(C.FinalOf(l.review).value.views, now, overrideMinutes)
  }

  /** The second list request follows a first one that was answered; the pages are of states met on the way. */
  ghost predicate ListingsRan(l: Listings, start: Db, end: Db, s: Setup) {
    && C.Course(l.pending, C.ListOpen(Pending, s.pageSize), s.maxRetries)
    && (if C.FinalOf(l.pending).None? then l.review == []
        else C.Course(l.review, C.ListOpen(UnderReview, s.pageSize), s.maxRetries))
    && (BothListed(l) ==>
          && Evolves(start, l.pendingSeen) && Evolves(l.pendingSeen, l.reviewSeen) && Evolves(l.reviewSeen, end)
          && Consistent(l.pendingSeen) && Consistent(l.reviewSeen)
          && C.ListAnswer(l.pendingSeen, C.ListOpen(Pending, s.pageSize), C.FinalOf(l.pending).value.views)
          && C.ListAnswer(l.reviewSeen, C.ListOpen(UnderReview, s.pageSize), C.FinalOf(l.review).value.views))
  }

  function OutcomesOf(expiries: seq<seq<C.Exchange>>): seq<Outcome> {
    seq(|expiries|, k requires 0 <= k < |expiries| => C.ExpiryOf(expiries[k]))
  }

  /** One PATCH to EXPIRED for each of these candidates, in their order. */
  ghost predicate OnePatchEach(expiries: seq<seq<C.Exchange>>, asked: seq<PaymentIntentView>, maxRetries: int) {
    && |expiries| == |asked|
    && forall k | 0 <= k < |asked| :: C.Course(expiries[k], C.Expire(asked[k].id, EXPIRY_REASON), maxRetries)
  }

  /** The last answer was that the endpoint is missing, and it is. */
  ghost predicate CutShort(expiries: seq<seq<C.Exchange>>, s: Setup) {
    && expiries != [] && C.ExpiryOf(expiries[|expiries| - 1]) == Err(C.StatusEndpointMissing) && !s.exposesPatch
  }

  /** Without both pages nothing is asked and nothing reported; otherwise the candidates, up to a missing endpoint. */
  ghost predicate ExpiriesRan(c: Cycle, s: Setup) {
    if !BothListed(c.listings) then c.expiries == [] && c.report == NOTHING
    else
      var candidates, n := Candidates(c.listings, c.now, s.overrideMinutes), |c.expiries|;
      && n <= |candidates| == c.report.found
      && OnePatchEach(c.expiries, candidates[..n], s.maxRetries)
      && Counted(c.report, OutcomesOf(c.expiries)) && OutcomesHold(c.end, candidates[..n], OutcomesOf(c.expiries))
      && (if c.report.endpointMissing then CutShort(c.expiries, s) else n == |candidates|)
  }

  /** All there is to know of a cycle. */
  ghost predicate CycleRan(c: Cycle, s: Setup) {
    Evolves(c.start, c.end) && ListingsRan(c.listings, c.start, c.end, s) && ExpiriesRan(c, s)
  }

  // ---- What every such cycle achieves ----

  /** The four counters account for every candidate unless the endpoint is missing. */
  lemma CycleAccounts(c: Cycle, s: Setup)
    requires CycleRan(c, s) && !c.report.endpointMissing
    ensures c.report.found == c.report.expired + c.report.already + c.report.rejected + c.report.failed
  {
    TalliesAddUp(OutcomesOf(c.expiries));
  }

  /** With every request answered and pages large enough, whoever was open and due at the start ends closed. */
  lemma CycleClosesTheDue(c: Cycle, s: Setup, id: Id)
    requires CycleRan(c, s) && BothListed(c.listings) && c.report.failed == 0 && !c.report.endpointMissing
    requires PagesSuffice(c.listings.pendingSeen, c.listings.reviewSeen, s.pageSize)
    requires Due(c.start, id, c.now, s.overrideMinutes)
    ensures Closed(c.end, id)
  {
    hide Evolves;
    hide Consistent;
    hide C.ListAnswer;
    hide C.Course;
    hide PagesSuffice;
    hide Due;
    hide SoundCandidates;
    hide OutcomesHold;
    hide Among;
    var l, candidates := c.listings, Candidates(c.listings, c.now, s.overrideMinutes);
    BothListings(c.start, l.pendingSeen, l.reviewSeen, c.end, C.FinalOf(l.pending).value.views,
                 C.FinalOf(l.review).value.views, s.pageSize, c.now, s.overrideMinutes);
    if Among(candidates, id) {
      assert candidates[..|candidates|] == candidates;
      NoFailureMeansClosed(c.end, candidates, OutcomesOf(c.expiries), id);
    }
  }

  /** The worker can see for itself that both pages suffice: neither is full. */
  lemma ShortPagesSuffice(c: Cycle, s: Setup)
    requires CycleRan(c, s) && BothListed(c.listings)
    requires |C.FinalOf(c.listings.pending).value.views| < EffectiveLimit(s.pageSize)
    requires |C.FinalOf(c.listings.review).value.views| < EffectiveLimit(s.pageSize)
    ensures PagesSuffice(c.listings.pendingSeen, c.listings.reviewSeen, s.pageSize)
  {
    var l := c.listings;
    PageShown(l.pendingSeen, Pending, s.pageSize, C.FinalOf(l.pending).value.views);
    PageShown(l.reviewSeen, UnderReview, s.pageSize, C.FinalOf(l.review).value.views);
  }

  lemma PageShown(seen: Db, status: Status, pageSize: int, vs: seq<PaymentIntentView>)
    requires C.ListAnswer(seen, C.ListOpen(status, pageSize), vs)
    ensures |vs| == AtMost(|WithStatus(seen, status)|, EffectiveLimit(pageSize))
  {
    var items: seq<Intent> :|
      IsPage(seen, status, 1, EffectiveLimit(pageSize), items) && vs == C.Views(items);
    PageIsCompleteIff(seen, status, EffectiveLimit(pageSize), items);
  }

  /** Every PATCH of the cycle asks to expire a stored intent, and none a whole second before it is due. */
  lemma NobodyExpiredEarly(c: Cycle, s: Setup, x: C.Exchange)
    requires CycleRan(c, s) && x in Exchanges(c) && x.op.Expire?
    ensures x.op.reason == EXPIRY_REASON && x.op.id in c.end.rows
    ensures Deadline(c.end.rows[x.op.id], s.overrideMinutes) < c.now + SECOND
  {
    var l := c.listings;
    OneOperation(l.pending, C.ListOpen(Pending, s.pageSize), s.maxRetries);
    if l.review != [] {
      OneOperation(l.review, C.ListOpen(UnderReview, s.pageSize), s.maxRetries);
    }
    assert x in Flatten(c.expiries);
    var k := InSomeCourse(c.expiries, x);
    var candidates := Candidates(l, c.now, s.overrideMinutes);
    OneOperation(c.expiries[k], C.Expire(candidates[..|c.expiries|][k].id, EXPIRY_REASON), s.maxRetries);
    BothListings(c.start, l.pendingSeen, l.reviewSeen, c.end, C.FinalOf(l.pending).value.views,
                 C.FinalOf(l.review).value.views, s.pageSize, c.now, s.overrideMinutes);
    assert SoundCandidate(c.end, candidates[k], c.now, s.overrideMinutes);
  }

  lemma OneOperation(course: seq<C.Exchange>, op: C.Operation, maxRetries: int)
    requires C.Course(course, op, maxRetries)
    ensures forall x | x in course :: x.op == op
  {
    forall k | 0 <= k < |course|
      ensures course[k].op == op
    {
      if !C.AllRetried(course, op) && k < |course| - 1 {
        assert course[..|course| - 1][k] == course[k];
      }
    }
  }

  lemma {:induction false} InSomeCourse(courses: seq<seq<C.Exchange>>, x: C.Exchange) returns (k: nat)
    requires x in Flatten(courses)
    ensures k < |courses| && x in courses[k]
    decreases |courses|
  {
    k := |courses| - 1;
    if x !in courses[k] {
      k := InSomeCourse(courses[..k], x);
    }
  }

  /** With no failure and no missing endpoint every outcome is one that leaves its intent closed. */
  lemma NoFailureMeansClosed(db: Db, asked: seq<PaymentIntentView>, outcomes: seq<Outcome>, id: Id)
    requires OutcomesHold(db, asked, outcomes) && Among(asked, id)
    requires Tally(outcomes, Err(C.CoreUnavailable)) == 0 && Tally(outcomes, Err(C.StatusEndpointMissing)) == 0
    ensures Closed(db, id)
  {
    var k :| 0 <= k < |asked| && asked[k].id == id;
    var o := outcomes[k];
    assert OutcomeHolds(db, asked[k].id, o);
    NotTallied(outcomes, Err(C.CoreUnavailable), k);
    NotTallied(outcomes, Err(C.StatusEndpointMissing), k);
    assert o.Err? ==> o.error.TransitionRejected?;
  }

  lemma {:induction false} NotTallied(outcomes: seq<Outcome>, o: Outcome, k: nat)
    requires Tally(outcomes, o) == 0 && k < |outcomes|
    ensures outcomes[k] != o
    decreases |outcomes|
  {
    if k < |outcomes| - 1 {
      NotTallied(outcomes[..|outcomes| - 1], o, k);
    }
  }

  class ReconcileExpired {
    const client: C.CoreClient
    const pageSize: int
    const overrideMinutes: Option<int>

    constructor (client: C.CoreClient, pageSize: int, overrideMinutes: Option<int>)
      ensures this.client == client && this.pageSize == pageSize && this.overrideMinutes == overrideMinutes
    {
      this.client, this.pageSize, this.overrideMinutes := client, pageSize, overrideMinutes;
    }

    ghost predicate Valid()
      reads this, client, client.breaker, client.core, client.core.payments
    {
      client.Valid() && client.backoffBase >= 0.0 && client.backoffCap >= 0.0
    }

    function Db(): Schema.Db
      reads client, client.core, client.core.payments
    {
      client.core.payments.Db()
    }

    ghost function Configured(): Setup {
      Setup(pageSize, overrideMinutes, client.maxRetries, client.exposesPatch)
    }

    /** The candidates of both listings, PENDING before UNDER_REVIEW; an unanswered list request ends it. */
    method Collect(now: Time)
      returns (candidates: Result<seq<PaymentIntentView>, C.ClientError>, ghost l: Listings)
      requires Valid()
      modifies client`clock, client`trace, client`log, client`slept, client`hasToken
      modifies client.breaker, client.core.payments
      ensures Valid() && Evolves(old(Db()), Db())
      ensures client.log == old(client.log) + l.pending + l.review
      ensures ListingsRan(l, old(Db()), Db(), Configured())
      ensures candidates == if BothListed(l) then Ok(Candidates(l, now, overrideMinutes)) else Err(C.CoreUnavailable)
    {
      hide Evolves;
      hide Consistent;
      hide C.Course;
      hide C.ListAnswer;
      ghost var start := Db();
      l := Listings([], [], start, start);
      var listed;
      ghost var pendingSeen, reviewSeen, pending, review;
      listed, pendingSeen, pending := client.ListByStatus(Pending, pageSize);
      l := Listings(pending, [], pendingSeen, start);
      if listed.Err? {
        return Err(listed.error), l;
      }
      ghost var mid := Db();
      var first := FilterExpired(listed.value, now, overrideMinutes);
      listed, reviewSeen, review := client.ListByStatus(UnderReview, pageSize);
      l := Listings(pending, review, pendingSeen, reviewSeen);
      EvolvesTransitive(start, mid, Db());
      if listed.Err? {
        return Err(listed.error), l;
      }
      EvolvesTransitive(pendingSeen, mid, reviewSeen);
      var second := FilterExpired(listed.value, now, overrideMinutes);
      candidates := Ok(first + second);
    }

    /**
      What a caller gets from a cycle. Nobody is asked to expire a second early; the four counters account for every
      candidate; and if every request was answered and the pages were large enough, each intent that was open and due
      when the cycle started is now closed. The requests of any stretch in which everything failed stay within the
      breaker's bound: in particular the PATCHes of a cycle that listed its candidates before the core went down.
     */
    method Call(now: Time) returns (report: CycleReport, ghost c: Cycle)
      requires Valid()
      modifies client`clock, client`trace, client`log, client`slept, client`hasToken
      modifies client.breaker, client.core.payments
      ensures Valid() && c.now == now && c.start == old(Db()) && c.end == Db() && c.report == report
      ensures CycleRan(c, Configured()) && client.log == old(client.log) + Exchanges(c)
      ensures forall x | x in Exchanges(c) && x.op.Expire? ::
                x.op.id in Db().rows && Deadline(Db().rows[x.op.id], overrideMinutes) < now + SECOND
      ensures !report.endpointMissing ==>
                report.found == report.expired + report.already + report.rejected + report.failed
      ensures BothListed(c.listings) && !report.endpointMissing && report.failed == 0
              && PagesSuffice(c.listings.pendingSeen, c.listings.reviewSeen, pageSize)
              ==> forall id | Due(old(Db()), id, now, overrideMinutes) :: Closed(Db(), id)
      ensures client.OutagesAreBounded() && (C.AllFailing(Exchanges(c)) ==> report == NOTHING)
      ensures C.AllFailing(Flatten(c.expiries)) && client.breaker.cfg.reset > 0 ==>
                C.SentCount(Flatten(c.expiries))
                <= client.OutageCap(|client.log| - |Flatten(c.expiries)|, |client.log|)
    {
      hide CycleRan;
      hide BothListed;
      hide Evolves;
      hide PagesSuffice;
      hide Closed;
      hide Due;
      hide Flatten;
      hide Exchanges;
      hide C.AllFailing;
      hide C.SentCount;
      report, c := Run(now);
      CycleAchieves(c, Configured());
      client.OutagesStayBounded();
      PatchesAreLast(client.log, old(client.log), c);
      if C.AllFailing(Exchanges(c)) {
        OutageAborts(c, Configured());
      }
    }

    /** Listing, then expiring. The client's log grows by exactly the requests of the cycle. */
    method Run(now: Time) returns (report: CycleReport, ghost c: Cycle)
      requires Valid()
      modifies client`clock, client`trace, client`log, client`slept, client`hasToken
      modifies client.breaker, client.core.payments
      ensures Valid() && c.now == now && c.start == old(Db()) && c.end == Db() && c.report == report
      ensures CycleRan(c, Configured()) && client.log == old(client.log) + Exchanges(c)
    {
      ghost var start, log := Db(), client.log;
      hide CycleRan;
      hide Progress;
      hide ListingsRan;
      hide BothListed;
      hide Candidates;
      hide Evolves;
      hide Exchanges;
      hide AskedFor;
      var collected;
      ghost var l;
      collected, l := Collect(now);
      if collected.Err? {
        report, c := NOTHING, Cycle(now, start, Db(), l, [], NOTHING);
        AbortedCycleRan(c, log, Configured());
        return;
      }
      ghost var listedDb, listedLog := Db(), client.log;
      ghost var expiries;
      CandidatesAreSound(l, start, listedDb, now, Configured());
      report, expiries := ExpireAll(collected.value, now);
      c := Cycle(now, start, Db(), l, expiries, report);
      FullCycleRan(c, listedDb, log, client.log, Configured());
    }

    /** One candidate: how its outcome moves the cycle on. */
    method AskFor(candidates: seq<PaymentIntentView>, k: nat, ghost start: Schema.Db, ghost log: seq<C.Exchange>,
                  ghost soFar: CycleReport, ghost expiries: seq<seq<C.Exchange>>, ghost now: Time)
      returns (outcome: Outcome, ghost more: seq<seq<C.Exchange>>)
      requires Valid() && k < |candidates| && !soFar.endpointMissing && AskedFor(log, client.log, expiries, k)
      requires Progress(start, Db(), candidates, soFar, expiries, now, Configured())
      modifies client`clock, client`trace, client`log, client`slept, client`hasToken
      modifies client.breaker, client.core.payments
      ensures Valid() && AskedFor(log, client.log, more, k + 1)
      ensures Progress(start, Db(), candidates, Noted(soFar, outcome), more, now, Configured())
    {
      ghost var before, logBefore := Db(), client.log;
      CountsAsked(log, logBefore, expiries, k);
      IsStored(start, before, candidates, soFar, expiries, now, Configured());
      hide Progress;
      hide AskedFor;
      hide C.Course;
      hide C.ExpiryOf;
      ghost var course;
      outcome, course := client.ExpireIntent(candidates[k].id, EXPIRY_REASON);
      OneMoreAsked(start, before, Db(), candidates, soFar, expiries, course, now, Configured());
      AskedForMore(log, logBefore, expiries, k, course);
      more := expiries + [course];
    }

    /** The loop over the candidates. */
    method ExpireAll(candidates: seq<PaymentIntentView>, ghost now: Time)
      returns (report: CycleReport, ghost expiries: seq<seq<C.Exchange>>)
      requires Valid() && SoundCandidates(Db(), candidates, now, overrideMinutes)
      modifies client`clock, client`trace, client`log, client`slept, client`hasToken
      modifies client.breaker, client.core.payments
      ensures Valid() && AskedFor(old(client.log), client.log, expiries, |expiries|)
      ensures Progress(old(Db()), Db(), candidates, report, expiries, now, Configured())
      ensures !report.endpointMissing ==> |expiries| == |candidates|
    {
      ghost var start := Db();
      var expired, already, rejected, failed: nat := 0, 0, 0, 0;
      var endpointMissing := false;
      var k: nat := 0;
      expiries := [];
      ghost var soFar := NOTHING.(found := |candidates|);
      NothingAsked(start, client.log, candidates, now, Configured());
      hide Evolves;
      hide Progress;
      hide AskedFor;
      while k < |candidates| && !endpointMissing
        invariant Valid() && k <= |candidates| && AskedFor(old(client.log), client.log, expiries, k)
        invariant soFar == CycleReport(|candidates|, expired, already, rejected, failed, endpointMissing)
        invariant Progress(start, Db(), candidates, soFar, expiries, now, Configured())
      {
        var outcome;
        outcome, expiries := AskFor(candidates, k, start, old(client.log), soFar, expiries, now);
        soFar := Noted(soFar, outcome);
        match outcome {
          case Ok(ExpiredNow) => expired := expired + 1;
          case Ok(AlreadyExpired) => already := already + 1;
          case Err(TransitionRejected) => rejected := rejected + 1;
          case Err(CoreUnavailable) => failed := failed + 1;
          case Err(StatusEndpointMissing) => endpointMissing := true;
        }
        k := k + 1;
      }
      CountsAsked(old(client.log), client.log, expiries, k);
      report := CycleReport(|candidates|, expired, already, rejected, failed, endpointMissing);
    }
  }

  // ---- The steps of a cycle ----

  ghost predicate Progress(start: Db, db: Db, candidates: seq<PaymentIntentView>, r: CycleReport,
                           expiries: seq<seq<C.Exchange>>, now: Time, s: Setup) {
    var n := |expiries|;
    && n <= |candidates| == r.found && Evolves(start, db) && SoundCandidates(db, candidates, now, s.overrideMinutes)
    && OnePatchEach(expiries, candidates[..n], s.maxRetries)
    && Counted(r, OutcomesOf(expiries)) && OutcomesHold(db, candidates[..n], OutcomesOf(expiries))
    && (r.endpointMissing ==> CutShort(expiries, s))
  }

  /** The log since `log` holds the passes of `k` expiries and nothing else. */
  ghost predicate AskedFor(log: seq<C.Exchange>, now: seq<C.Exchange>, expiries: seq<seq<C.Exchange>>, k: nat) {
    |expiries| == k && now == log + Flatten(expiries)
  }

  lemma CountsAsked(log: seq<C.Exchange>, now: seq<C.Exchange>, expiries: seq<seq<C.Exchange>>, k: nat)
    requires AskedFor(log, now, expiries, k)
    ensures |expiries| == k
  {
  }

  lemma AskedForMore(log: seq<C.Exchange>, now: seq<C.Exchange>, expiries: seq<seq<C.Exchange>>, k: nat,
                     course: seq<C.Exchange>)
    requires AskedFor(log, now, expiries, k)
    ensures AskedFor(log, now + course, expiries + [course], k + 1)
  {
    assert (expiries + [course])[..k] == expiries;
  }

  lemma IsStored(start: Db, db: Db, candidates: seq<PaymentIntentView>, r: CycleReport, expiries: seq<seq<C.Exchange>>,
                 now: Time, s: Setup)
    requires Progress(start, db, candidates, r, expiries, now, s) && |expiries| < |candidates|
    ensures candidates[|expiries|].id in db.rows
  {
    assert SoundCandidate(db, candidates[|expiries|], now, s.overrideMinutes);
  }

  lemma NothingAsked(start: Db, log: seq<C.Exchange>, candidates: seq<PaymentIntentView>, now: Time, s: Setup)
    requires SoundCandidates(start, candidates, now, s.overrideMinutes)
    ensures Progress(start, start, candidates, NOTHING.(found := |candidates|), [], now, s) && AskedFor(log, log, [], 0)
  {
  }

  lemma OneMoreAsked(start: Db, before: Db, db: Db, candidates: seq<PaymentIntentView>, r: CycleReport,
                     expiries: seq<seq<C.Exchange>>, course: seq<C.Exchange>, now: Time, s: Setup)
    requires Progress(start, before, candidates, r, expiries, now, s) && !r.endpointMissing && |expiries| < |candidates|
    requires var id := candidates[|expiries|].id;
             && Evolves(before, db) && C.Course(course, C.Expire(id, EXPIRY_REASON), s.maxRetries)
             && OutcomeHolds(db, id, C.ExpiryOf(course))
             && (C.ExpiryOf(course) == Err(C.StatusEndpointMissing) ==> !s.exposesPatch)
    ensures Progress(start, db, candidates, Noted(r, C.ExpiryOf(course)), expiries + [course], now, s)
  {
    hide C.Course;
    hide Tally;
    var k, outcomes, o := |expiries|, OutcomesOf(expiries), C.ExpiryOf(course);
    EvolvesTransitive(start, before, db);
    SoundStays(before, db, candidates, now, s.overrideMinutes);
    assert OutcomesOf(expiries + [course]) == outcomes + [o];
    assert (outcomes + [o])[..k] == outcomes;
    OutcomesStay(before, db, candidates[..k], outcomes);
    OneMoreOutcome(db, candidates, k, outcomes + [o]);
    OneMorePatch(expiries, candidates, course, s.maxRetries);
    CountedGrows(r, outcomes, o);
    hide Evolves;
    hide SoundCandidates;
    hide OutcomesHold;
    hide OnePatchEach;
    hide Counted;
  }

  lemma OneMorePatch(expiries: seq<seq<C.Exchange>>, candidates: seq<PaymentIntentView>, course: seq<C.Exchange>,
                     maxRetries: int)
    requires |expiries| < |candidates| && OnePatchEach(expiries, candidates[..|expiries|], maxRetries)
    requires C.Course(course, C.Expire(candidates[|expiries|].id, EXPIRY_REASON), maxRetries)
    ensures OnePatchEach(expiries + [course], candidates[..|expiries| + 1], maxRetries)
  {
    var k := |expiries|;
    forall j | 0 <= j < k + 1
      ensures C.Course((expiries + [course])[j], C.Expire(candidates[..k + 1][j].id, EXPIRY_REASON), maxRetries)
    {
      assert j < k ==> candidates[..k][j] == candidates[..k + 1][j];
    }
  }

  lemma CountedGrows(r: CycleReport, outcomes: seq<Outcome>, o: Outcome)
    requires Counted(r, outcomes) && !r.endpointMissing
    ensures Counted(Noted(r, o), outcomes + [o])
  {
    assert (outcomes + [o])[..|outcomes|] == outcomes;
  }

  lemma CandidatesAreSound(l: Listings, start: Db, end: Db, now: Time, s: Setup)
    requires ListingsRan(l, start, end, s) && BothListed(l)
    ensures SoundCandidates(end, Candidates(l, now, s.overrideMinutes), now, s.overrideMinutes)
  {
    BothListings(start, l.pendingSeen, l.reviewSeen, end, C.FinalOf(l.pending).value.views,
                 C.FinalOf(l.review).value.views,
                 s.pageSize, now, s.overrideMinutes);
  }

  lemma AbortedCycleRan(c: Cycle, log: seq<C.Exchange>, s: Setup)
    requires Evolves(c.start, c.end) && ListingsRan(c.listings, c.start, c.end, s) && !BothListed(c.listings)
    requires c.expiries == [] && c.report == NOTHING
    ensures CycleRan(c, s) && log + c.listings.pending + c.listings.review == log + Exchanges(c)
  {
    assert Exchanges(c) == c.listings.pending + c.listings.review;
  }

  lemma FullCycleRan(c: Cycle, listedDb: Db, log: seq<C.Exchange>, end: seq<C.Exchange>, s: Setup)
    requires Evolves(c.start, listedDb) && ListingsRan(c.listings, c.start, listedDb, s) && BothListed(c.listings)
    requires Progress(listedDb, c.end, Candidates(c.listings, c.now, s.overrideMinutes), c.report, c.expiries, c.now, s)
    requires !c.report.endpointMissing ==> |c.expiries| == |Candidates(c.listings, c.now, s.overrideMinutes)|
    requires AskedFor(log + c.listings.pending + c.listings.review, end, c.expiries, |c.expiries|)
    ensures CycleRan(c, s) && end == log + Exchanges(c)
  {
    assert Evolves(listedDb, c.end);
    EvolvesTransitive(c.start, listedDb, c.end);
    ListingsStay(c.listings, c.start, listedDb, c.end, s);
    ExpiriesDone(c, listedDb, s);
    LogOfCycle(c, log, end);
    hide Progress;
    hide ListingsRan;
    hide ExpiriesRan;
    hide AskedFor;
    hide Exchanges;
    hide Evolves;
  }

  lemma ListingsStay(l: Listings, start: Db, mid: Db, end: Db, s: Setup)
    requires ListingsRan(l, start, mid, s) && Evolves(mid, end)
    ensures ListingsRan(l, start, end, s)
  {
    hide Consistent;
    hide C.ListAnswer;
    hide C.Course;
    if BothListed(l) {
      EvolvesTransitive(l.reviewSeen, mid, end);
    }
    hide Evolves;
  }

  lemma ExpiriesDone(c: Cycle, listedDb: Db, s: Setup)
    requires BothListed(c.listings)
    requires Progress(listedDb, c.end, Candidates(c.listings, c.now, s.overrideMinutes), c.report, c.expiries, c.now, s)
    requires !c.report.endpointMissing ==> |c.expiries| == |Candidates(c.listings, c.now, s.overrideMinutes)|
    ensures ExpiriesRan(c, s)
  {
    hide Evolves;
    hide SoundCandidates;
    hide OnePatchEach;
    hide Counted;
    hide OutcomesHold;
    hide CutShort;
    hide Candidates;
  }

  lemma LogOfCycle(c: Cycle, log: seq<C.Exchange>, end: seq<C.Exchange>)
    requires AskedFor(log + c.listings.pending + c.listings.review, end, c.expiries, |c.expiries|)
    ensures end == log + Exchanges(c)
  {
  }

  /** While nothing but failures comes back, a cycle lists nothing and asks for nothing. */
  lemma OutageAborts(c: Cycle, s: Setup)
    requires CycleRan(c, s) && C.AllFailing(Exchanges(c))
    ensures !BothListed(c.listings) && c.report == NOTHING && c.expiries == []
  {
    if c.listings.pending != [] {
      var n := |c.listings.pending| - 1;
      assert Exchanges(c)[n] == c.listings.pending[n];
    }
  }

  lemma PatchesAreLast(log: seq<C.Exchange>, before: seq<C.Exchange>, c: Cycle)
    requires log == before + Exchanges(c)
    ensures |Flatten(c.expiries)| <= |log| && log[|log| - |Flatten(c.expiries)|..|log|] == Flatten(c.expiries)
  {
  }

  lemma CycleAchieves(c: Cycle, s: Setup)
    requires CycleRan(c, s)
    ensures !c.report.endpointMissing ==>
              c.report.found == c.report.expired + c.report.already + c.report.rejected + c.report.failed
    ensures forall x | x in Exchanges(c) && x.op.Expire? ::
              x.op.id in c.end.rows && Deadline(c.end.rows[x.op.id], s.overrideMinutes) < c.now + SECOND
    ensures BothListed(c.listings) && !c.report.endpointMissing && c.report.failed == 0
            && PagesSuffice(c.listings.pendingSeen, c.listings.reviewSeen, s.pageSize)
            ==> forall id | Due(c.start, id, c.now, s.overrideMinutes) :: Closed(c.end, id)
  {
    hide CycleRan;
    hide Due;
    hide Closed;
    hide PagesSuffice;
    hide BothListed;
    if !c.report.endpointMissing {
      CycleAccounts(c, s);
    }
    forall x | x in Exchanges(c) && x.op.Expire?
      ensures x.op.id in c.end.rows && Deadline(c.end.rows[x.op.id], s.overrideMinutes) < c.now + SECOND
    {
      NobodyExpiredEarly(c, s, x);
    }
    if BothListed(c.listings) && !c.report.endpointMissing && c.report.failed == 0
       && PagesSuffice(c.listings.pendingSeen, c.listings.reviewSeen, s.pageSize) {
      forall id | Due(c.start, id, c.now, s.overrideMinutes)
        ensures Closed(c.end, id)
      {
        CycleClosesTheDue(c, s, id);
      }
    }
  }

  // ---- What the counters count ----

  function Tally(outcomes: seq<Outcome>, o: Outcome): nat {
    if outcomes == [] then 0
    else Tally(outcomes[..|outcomes| - 1], o) + if outcomes[|outcomes| - 1] == o then 1 else 0
  }

  /** Each counter counts its own kind of outcome. */
  ghost predicate Counted(r: CycleReport, outcomes: seq<Outcome>) {
    && r.expired == Tally(outcomes, Ok(C.ExpiredNow))
    && r.already == Tally(outcomes, Ok(C.AlreadyExpired))
    && r.rejected == Tally(outcomes, Err(C.TransitionRejected))
    && r.failed == Tally(outcomes, Err(C.CoreUnavailable))
    && (if r.endpointMissing then 1 else 0) == Tally(outcomes, Err(C.StatusEndpointMissing))
  }

  /** What an outcome says of its intent, in every later state too. */
  ghost predicate OutcomeHolds(db: Db, id: Id, o: Outcome) {
    && (o.Ok? ==> HasStatus(db, id, Expired))
    && (o == Ok(C.ExpiredNow) ==> C.Signed(db, id, EXPIRY_REASON))
    && (o == Err(C.TransitionRejected) ==> Closed(db, id) && !HasStatus(db, id, Expired))
  }

  ghost predicate OutcomesHold(db: Db, asked: seq<PaymentIntentView>, outcomes: seq<Outcome>) {
    |outcomes| == |asked| && forall k | 0 <= k < |asked| :: OutcomeHolds(db, asked[k].id, outcomes[k])
  }

  /** The report once an outcome has moved its counter. */
  function Noted(r: CycleReport, o: Outcome): CycleReport {
    match o
    case Ok(ExpiredNow) => r.(expired := r.expired + 1)
    case Ok(AlreadyExpired) => r.(already := r.already + 1)
    case Err(TransitionRejected) => r.(rejected := r.rejected + 1)
    case Err(CoreUnavailable) => r.(failed := r.failed + 1)
    case Err(StatusEndpointMissing) => r.(endpointMissing := true)
  }

  /** Every outcome is of one of five kinds. */
  lemma {:induction false} TalliesAddUp(outcomes: seq<Outcome>)
    ensures |outcomes| == Tally(outcomes, Ok(C.ExpiredNow)) + Tally(outcomes, Ok(C.AlreadyExpired))
                          + Tally(outcomes, Err(C.TransitionRejected)) + Tally(outcomes, Err(C.CoreUnavailable))
                          + Tally(outcomes, Err(C.StatusEndpointMissing))
  {
    if outcomes != [] {
      TalliesAddUp(outcomes[..|outcomes| - 1]);
      var o := outcomes[|outcomes| - 1];
      assert o.Err? ==> o.error.CoreUnavailable? || o.error.TransitionRejected? || o.error.StatusEndpointMissing?;
      assert o.Ok? ==> o.value.ExpiredNow? || o.value.AlreadyExpired?;
    }
  }

  lemma OutcomesStay(a: Db, b: Db, asked: seq<PaymentIntentView>, outcomes: seq<Outcome>)
    requires OutcomesHold(a, asked, outcomes) && Evolves(a, b)
    ensures OutcomesHold(b, asked, outcomes)
  {
    forall k | 0 <= k < |asked|
      ensures OutcomeHolds(b, asked[k].id, outcomes[k])
    {
      var id := asked[k].id;
      assert OutcomeHolds(a, id, outcomes[k]);
      if outcomes[k].Ok? || outcomes[k] == Err(C.TransitionRejected) {
        TerminalIsForever(a.rows[id].status, b.rows[id].status);
      }
      if outcomes[k] == Ok(C.ExpiredNow) {
        C.SignatureStays(a, b, id, EXPIRY_REASON);
      }
    }
  }

  lemma OneMoreOutcome(db: Db, vs: seq<PaymentIntentView>, k: nat, outcomes: seq<Outcome>)
    requires k < |vs| && |outcomes| == k + 1
    requires OutcomesHold(db, vs[..k], outcomes[..k]) && OutcomeHolds(db, vs[k].id, outcomes[k])
    ensures OutcomesHold(db, vs[..k + 1], outcomes)
  {
    forall j | 0 <= j < k + 1
      ensures OutcomeHolds(db, vs[..k + 1][j].id, outcomes[j])
    {
      if j < k {
        assert OutcomeHolds(db, vs[..k][j].id, outcomes[..k][j]);
      }
    }
  }

  lemma BothListings(start: Db, pendingSeen: Db, reviewSeen: Db, end: Db,
                     firstListing: seq<PaymentIntentView>, secondListing: seq<PaymentIntentView>, pageSize: int,
                         now: Time,
                     overrideMinutes: Option<int>)
    requires Evolves(start, pendingSeen) && Evolves(pendingSeen, reviewSeen) && Evolves(reviewSeen, end)
    requires Consistent(pendingSeen) && Consistent(reviewSeen)
    requires C.ListAnswer(pendingSeen, C.ListOpen(Pending, pageSize), firstListing)
    requires C.ListAnswer(reviewSeen, C.ListOpen(UnderReview, pageSize), secondListing)
    ensures var first := FilterExpired(firstListing, now, overrideMinutes);
            var second := FilterExpired(secondListing, now, overrideMinutes);
            && SoundCandidates(end, first + second, now, overrideMinutes)
            && (PagesSuffice(pendingSeen, reviewSeen, pageSize) ==>
                  forall id | Due(start, id, now, overrideMinutes) :: Among(first + second, id) || Closed(end, id))
  {
    assert UniqueKeys(pendingSeen.rows) && UniqueKeys(reviewSeen.rows);
    hide Evolves;
    hide C.ListAnswer;
    hide Consistent;
    hide UniqueKeys;
    var first := FilterExpired(firstListing, now, overrideMinutes);
    var second := FilterExpired(secondListing, now, overrideMinutes);
    ListingCatches(pendingSeen, Pending, pageSize, firstListing, now, overrideMinutes);
    ListingCatches(reviewSeen, UnderReview, pageSize, secondListing, now, overrideMinutes);
    EvolvesTransitive(pendingSeen, reviewSeen, end);
    SoundStays(pendingSeen, end, first, now, overrideMinutes);
    SoundStays(reviewSeen, end, second, now, overrideMinutes);
    SoundTogether(end, first, second, now, overrideMinutes);
    hide SoundCandidates;
    hide FilterExpired;
    if PagesSuffice(pendingSeen, reviewSeen, pageSize) {
      forall id | Due(start, id, now, overrideMinutes)
        ensures Among(first + second, id) || Closed(end, id)
      {
        NobodySlipsBetween(start, pendingSeen, reviewSeen, end, first, second, now, overrideMinutes, id);
        AmongEither(first, second, id);
      }
    }
  }

  lemma SoundTogether(db: Db, first: seq<PaymentIntentView>, second: seq<PaymentIntentView>, now: Time,
                      overrideMinutes: Option<int>)
    requires SoundCandidates(db, first, now, overrideMinutes) && SoundCandidates(db, second, now, overrideMinutes)
    ensures SoundCandidates(db, first + second, now, overrideMinutes)
  {
    forall k | 0 <= k < |first + second|
      ensures SoundCandidate(db, (first + second)[k], now, overrideMinutes)
    {
      if k >= |first| {
        assert SoundCandidate(db, second[k - |first|], now, overrideMinutes);
      }
    }
  }

  lemma AmongEither(first: seq<PaymentIntentView>, second: seq<PaymentIntentView>, id: Id)
    ensures Among(first, id) || Among(second, id) ==> Among(first + second, id)
  {
    if Among(first, id) {
      var k :| 0 <= k < |first| && first[k].id == id;
      assert (first + second)[k].id == id;
    } else if Among(second, id) {
      var k :| 0 <= k < |second| && second[k].id == id;
      assert (first + second)[|first| + k].id == id;
    }
  }
}
