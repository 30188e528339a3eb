/** The rules of risk-service: ordered checks, and a score that can be explained. */
module RiskRules {
  import opened Wrappers
  import opened Domain

  const MODEL_VERSION := "rules-v2"
  const BASE_POINTS := 5
  const AMOUNT_POINTS_MAX := 20

  datatype ReasonCode = LowRisk | AmountAboveReviewThreshold | AbnormalVelocity | SuspiciousReference | MerchantBlocked

  datatype Thresholds = Thresholds(reviewAmountMinor: int, velocityMaxRecent: int, suspiciousPrefixes: seq<string>)

  /** The risk.evaluation.requested message; the HTTP fallback carries the same fields. */
  datatype Event = Event(
    paymentIntentId: Id,
    merchantId: Id,
    externalReference: string,
    amountMinor: int,
    merchantStatus: string,
    merchantRecentIntents: Option<int>)

  function Code(c: ReasonCode): string {
    match c
    case LowRisk => "LOW_RISK"
    case AmountAboveReviewThreshold => "AMOUNT_ABOVE_REVIEW_THRESHOLD"
    case AbnormalVelocity => "ABNORMAL_VELOCITY"
    case SuspiciousReference => "SUSPICIOUS_REFERENCE"
    case MerchantBlocked => "MERCHANT_BLOCKED"
  }

  function RulePoints(c: ReasonCode): int {
    match c
    case MerchantBlocked => 100
    case SuspiciousReference => 95
    case AbnormalVelocity => 95
    case AmountAboveReviewThreshold => 55
    case LowRisk => 0
  }

  // ---- Text, for ASCII ----

  predicate IsSpace(c: char) {
    c == ' ' || 9 <= c as int <= 13 || 28 <= c as int <= 31
  }

  function Strip(s: string): string
    decreases |s|
  {
    if s != [] && IsSpace(s[0]) then Strip(s[1..])
    else if s != [] && IsSpace(s[|s| - 1]) then Strip(s[..|s| - 1])
    else s
  }

  function Upper(s: string): string {
    seq(|s|, i requires 0 <= i < |s| => if 'a' <= s[i] <= 'z' then s[i] - 'a' + 'A' else s[i])
  }

  predicate IsSuspicious(reference: string, prefixes: seq<string>) {
    var r := Upper(Strip(reference));
    r == "" || exists k | 0 <= k < |prefixes| :: Upper(prefixes[k]) <= r
  }

  predicate IsBlocked(merchantStatus: string) {
    Upper(Strip(merchantStatus)) == "INACTIVE"
  }

  // ---- Rules and score ----

  /** The first rule that fires decides. `recent` is the count the caller resolved. */
  function FiredRule(e: Event, recent: int, th: Thresholds): ReasonCode {
    if IsBlocked(e.merchantStatus) then MerchantBlocked
    else if IsSuspicious(e.externalReference, th.suspiciousPrefixes) then SuspiciousReference
    else if recent > th.velocityMaxRecent then AbnormalVelocity
    else if e.amountMinor > th.reviewAmountMinor then AmountAboveReviewThreshold
    else LowRisk
  }

  function DecisionFor(c: ReasonCode): Decision {
    match c
    case AmountAboveReviewThreshold => Review
    case LowRisk => Approve
    case _ => Reject
  }

  /** Integer points, truncated toward zero as Python's `int` does. */
  function AmountPoints(amount: int, threshold: int): int {
    if threshold <= 0 then 0
    else
      var scaled := AMOUNT_POINTS_MAX * amount;
      var points := if scaled >= 0 then scaled / threshold else -(-scaled / threshold);
      if points < AMOUNT_POINTS_MAX then points else AMOUNT_POINTS_MAX
  }

  function ScoreFor(c: ReasonCode, amount: int, threshold: int): int {
    var total := BASE_POINTS + AmountPoints(amount, threshold) + RulePoints(c);
    if total < 0 then 0 else if total > 100 then 100 else total
  }

  function Evaluate(e: Event, recent: int, th: Thresholds): Evaluation {
    var c := FiredRule(e, recent, th);
    Evaluation(e.paymentIntentId, DecisionFor(c), ScoreFor(c, e.amountMinor, th.reviewAmountMinor), [Code(c)],
               MODEL_VERSION)
  }

  /** core-api's count wins when it travels in the event; otherwise the local one decides. */
  function ResolveVelocity(e: Event, own: int): int {
    if e.merchantRecentIntents.None? then own else e.merchantRecentIntents.value
  }

  // ---- What the rules look at ----

  ghost predicate Blank(s: string) {
    forall i | 0 <= i < |s| :: IsSpace(s[i])
  }

  /** `core` is the text without the white space around it. */
  ghost predicate Trimmed(s: string, core: string) {
    && (core == "" || (!IsSpace(core[0]) && !IsSpace(core[|core| - 1])))
    && exists before, after :: s == before + core + after && Blank(before) && Blank(after)
  }

  /** The same letter, in whatever case. */
  predicate SameLetter(a: char, b: char) {
    || a == b
    || ('a' <= a <= 'z' && b as int == a as int - 32)
    || ('a' <= b <= 'z' && a as int == b as int - 32)
  }

  ghost predicate StartsLike(text: string, prefix: string) {
    |prefix| <= |text| && forall i | 0 <= i < |prefix| :: SameLetter(prefix[i], text[i])
  }

  ghost predicate SaysInactive(status: string) {
    exists core :: Trimmed(status, core) && |core| == 8 && StartsLike(core, "INACTIVE")
  }

  /** Blank, or beginning like one of the prefixes. */
  ghost predicate LooksSuspicious(reference: string, prefixes: seq<string>) {
    || Blank(reference)
    || exists core, k :: 0 <= k < |prefixes| && BeginsLike(reference, core, prefixes[k])
  }

  lemma {:induction false} StripTrims(s: string)
    ensures Trimmed(s, Strip(s))
    decreases |s|
  {
    if s != [] && IsSpace(s[0]) {
      StripTrims(s[1..]);
      PadLeft(s, Strip(s[1..]));
    } else if s != [] && IsSpace(s[|s| - 1]) {
      StripTrims(s[..|s| - 1]);
      PadRight(s, Strip(s[..|s| - 1]));
    } else {
      assert s == "" + s + "" && Blank("");
    }
  }

  lemma PadLeft(s: string, core: string)
    requires s != "" && IsSpace(s[0]) && Trimmed(s[1..], core)
    ensures Trimmed(s, core)
  {
    var before, after :| s[1..] == before + core + after && Blank(before) && Blank(after);
    var longer := [s[0]] + before;
    assert s == [s[0]] + s[1..] == longer + core + after && Blank(longer);
  }

  lemma PadRight(s: string, core: string)
    requires s != "" && IsSpace(s[|s| - 1]) && Trimmed(s[..|s| - 1], core)
    ensures Trimmed(s, core)
  {
    var n := |s| - 1;
    var before, after :| s[..n] == before + core + after && Blank(before) && Blank(after);
    var longer := after + [s[n]];
    assert s == s[..n] + [s[n]] == before + core + longer && Blank(longer);
  }

  lemma {:induction false} StripOf(before: string, core: string, after: string)
    requires Blank(before) && Blank(after)
    requires core == "" || (!IsSpace(core[0]) && !IsSpace(core[|core| - 1]))
    ensures Strip(before + core + after) == core
    decreases |before| + |after|
  {
    var s := before + core + after;
    if before != "" {
      assert s[0] == before[0] && s[1..] == before[1..] + core + after;
      StripOf(before[1..], core, after);
    } else if after != "" && core != "" {
      assert s[0] == core[0] && s[|s| - 1] == after[|after| - 1];
      assert s[..|s| - 1] == before + core + after[..|after| - 1];
      StripOf(before, core, after[..|after| - 1]);
    } else if after != "" {
      assert s[0] == after[0] && s[1..] == before + core + after[1..];
      StripOf(before, core, after[1..]);
    } else {
      assert s == core;
    }
  }

  lemma TrimmedIsStrip(s: string, core: string)
    ensures Trimmed(s, core) <==> core == Strip(s)
  {
    StripTrims(s);
    if Trimmed(s, core) {
      var before, after :| s == before + core + after && Blank(before) && Blank(after);
      StripOf(before, core, after);
    }
  }

  lemma UpperPrefix(prefix: string, text: string)
    ensures Upper(prefix) <= Upper(text) <==> StartsLike(text, prefix)
  {
    var p, t := Upper(prefix), Upper(text);
    if p <= t {
      forall i | 0 <= i < |prefix|
        ensures SameLetter(prefix[i], text[i])
      {
        assert p[i] == t[i];
      }
    } else if |prefix| <= |text| {
      var i :| 0 <= i < |p| && p[i] != t[i];
      assert !SameLetter(prefix[i], text[i]);
    }
  }

  lemma BlockedIff(status: string)
    ensures IsBlocked(status) <==> SaysInactive(status)
  {
    var core := Strip(status);
    TrimmedIsStrip(status, core);
    UpperPrefix("INACTIVE", core);
    assert Upper("INACTIVE") == "INACTIVE";
    if SaysInactive(status) {
      var other :| Trimmed(status, other) && |other| == 8 && StartsLike(other, "INACTIVE");
      TrimmedIsStrip(status, other);
      assert Upper(core) == "INACTIVE";
    }
  }

  lemma BlankIff(s: string)
    ensures Blank(s) <==> Strip(s) == ""
  {
    if Blank(s) {
      assert s == s + "" + "" && Blank("");
      StripOf(s, "", "");
    }
    if Strip(s) == "" {
      StripTrims(s);
      var before, after :| s == before + "" + after && Blank(before) && Blank(after);
      assert s == before + after;
    }
  }

  ghost predicate BeginsLike(reference: string, core: string, prefix: string) {
    Trimmed(reference, core) && StartsLike(core, prefix)
  }

  lemma BeginsLikeIff(reference: string, core: string, prefix: string)
    ensures BeginsLike(reference, core, prefix) <==> core == Strip(reference) && Upper(prefix) <= Upper(core)
  {
    TrimmedIsStrip(reference, core);
    UpperPrefix(prefix, core);
  }

  lemma SuspiciousIff(reference: string, prefixes: seq<string>)
    ensures IsSuspicious(reference, prefixes) <==> LooksSuspicious(reference, prefixes)
  {
    var core := Strip(reference);
    BlankIff(reference);
    hide Blank;
    hide Strip;
    if k :| 0 <= k < |prefixes| && Upper(prefixes[k]) <= Upper(core) {
      BeginsLikeIff(reference, core, prefixes[k]);
    }
    if other, k :| 0 <= k < |prefixes| && BeginsLike(reference, other, prefixes[k]) {
      BeginsLikeIff(reference, other, prefixes[k]);
    }
    assert Upper(core) == "" <==> core == "";
  }

  /**
    The decision table, in terms of the event's own text and numbers: an inactive merchant before a suspicious
    reference, that before too many recent intents, that before a large amount, and otherwise approval.
   */
  lemma DecisionTable(e: Event, recent: int, th: Thresholds)
    ensures var v := Evaluate(e, recent, th);
            && v.paymentIntentId == e.paymentIntentId && v.modelVersion == "rules-v2"
            && if SaysInactive(e.merchantStatus) then
                 v.decision == Reject && v.reasonCodes == ["MERCHANT_BLOCKED"]
               else if LooksSuspicious(e.externalReference, th.suspiciousPrefixes) then
                 v.decision == Reject && v.reasonCodes == ["SUSPICIOUS_REFERENCE"]
               else if recent > th.velocityMaxRecent then
                 v.decision == Reject && v.reasonCodes == ["ABNORMAL_VELOCITY"]
               else if e.amountMinor > th.reviewAmountMinor then
                 v.decision == Review && v.reasonCodes == ["AMOUNT_ABOVE_REVIEW_THRESHOLD"]
               else v.decision == Approve && v.reasonCodes == ["LOW_RISK"]
  {
    BlockedIff(e.merchantStatus);
    SuspiciousIff(e.externalReference, th.suspiciousPrefixes);
    hide SaysInactive;
    hide LooksSuspicious;
    hide IsBlocked;
    hide IsSuspicious;
  }

  /** The texts core-api sends for a merchant's status, and the empty one of older events. */
  lemma MerchantStatuses()
    ensures SaysInactive("INACTIVE") && !SaysInactive("ACTIVE") && !SaysInactive("") && !SaysInactive("BLOCKED")
  {
    BlockedIff("INACTIVE");
    BlockedIff("ACTIVE");
    BlockedIff("");
    BlockedIff("BLOCKED");
    assert Strip("INACTIVE") == "INACTIVE" && Strip("ACTIVE") == "ACTIVE" && Strip("BLOCKED") == "BLOCKED";
    assert |Upper("ACTIVE")| == 6 && |Upper("BLOCKED")| == 7 && Upper("INACTIVE") == "INACTIVE";
  }

  /** The amount's points are its share of the threshold in twentieths, rounded down and never more than twenty. */
  lemma AmountPointsReach(amount: int, threshold: int, k: int)
    requires amount >= 0 && threshold > 0 && 0 <= k <= 20
    ensures AmountPoints(amount, threshold) >= k <==> k * threshold <= 20 * amount
  {
    QuotientReaches(20 * amount, threshold, k);
  }

  lemma QuotientReaches(n: int, d: int, k: int)
    requires d > 0
    ensures n / d >= k <==> k * d <= n
  {
    var q, r := n / d, n % d;
    assert n == q * d + r && 0 <= r < d;
    assert n - k * d == (q - k) * d + r;
    if q >= k {
      AtLeast(q - k, d, 0);
    } else {
      AtLeast(k - q, d, 1);
      assert (q - k) * d == -((k - q) * d);
    }
  }

  lemma AtLeast(x: int, d: int, low: int)
    requires d > 0 && x >= low >= 0
    ensures x * d >= low * d
  {
  }

  /** What a score is made of, for every real amount. */
  lemma ScoreAddsUp(e: Event, recent: int, th: Thresholds)
    requires e.amountMinor > 0
    ensures var v, points := Evaluate(e, recent, th), AmountPoints(e.amountMinor, th.reviewAmountMinor);
            && 0 <= points <= 20 && (th.reviewAmountMinor <= 0 ==> points == 0)
            && match v.decision
               case Approve => v.score == 5 + points
               case Review => v.score == 60 + points
               case _ => v.score == 100
  {
    AmountPointsRange(e.amountMinor, th.reviewAmountMinor);
  }

  lemma AmountPointsAtFullThreshold(amount: int, threshold: int)
    requires amount > threshold > 0
    ensures AmountPoints(amount, threshold) == AMOUNT_POINTS_MAX
  {
    assert AMOUNT_POINTS_MAX * amount / threshold >= AMOUNT_POINTS_MAX by {
      assert AMOUNT_POINTS_MAX * amount >= AMOUNT_POINTS_MAX * threshold;
      assert AMOUNT_POINTS_MAX * amount == threshold * AMOUNT_POINTS_MAX + AMOUNT_POINTS_MAX * (amount - threshold);
    }
  }

  lemma AmountPointsRange(amount: int, threshold: int)
    requires amount >= 0
    ensures 0 <= AmountPoints(amount, threshold) <= AMOUNT_POINTS_MAX
  {
  }

  /**
    A score never leaves [0, 100], the range its column accepts; and, for every real amount, it alone tells
    the decision: approvals score 5 to 25, reviews 60 to 80, rejections exactly 100.
   */
  lemma ScoreTellsDecision(e: Event, recent: int, th: Thresholds)
    ensures 0 <= Evaluate(e, recent, th).score <= 100
    ensures e.amountMinor > 0 ==>
      var v := Evaluate(e, recent, th);
      && (v.decision == Approve <==> 5 <= v.score <= 25)
      && (v.decision == Review <==> 60 <= v.score <= 80)
      && (v.decision == Reject <==> v.score == 100)
      && (v.decision == Review && th.reviewAmountMinor > 0 ==> v.score == 80)
  {
    if e.amountMinor > 0 {
      AmountPointsRange(e.amountMinor, th.reviewAmountMinor);
      if e.amountMinor > th.reviewAmountMinor > 0 {
        AmountPointsAtFullThreshold(e.amountMinor, th.reviewAmountMinor);
      }
    }
  }
}
