/** The controller that adapts the waiting buffer percentage to the share of invitations that fail. */
module Adaptive {
  import opened Wrappers
  import opened Domain

  datatype Settings = Settings(
    enabled: bool, basePercent: int, minimum: int, maximum: int, step: int, interval: int, window: int,
    minimumRequests: int, minimumOutcomes: int, minimumSuccess: real)

  datatype RequestStats = RequestStats(successful: real, total: real)

  datatype PurchaseStats = PurchaseStats(purchased: real, cancelled: real, checkoutExpired: real)

  /** What the metrics reader answers during one refresh; None is a failed read. */
  datatype Reading = Reading(requests: Option<RequestStats>, purchases: Option<PurchaseStats>)

  datatype Reason =
    | Disabled | NotEvaluated | Applied | Stable | MetricsUnavailable
    | InsufficientRequests | ReliabilityBelowMinimum | InsufficientPurchases

  datatype Snapshot = Snapshot(
    currentPercent: int, targetPercent: Option<int>, requests: real, successPercent: real, outcomes: real,
    purchasePercent: real, reason: Reason, evaluatedAt: Option<Time>, appliedAt: Option<Time>)

  /** validateConfig. */
  predicate IsValid(s: Settings) {
    && 0 <= s.minimum <= s.basePercent <= s.maximum <= MAX_INT64
    && 0 < s.step <= s.maximum
    && s.interval > 0 && s.window > 0 && s.minimumRequests > 0 && s.minimumOutcomes > 0
    && 0.0 <= s.minimumSuccess <= 100.0
  }

  function Ceiling(x: real): int { -(-x).Floor }

  /** math.Round: halves go away from zero. */
  function Round(x: real): int { if x >= 0.0 then (x + 0.5).Floor else -(0.5 - x).Floor }

  function Percentage(successful: real, total: real): real {
    if total <= 0.0 then 0.0 else Round(successful / total * 10000.0) as real / 100.0
  }

  function Clamp(value: int, minimum: int, maximum: int): int {
    if value < minimum then minimum else if value > maximum then maximum else value
  }

  function TargetPercent(s: Settings, purchased: real, total: real): int {
    Clamp(if purchased > 0.0 then Ceiling(100.0 * (total - purchased) / purchased) else s.maximum, s.minimum, s.maximum)
  }

  /** boundedStep, in 64-bit arithmetic. */
  function BoundedStep(current: int, target: int, step: int): int {
    if target > Wrap64(current + step) then Wrap64(current + step)
    else if target < Wrap64(current - step) then Wrap64(current - step)
    else target
  }

  function Outcomes(p: PurchaseStats): real { p.purchased + p.cancelled + p.checkoutExpired }

  /** Why a reading is skipped, or the target it asks for. */
  datatype Verdict = Skip(reason: Reason) | Aim(target: int)

  function Judge(s: Settings, r: Reading): Verdict {
    if r.requests.None? then Skip(MetricsUnavailable)
    else if r.requests.value.total < s.minimumRequests as real then Skip(InsufficientRequests)
    else if Percentage(r.requests.value.successful, r.requests.value.total) < s.minimumSuccess
        then Skip(ReliabilityBelowMinimum)
    else if r.purchases.None? then Skip(MetricsUnavailable)
    else if Outcomes(r.purchases.value) < s.minimumOutcomes as real then Skip(InsufficientPurchases)
    else Aim(TargetPercent(s, r.purchases.value.purchased, Outcomes(r.purchases.value)))
  }

  /** The request figures suffice, so that the purchases are read as well. */
  predicate Reliable(s: Settings, r: Reading) {
    && r.requests.Some? && r.requests.value.total >= s.minimumRequests as real
    && Percentage(r.requests.value.successful, r.requests.value.total) >= s.minimumSuccess
  }

  /** The percentage after one reading. */
  function Next(s: Settings, percent: int, r: Reading): int {
    match Judge(s, r)
    case Skip(_) => percent
    case Aim(target) => BoundedStep(percent, target, s.step)
  }

  /** The percentage after a sequence of readings. */
  function After(s: Settings, percent: int, readings: seq<Reading>): int
    decreases |readings|
  {
    if |readings| == 0 then percent else After(s, Next(s, percent, readings[0]), readings[1..])
  }

  // ---------------------------------------------------------------------------------------------
  // The target
  // ---------------------------------------------------------------------------------------------

  /** A buffer of `percent` waiting attempts per hundred units replaces every invitation that is expected to
      fail for each purchase. */
  predicate Covers(percent: int, purchased: real, total: real) {
    percent as real * purchased >= 100.0 * (total - purchased)
  }

  lemma CeilingCovers(percent: int, purchased: real, total: real)
    requires purchased > 0.0
    ensures Covers(percent, purchased, total) <==> percent >= Ceiling(100.0 * (total - purchased) / purchased)
  {
    var need := 100.0 * (total - purchased);
    var x := need / purchased;
    assert x * purchased == need;
    assert Covers(percent, purchased, total) <==> percent as real >= x by {
      var gap := percent as real - x;
      assert percent as real * purchased - need == gap * purchased;
      if gap >= 0.0 {
        assert gap * purchased >= 0.0;
      } else {
        assert gap * purchased < 0.0;
      }
    }
    assert -x - 1.0 < (-x).Floor as real <= -x;
    assert Ceiling(x) as real - 1.0 < x <= Ceiling(x) as real;
  }

  /** The target is the smallest permitted percentage that covers the expected failures, or the largest
      permitted one when none does or nothing was sold. */
  lemma TargetIsSmallestCover(s: Settings, purchased: real, total: real)
    requires IsValid(s)
    ensures var t := TargetPercent(s, purchased, total);
            && s.minimum <= t <= s.maximum
            && (purchased <= 0.0 ==> t == s.maximum)
            && (purchased > 0.0 ==>
                  && (Covers(t, purchased, total) || t == s.maximum)
                  && (forall u :: s.minimum <= u < t ==> !Covers(u, purchased, total)))
  {
    hide Ceiling, Covers;
    if purchased > 0.0 {
      var t := TargetPercent(s, purchased, total);
      CeilingCovers(t, purchased, total);
      forall u | s.minimum <= u < t ensures !Covers(u, purchased, total) {
        CeilingCovers(u, purchased, total);
      }
    }
  }

  // ---------------------------------------------------------------------------------------------
  // The verdict
  // ---------------------------------------------------------------------------------------------

  /** The share of successful requests reaches the required percentage when it is given with two decimals: it
      may fall short by less than, or exactly, half of the last one. */
  predicate EnoughSucceed(s: Settings, q: RequestStats) {
    var hundredths := Ceiling(s.minimumSuccess * 100.0);
    if hundredths > 0 then 20000.0 * q.successful >= (2 * hundredths - 1) as real * q.total
    else 20000.0 * q.successful > -q.total
  }

  lemma RoundReaches(x: real, least: int)
    requires 0 <= least
    ensures Round(x) >= least <==> if least > 0 then x >= least as real - 0.5 else x > -0.5
  {
    if x >= 0.0 {
      assert (x + 0.5).Floor as real <= x + 0.5 < (x + 0.5).Floor as real + 1.0;
    } else {
      assert (0.5 - x).Floor as real <= 0.5 - x < (0.5 - x).Floor as real + 1.0;
    }
  }

  lemma CeilingReaches(x: real, n: int)
    ensures n as real >= x <==> n >= Ceiling(x)
  {
    assert (-x).Floor as real <= -x < (-x).Floor as real + 1.0;
  }

  lemma ScaledShare(successful: real, total: real, bound: real)
    requires total > 0.0
    ensures var x := successful / total * 10000.0;
            && (x >= bound <==> 20000.0 * successful >= 2.0 * bound * total)
            && (x > bound <==> 20000.0 * successful > 2.0 * bound * total)
  {
    var share := successful / total;
    var gap := share * 10000.0 - bound;
    assert share * total == successful;
    assert 20000.0 * successful - 2.0 * bound * total == 2.0 * (gap * total);
    if gap > 0.0 {
      assert gap * total > 0.0;
    } else if gap < 0.0 {
      assert gap * total < 0.0;
    }
  }

  lemma PercentageReaches(s: Settings, q: RequestStats)
    requires IsValid(s) && q.total > 0.0
    ensures Percentage(q.successful, q.total) >= s.minimumSuccess <==> EnoughSucceed(s, q)
  {
    var x, least := q.successful / q.total * 10000.0, Ceiling(s.minimumSuccess * 100.0);
    CeilingReaches(s.minimumSuccess * 100.0, Round(x));
    CeilingReaches(s.minimumSuccess * 100.0, -1);
    RoundReaches(x, least);
    ScaledShare(q.successful, q.total, if least > 0 then least as real - 0.5 else -0.5);
    hide Ceiling, Round;
    assert 2.0 * (least as real - 0.5) == (2 * least - 1) as real;
    assert 2.0 * -0.5 * q.total == -q.total;
  }

  /** Every reading is judged by its figures alone, in this order: without requests, with too few of them, with
      too few that succeed, without purchases, with too few outcomes. What passes aims at the smallest
      permitted percentage that covers the expected failures. */
  lemma ReadingIsJudged(s: Settings, r: Reading)
    requires IsValid(s)
    ensures var asked := r.requests.Some? && r.requests.value.total >= s.minimumRequests as real;
            var reliable := asked && EnoughSucceed(s, r.requests.value);
            var sold := r.purchases.Some? && Outcomes(r.purchases.value) >= s.minimumOutcomes as real;
            && (Judge(s, r) == Skip(MetricsUnavailable) <==> r.requests.None? || (reliable && r.purchases.None?))
            && (Judge(s, r) == Skip(InsufficientRequests) <==> r.requests.Some? && !asked)
            && (Judge(s, r) == Skip(ReliabilityBelowMinimum) <==> asked && !reliable)
            && (Judge(s, r) == Skip(InsufficientPurchases) <==> reliable && r.purchases.Some? && !sold)
            && (Judge(s, r).Aim? <==> reliable && sold)
            && (reliable && sold ==>
                  var t, p := Judge(s, r).target, r.purchases.value;
                  && s.minimum <= t <= s.maximum
                  && (p.purchased <= 0.0 ==> t == s.maximum)
                  && (p.purchased > 0.0 ==>
                        && (Covers(t, p.purchased, Outcomes(p)) || t == s.maximum)
                        && (forall u :: s.minimum <= u < t ==> !Covers(u, p.purchased, Outcomes(p)))))
  {
    if r.requests.Some? && r.requests.value.total >= s.minimumRequests as real {
      PercentageReaches(s, r.requests.value);
    }
    if r.purchases.Some? {
      TargetIsSmallestCover(s, r.purchases.value.purchased, Outcomes(r.purchases.value));
    }
    hide Percentage, EnoughSucceed, TargetPercent, Covers, Outcomes;
  }

  // ---------------------------------------------------------------------------------------------
  // The way to the target
  // ---------------------------------------------------------------------------------------------

  predicate InRange(s: Settings, percent: int) { s.minimum <= percent <= s.maximum }

  /** A step stays within the range for every permitted percentage and target if and only if adding the step
      to the maximum does not wrap. Validation does not ask for that; the configuration loader, which allows
      at most 500 for either number, implies it. */
  lemma StepsStayInRange(s: Settings)
    requires IsValid(s)
    ensures (forall current, target :: InRange(s, current) && InRange(s, target) ==>
        InRange(s, BoundedStep(current, target, s.step)))
       <==> s.maximum + s.step <= MAX_INT64
  {
    if s.maximum + s.step <= MAX_INT64 {
      forall current, target | InRange(s, current) && InRange(s, target)
        ensures InRange(s, BoundedStep(current, target, s.step))
      {
      }
    } else {
      assert Wrap64(s.maximum + s.step) == s.maximum + s.step - 2 * (MAX_INT64 + 1);
      assert !InRange(s, BoundedStep(s.maximum, s.maximum, s.step));
    }
  }

  function Distance(a: int, b: int): nat { if a < b then b - a else a - b }

  /** One reading moves the percentage by at most the step, towards its target and never past it, and a
      skipped reading does not move it. */
  lemma OneReading(s: Settings, percent: int, r: Reading)
    requires IsValid(s) && s.maximum + s.step <= MAX_INT64 && InRange(s, percent)
    ensures InRange(s, Next(s, percent, r))
    ensures match Judge(s, r)
            case Skip(_) => Next(s, percent, r) == percent
            case Aim(target) =>
              && InRange(s, target)
              && Distance(percent, target) == Distance(percent, Next(s, percent, r))
                    + Distance(Next(s, percent, r), target)
              && Distance(percent, Next(s, percent, r))
                 == (if Distance(percent, target) < s.step then Distance(percent, target) else s.step)
  {
    hide TargetPercent;
    if r.requests.Some? && r.purchases.Some? {
      TargetIsSmallestCover(s, r.purchases.value.purchased, Outcomes(r.purchases.value));
    }
  }

  lemma {:induction false} ReadingsStayInRange(s: Settings, percent: int, readings: seq<Reading>)
    requires IsValid(s) && s.maximum + s.step <= MAX_INT64 && InRange(s, percent)
    ensures InRange(s, After(s, percent, readings))
    ensures Distance(percent, After(s, percent, readings)) <= |readings| * s.step
    decreases |readings|
  {
    if |readings| > 0 {
      hide Judge, Next, IsValid;
      OneReading(s, percent, readings[0]);
      ReadingsStayInRange(s, Next(s, percent, readings[0]), readings[1..]);
      assert |readings| * s.step == s.step + (|readings| - 1) * s.step;
    }
  }

  /** A reading with full reliability and nothing sold: it asks for the maximum. */
  function NothingSold(s: Settings): Reading {
    Reading(Some(RequestStats(s.minimumRequests as real, s.minimumRequests as real)),
            Some(PurchaseStats(0.0, s.minimumOutcomes as real, 0.0)))
  }

  lemma NothingSoldAimsHigh(s: Settings)
    requires IsValid(s)
    ensures Judge(s, NothingSold(s)) == Aim(s.maximum)
  {
    var n := s.minimumRequests as real;
    assert n / n == 1.0;
    assert Round(n / n * 10000.0) == 10000;
    assert Percentage(n, n) == 100.0;
    hide Percentage;
  }

  /** The failing input: at the maximum, one such reading leaves the range when the step wraps. */
  lemma TopReadingWraps(s: Settings)
    requires IsValid(s) && s.maximum + s.step > MAX_INT64
    ensures InRange(s, s.maximum) && !InRange(s, After(s, s.maximum, [NothingSold(s)]))
  {
    NothingSoldAimsHigh(s);
    hide Judge, NothingSold;
    var readings := [NothingSold(s)];
    assert readings[1..] == [];
    assert Wrap64(s.maximum + s.step) == s.maximum + s.step - 2 * (MAX_INT64 + 1);
    assert After(s, s.maximum, readings) == After(s, Next(s, s.maximum, readings[0]), []);
  }

  /** A percentage that starts within the range stays there for all readings if and only if adding the step to
      the maximum does not wrap. */
  lemma PercentStaysInRange(s: Settings)
    requires IsValid(s)
    ensures (forall percent, readings :: InRange(s, percent) ==> InRange(s, After(s, percent, readings)))
       <==> s.maximum + s.step <= MAX_INT64
  {
    hide After, IsValid;
    if s.maximum + s.step <= MAX_INT64 {
      forall percent, readings | InRange(s, percent) ensures InRange(s, After(s, percent, readings)) {
        ReadingsStayInRange(s, percent, readings);
      }
    } else {
      TopReadingWraps(s);
    }
  }

  /** Readings that all ask for the same target. */
  predicate Steady(s: Settings, readings: seq<Reading>, target: int) {
    forall i :: 0 <= i < |readings| ==> Judge(s, readings[i]) == Aim(target)
  }

  /** Under a constant target every reading closes the gap by exactly one step until it is closed. */
  lemma {:induction false} SteadyProgress(s: Settings, percent: int, readings: seq<Reading>, target: int)
    requires IsValid(s) && s.maximum + s.step <= MAX_INT64 && InRange(s, percent) && Steady(s, readings, target)
    ensures var gap := Distance(percent, target) - |readings| * s.step;
            Distance(After(s, percent, readings), target) == if gap > 0 then gap else 0
    decreases |readings|
  {
    if |readings| > 0 {
      hide Judge, Next;
      OneReading(s, percent, readings[0]);
      var next := Next(s, percent, readings[0]);
      SteadyProgress(s, next, readings[1..], target);
      assert |readings| * s.step == s.step + (|readings| - 1) * s.step;
      NonNegativeProduct(|readings| - 1, s.step);
    }
  }

  lemma RoundedUpQuotient(n: nat, d: nat, step: int)
    requires step > 0
    ensures n >= (d + step - 1) / step <==> n * step >= d
  {
    var q := (d + step - 1) / step;
    assert d + step - 1 == q * step + (d + step - 1) % step;
    if n >= q {
      NonNegativeProduct(n - q, step);
      assert n * step == q * step + (n - q) * step;
    } else {
      NonNegativeProduct(q - 1 - n, step);
      assert n * step == q * step - step - (q - 1 - n) * step;
    }
  }

  /** The target is reached after exactly ceil(distance / step) readings, and kept from then on. */
  lemma TargetReachedOnTime(s: Settings, percent: int, readings: seq<Reading>, target: int)
    requires IsValid(s) && s.maximum + s.step <= MAX_INT64 && InRange(s, percent) && Steady(s, readings, target)
    ensures After(s, percent, readings) == target <==> |readings| >= (Distance(percent, target) + s.step - 1) / s.step
  {
    SteadyProgress(s, percent, readings, target);
    RoundedUpQuotient(|readings|, Distance(percent, target), s.step);
    hide After, Steady;
  }

  // ---------------------------------------------------------------------------------------------
  // The controller
  // ---------------------------------------------------------------------------------------------

  class PercentSource {
    var value: int

    constructor (initial: int)
      ensures value == initial
    {
      value := initial;
    }
  }

  class Controller {
    const config: Settings
    const source: PercentSource
    var snapshot: Snapshot

    constructor (config: Settings, source: PercentSource)
      requires IsValid(config)
      ensures this.config == config && this.source == source && snapshot.currentPercent == source.value
      ensures snapshot.reason == if config.enabled then NotEvaluated else Disabled
    {
      this.config, this.source := config, source;
      this.snapshot := Snapshot(source.value, None, 0.0, 0.0, 0.0, 0.0,
                                if config.enabled then NotEvaluated else Disabled, None, None);
    }

    /** Refresh: publishes the next percentage and reports how it came about; a disabled controller does nothing. */
    method Refresh(r: Reading, now: Time)
      modifies this`snapshot, source
      ensures !config.enabled ==> source.value == old(source.value) && snapshot == old(snapshot)
      ensures config.enabled ==>
                && source.value == Next(config, old(source.value), r)
                && snapshot.currentPercent == source.value && snapshot.evaluatedAt == Some(now)
                && snapshot.requests == (if r.requests.Some? then r.requests.value.total else 0.0)
                && snapshot.successPercent
                   == (if r.requests.Some? then Percentage(r.requests.value.successful, r.requests.value.total)
                       else 0.0)
                && snapshot.outcomes
                   == (if Reliable(config, r) && r.purchases.Some? then Outcomes(r.purchases.value) else 0.0)
                && snapshot.purchasePercent
                   == (if Reliable(config, r) && r.purchases.Some?
                       then Percentage(r.purchases.value.purchased, Outcomes(r.purchases.value)) else 0.0)
                && match Judge(config, r)
                   case Skip(reason) =>
                     snapshot.reason == reason && snapshot.targetPercent.None? && snapshot.appliedAt
                         == old(snapshot.appliedAt)
                   case Aim(target) =>
                     snapshot.targetPercent == Some(target)
                     && (snapshot.reason.Applied? <==> source.value != old(source.value))
                     && (snapshot.reason.Stable? <==> source.value == old(source.value))
                     && snapshot.appliedAt == if snapshot.reason.Applied? then Some(now) else old(snapshot.appliedAt)
    {
      hide TargetPercent, BoundedStep, Percentage;
      if !config.enabled {
        return;
      }
      if r.requests.None? {
        RecordSkipped(now, MetricsUnavailable, 0.0, 0.0, 0.0, 0.0);
        return;
      }
      var requests := r.requests.value;
      var successPercent := Percentage(requests.successful, requests.total);
      if requests.total < config.minimumRequests as real {
        RecordSkipped(now, InsufficientRequests, requests.total, successPercent, 0.0, 0.0);
        return;
      }
      if successPercent < config.minimumSuccess {
        RecordSkipped(now, ReliabilityBelowMinimum, requests.total, successPercent, 0.0, 0.0);
        return;
      }
      if r.purchases.None? {
        RecordSkipped(now, MetricsUnavailable, requests.total, successPercent, 0.0, 0.0);
        return;
      }
      var outcomes := Outcomes(r.purchases.value);
      var purchasePercent := Percentage(r.purchases.value.purchased, outcomes);
      if outcomes < config.minimumOutcomes as real {
        RecordSkipped(now, InsufficientPurchases, requests.total, successPercent, outcomes, purchasePercent);
        return;
      }
      var target := TargetPercent(config, r.purchases.value.purchased, outcomes);
      var current := source.value;
      var next := BoundedStep(current, target, config.step);
      var reason, appliedAt := Stable, snapshot.appliedAt;
      if next != current {
        source.value := next;
        reason, appliedAt := Applied, Some(now);
      }
      snapshot := Snapshot(next, Some(target), requests.total, successPercent, outcomes, purchasePercent, reason,
          Some(now), appliedAt);
    }

    method RecordSkipped(now: Time, reason: Reason, requests: real, successPercent: real, outcomes: real,
        purchasePercent: real)
      modifies this`snapshot
      ensures snapshot == Snapshot(source.value, None, requests, successPercent, outcomes, purchasePercent, reason,
                                   Some(now), old(snapshot.appliedAt))
    {
      snapshot := snapshot.(currentPercent := source.value, targetPercent := None, requests := requests,
      successPercent := successPercent, outcomes := outcomes, purchasePercent := purchasePercent,
      reason := reason, evaluatedAt := Some(now));
    }
  }
}
