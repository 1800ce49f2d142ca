/** Recovery times, the unrecovered curve and its restricted mean. */
module Recovery {
  import opened Wrappers

  const FOLLOWUP_DAYS: nat := 14
  const MINIMUM_VALID_DAYS: nat := 10
  const CENSORED_TIME: nat := 15
  const THRESHOLD: real := 0.10

  /** A trajectory: when it recovered, up to when it had not, or why neither is known. */
  datatype Observation = Observed(time: nat, recovered: bool) | Missing(reason: string)

  predicate AllInRange(rows: seq<Observation>) {
    forall o | o in rows :: o.Observed? ==> 1 <= o.time <= CENSORED_TIME
  }

  // ----- Counting -----

  function ValidCount(rows: seq<Observation>): nat {
    if rows == [] then 0 else (if rows[0].Observed? then 1 else 0) + ValidCount(rows[1..])
  }

  function AtRisk(rows: seq<Observation>, t: nat): nat {
    if rows == [] then 0
    else (if rows[0].Observed? && rows[0].time >= t then 1 else 0) + AtRisk(rows[1..], t)
  }

  function Events(rows: seq<Observation>, t: nat): nat {
    if rows == [] then 0
    else (if rows[0].Observed? && rows[0].time == t && rows[0].recovered then 1 else 0) + Events(rows[1..], t)
  }

  function Censored(rows: seq<Observation>, t: nat): nat {
    if rows == [] then 0
    else (if rows[0].Observed? && rows[0].time == t && !rows[0].recovered then 1 else 0) + Censored(rows[1..], t)
  }

  lemma {:induction false} AtRiskSplits(rows: seq<Observation>, t: nat)
    ensures AtRisk(rows, t) == Events(rows, t) + Censored(rows, t) + AtRisk(rows, t + 1)
  {
    if rows != [] {
      AtRiskSplits(rows[1..], t);
    }
  }

  lemma {:induction false} EveryoneStartsAtRisk(rows: seq<Observation>)
    requires AllInRange(rows)
    ensures AtRisk(rows, 1) == ValidCount(rows)
  {
    if rows != [] {
      EveryoneStartsAtRisk(rows[1..]);
      assert rows[0] in rows;
    }
  }

  lemma {:induction false} CensoredNow(rows: seq<Observation>, t: nat)
    ensures Censored(rows, t) > 0 <==> exists o | o in rows :: o.Observed? && o.time == t && !o.recovered
  {
    if rows != [] {
      CensoredNow(rows[1..], t);
      assert rows == [rows[0]] + rows[1..];
    }
  }

  // ----- The curve and its restricted mean -----

  function Share(part: nat, whole: nat): real
    requires whole > 0
  {
    part as real / whole as real
  }

  /** What is left of `s` when `events` of those at risk recover. */
  function Decayed(s: real, events: nat, atRisk: nat): real
    requires atRisk > 0
  {
    s * (1.0 - Share(events, atRisk))
  }

  /** The product-limit estimate of not having recovered by day `t`. */
  function Survival(rows: seq<Observation>, t: nat): real {
    if t == 0 then 1.0
    else if AtRisk(rows, t) == 0 then Survival(rows, t - 1)
    else Decayed(Survival(rows, t - 1), Events(rows, t), AtRisk(rows, t))
  }

  function RestrictedMean(rows: seq<Observation>, horizon: nat): real {
    if horizon == 0 then 0.0 else RestrictedMean(rows, horizon - 1) + Survival(rows, horizon - 1)
  }

  datatype RiskPoint = RiskPoint(time: nat, atRisk: nat, events: nat, censored: nat, survival: real)

  datatype Summary =
    | BadHorizon
    | Summary(restrictedMean: Option<real>, assignedCount: nat, validCount: nat, missingCount: nat, missingByReason: map<string, nat>,
              curve: seq<RiskPoint>)

  function MissingFor(rows: seq<Observation>, reason: string): nat {
    if rows == [] then 0
    else (if rows[0] == Missing(reason) then 1 else 0) + MissingFor(rows[1..], reason)
  }

  function MissingCount(rows: seq<Observation>): nat {
    if rows == [] then 0 else (if rows[0].Missing? then 1 else 0) + MissingCount(rows[1..])
  }

  /** Every reason given by the first `n` rows, with how many of them give it. */
  ghost predicate CountsReasons(counts: map<string, nat>, rows: seq<Observation>, n: nat)
    requires n <= |rows|
  {
    && (forall reason :: reason in counts <==> Missing(reason) in rows[..n])
    && (forall reason | reason in counts :: counts[reason] == MissingFor(rows[..n], reason))
  }

  lemma {:induction false} MissingForLonger(rows: seq<Observation>, o: Observation, reason: string)
    ensures MissingFor(rows + [o], reason) == MissingFor(rows, reason) + (if o == Missing(reason) then 1 else 0)
    ensures MissingCount(rows + [o]) == MissingCount(rows) + (if o.Missing? then 1 else 0)
  {
    if rows == [] {
      assert rows + [o] == [o];
    } else {
      assert (rows + [o])[1..] == rows[1..] + [o];
      MissingForLonger(rows[1..], o, reason);
    }
  }

  lemma {:induction false} NotGivenIsZero(rows: seq<Observation>, reason: string)
    requires Missing(reason) !in rows
    ensures MissingFor(rows, reason) == 0
  {
    if rows != [] {
      NotGivenIsZero(rows[1..], reason);
    }
  }

  lemma {:induction false} ValidOrMissing(rows: seq<Observation>)
    ensures ValidCount(rows) + MissingCount(rows) == |rows|
  {
    if rows != [] {
      ValidOrMissing(rows[1..]);
    }
  }

  /** Counts the missing rows by reason. */
  method CountReasons(rows: seq<Observation>) returns (counts: map<string, nat>)
    ensures CountsReasons(counts, rows, |rows|)
  {
    counts := map[];
    for i := 0 to |rows|
      invariant CountsReasons(counts, rows, i)
    {
      assert rows[..i + 1] == rows[..i] + [rows[i]];
      forall reason ensures MissingFor(rows[..i + 1], reason) == MissingFor(rows[..i], reason) + (if rows[i] == Missing(reason) then 1 else 0) {
        MissingForLonger(rows[..i], rows[i], reason);
      }
      if rows[i].Missing? {
        var reason := rows[i].reason;
        if reason !in counts {
          NotGivenIsZero(rows[..i], reason);
        }
        counts := counts[reason := (if reason in counts then counts[reason] else 0) + 1];
      }
    }
  }

  function PointAt(rows: seq<Observation>, t: nat): RiskPoint {
    if t == 0 then RiskPoint(0, ValidCount(rows), 0, 0, 1.0)
    else RiskPoint(t, AtRisk(rows, t), Events(rows, t), Censored(rows, t), Survival(rows, t))
  }

  method SummarizeRecovery(rows: seq<Observation>, horizon: int) returns (r: Summary)
    ensures r.BadHorizon? <==> !(1 <= horizon <= 15)
    ensures r.Summary? ==>
              && r.assignedCount == |rows| && r.validCount == ValidCount(rows) && r.missingCount == MissingCount(rows)
              && CountsReasons(r.missingByReason, rows, |rows|)
              && (r.validCount == 0 ==> r.restrictedMean == None && r.curve == [])
              && (r.validCount > 0 ==> r.restrictedMean == Some(RestrictedMean(rows, horizon)))
              && (r.validCount > 0 ==> |r.curve| == horizon + 1 && forall t | 0 <= t <= horizon :: r.curve[t] == PointAt(rows, t))
  {
    if !(1 <= horizon <= 15) {
      return BadHorizon;
    }
    var valid, missing := ValidCount(rows), MissingCount(rows);
    var reasons := CountReasons(rows);
    if valid == 0 {
      return Summary(None, |rows|, 0, missing, reasons, []);
    }
    var survival := 1.0;
    var points := [RiskPoint(0, valid, 0, 0, 1.0)];
    var restrictedMean := 0.0;
    for time := 1 to horizon + 1
      invariant survival == Survival(rows, time - 1)
      invariant restrictedMean == RestrictedMean(rows, time - 1)
      invariant |points| == time && forall t | 0 <= t < time :: points[t] == PointAt(rows, t)
    {
      restrictedMean := restrictedMean + survival;
      var atRisk := AtRisk(rows, time);
      var events := Events(rows, time);
      var censored := Censored(rows, time);
      if atRisk > 0 {
        survival := survival * (1.0 - Share(events, atRisk));
      }
      points := points + [RiskPoint(time, atRisk, events, censored, survival)];
    }
    return Summary(Some(restrictedMean), |rows|, valid, missing, reasons, points);
  }

  // ----- What the curve estimates -----

  /** Whoever had not recovered was watched to the horizon. */
  predicate WatchedToHorizon(rows: seq<Observation>, horizon: nat) {
    forall o | o in rows :: o.Observed? && !o.recovered ==> o.time >= horizon
  }

  function TimesCount(x: real, n: nat): real {
    x * n as real
  }

  /** Survival before day `t` is the fraction still at risk on day `t`. */
  predicate IsAtRiskFraction(rows: seq<Observation>, t: nat)
    requires t >= 1
  {
    TimesCount(Survival(rows, t - 1), ValidCount(rows)) == AtRisk(rows, t) as real
  }

  lemma DecayedCount(s: real, n: nat, r: nat, e: nat)
    requires r > 0 && e <= r && TimesCount(s, n) == r as real
    ensures TimesCount(Decayed(s, e, r), n) == (r - e) as real
  {
    var x, m := 1.0 - Share(e, r), n as real;
    assert s * x * m == s * m * x;
    assert r as real * Share(e, r) == e as real;
    assert r as real * x == r as real - r as real * Share(e, r);
  }

  /** One day on, the fraction is right again exactly when nobody was lost on that day. */
  lemma NextFraction(rows: seq<Observation>, t: nat)
    requires t >= 1 && IsAtRiskFraction(rows, t)
    ensures IsAtRiskFraction(rows, t + 1) <==> Censored(rows, t) == 0
  {
    hide TimesCount, Decayed, Share, AtRisk, Events, Censored, ValidCount;
    AtRiskSplits(rows, t);
    if AtRisk(rows, t) > 0 {
      DecayedCount(Survival(rows, t - 1), ValidCount(rows), AtRisk(rows, t), Events(rows, t));
    }
  }

  lemma {:induction false} FractionsUpTo(rows: seq<Observation>, t: nat)
    requires AllInRange(rows) && ValidCount(rows) > 0 && t >= 1 && WatchedToHorizon(rows, t)
    ensures IsAtRiskFraction(rows, t)
  {
    if t == 1 {
      EveryoneStartsAtRisk(rows);
    } else {
      FractionsUpTo(rows, t - 1);
      CensoredNow(rows, t - 1);
      NextFraction(rows, t - 1);
    }
  }

  /** Survival is the at-risk fraction all the way to the horizon exactly when nobody was lost before it. */
  lemma SurvivalIsAtRiskIff(rows: seq<Observation>, horizon: nat)
    requires AllInRange(rows) && ValidCount(rows) > 0 && horizon >= 1
    ensures (forall t | 1 <= t <= horizon :: IsAtRiskFraction(rows, t)) <==> WatchedToHorizon(rows, horizon)
  {
    if WatchedToHorizon(rows, horizon) {
      forall t | 1 <= t <= horizon ensures IsAtRiskFraction(rows, t) {
        FractionsUpTo(rows, t);
      }
    }
    if forall t | 1 <= t <= horizon :: IsAtRiskFraction(rows, t) {
      forall o | o in rows && o.Observed? && !o.recovered ensures o.time >= horizon {
        if o.time < horizon {
          CensoredNow(rows, o.time);
          assert IsAtRiskFraction(rows, o.time) && IsAtRiskFraction(rows, o.time + 1);
          NextFraction(rows, o.time);
          assert false;
        }
      }
    }
  }

  function MinNat(a: nat, b: nat): nat {
    if a <= b then a else b
  }

  /** The days spent unrecovered up to the horizon, added over the trajectories. */
  function TotalTime(rows: seq<Observation>, horizon: nat): nat {
    if rows == [] then 0
    else (if rows[0].Observed? then MinNat(rows[0].time, horizon) else 0) + TotalTime(rows[1..], horizon)
  }

  lemma {:induction false} OneMoreDay(rows: seq<Observation>, horizon: nat)
    ensures TotalTime(rows, horizon + 1) == TotalTime(rows, horizon) + AtRisk(rows, horizon + 1)
  {
    if rows != [] {
      OneMoreDay(rows[1..], horizon);
    }
  }

  lemma {:induction false} NoDays(rows: seq<Observation>)
    ensures TotalTime(rows, 0) == 0
  {
    if rows != [] {
      NoDays(rows[1..]);
    }
  }

  lemma CountOfSum(x: real, y: real, n: nat)
    ensures TimesCount(x + y, n) == TimesCount(x, n) + TimesCount(y, n)
  {
  }

  lemma DivideOut(x: real, n: nat, total: nat)
    requires n > 0 && TimesCount(x, n) == total as real
    ensures x == Share(total, n)
  {
    assert x == x * n as real / n as real;
  }

  /** Then the restricted mean is the average time to recovery, cut off at the horizon. */
  lemma {:induction false} RestrictedMeanIsAverage(rows: seq<Observation>, horizon: nat)
    requires AllInRange(rows) && ValidCount(rows) > 0 && WatchedToHorizon(rows, horizon)
    ensures TimesCount(RestrictedMean(rows, horizon), ValidCount(rows)) == TotalTime(rows, horizon) as real
  {
    hide TimesCount, AtRisk, ValidCount, TotalTime, Survival;
    if horizon == 0 {
      CountOfSum(0.0, 0.0, ValidCount(rows));
      NoDays(rows);
    } else {
      RestrictedMeanIsAverage(rows, horizon - 1);
      FractionsUpTo(rows, horizon);
      OneMoreDay(rows, horizon - 1);
      CountOfSum(RestrictedMean(rows, horizon - 1), Survival(rows, horizon - 1), ValidCount(rows));
    }
  }

  // ----- When somebody is lost early -----

  lemma DecayedAtLeast(s: real, n: nat, r: nat, e: nat)
    requires r > 0 && e <= r && TimesCount(s, n) >= r as real
    ensures TimesCount(Decayed(s, e, r), n) >= (r - e) as real
  {
    hide TimesCount, Decayed, Share;
    KeptShare(r, e);
    DecayedTimes(s, n, e, r);
    SmallerProduct(r as real, TimesCount(s, n), 1.0 - Share(e, r));
  }

  lemma KeptShare(r: nat, e: nat)
    requires r > 0 && e <= r
    ensures 1.0 - Share(e, r) >= 0.0 && r as real * (1.0 - Share(e, r)) == (r - e) as real
  {
    assert r as real * Share(e, r) == e as real;
    assert Share(e, r) <= 1.0;
  }

  lemma DecayedTimes(s: real, n: nat, e: nat, r: nat)
    requires r > 0
    ensures TimesCount(Decayed(s, e, r), n) == TimesCount(s, n) * (1.0 - Share(e, r))
  {
    hide Share;
    var x, m := 1.0 - Share(e, r), n as real;
    assert s * x * m == s * m * x;
  }

  lemma SmallerProduct(a: real, b: real, x: real)
    requires a <= b && x >= 0.0
    ensures a * x <= b * x
  {
  }

  lemma WholeCount(n: nat)
    ensures TimesCount(1.0, n) == n as real
  {
  }

  /** Survival before a day is never less than the fraction at risk, and exceeds it by those lost the day before. */
  lemma {:induction false} SurvivalIsAtLeast(rows: seq<Observation>, t: nat)
    requires AllInRange(rows) && ValidCount(rows) > 0 && t >= 1
    ensures TimesCount(Survival(rows, t - 1), ValidCount(rows)) >= (AtRisk(rows, t) + if t >= 2 then Censored(rows, t - 1) else 0) as real
  {
    hide TimesCount, Decayed, Share, AtRisk, Events, Censored, ValidCount;
    if t == 1 {
      EveryoneStartsAtRisk(rows);
      WholeCount(ValidCount(rows));
    } else {
      SurvivalIsAtLeast(rows, t - 1);
      AtRiskSplits(rows, t - 1);
      if AtRisk(rows, t - 1) > 0 {
        DecayedAtLeast(Survival(rows, t - 2), ValidCount(rows), AtRisk(rows, t - 1), Events(rows, t - 1));
      }
    }
  }

  /** The restricted mean is never below the average, and is above it once somebody has been lost early. */
  lemma {:induction false} MeanIsAtLeast(rows: seq<Observation>, horizon: nat)
    requires AllInRange(rows) && ValidCount(rows) > 0
    ensures TimesCount(RestrictedMean(rows, horizon), ValidCount(rows)) >= TotalTime(rows, horizon) as real
    ensures LosesSomeoneBefore(rows, horizon) ==> TimesCount(RestrictedMean(rows, horizon), ValidCount(rows)) > TotalTime(rows, horizon) as real
  {
    hide TimesCount, AtRisk, ValidCount, TotalTime, Survival, Censored;
    if horizon == 0 {
      CountOfSum(0.0, 0.0, ValidCount(rows));
      NoDays(rows);
    } else {
      MeanIsAtLeast(rows, horizon - 1);
      SurvivalIsAtLeast(rows, horizon);
      OneMoreDay(rows, horizon - 1);
      CountOfSum(RestrictedMean(rows, horizon - 1), Survival(rows, horizon - 1), ValidCount(rows));
    }
  }

  predicate LosesSomeoneBefore(rows: seq<Observation>, horizon: nat) {
    exists t | 1 <= t < horizon :: Censored(rows, t) > 0
  }

  lemma WatchedMeansNoneLost(rows: seq<Observation>, horizon: nat)
    requires AllInRange(rows)
    ensures WatchedToHorizon(rows, horizon) <==> !LosesSomeoneBefore(rows, horizon)
  {
    hide Censored;
    if t :| 1 <= t < horizon && Censored(rows, t) > 0 {
      CensoredNow(rows, t);
    }
    if !WatchedToHorizon(rows, horizon) {
      var o :| o in rows && o.Observed? && !o.recovered && o.time < horizon;
      CensoredNow(rows, o.time);
    }
  }

  /** The restricted mean is the average time, cut off at the horizon, exactly when nobody was lost before the horizon. */
  lemma RestrictedMeanIsAverageIff(rows: seq<Observation>, horizon: nat)
    requires AllInRange(rows) && ValidCount(rows) > 0
    ensures TimesCount(RestrictedMean(rows, horizon), ValidCount(rows)) == TotalTime(rows, horizon) as real <==> WatchedToHorizon(rows, horizon)
  {
    hide TimesCount, ValidCount, TotalTime, RestrictedMean, LosesSomeoneBefore, WatchedToHorizon;
    WatchedMeansNoneLost(rows, horizon);
    if WatchedToHorizon(rows, horizon) {
      RestrictedMeanIsAverage(rows, horizon);
    } else {
      MeanIsAtLeast(rows, horizon);
    }
  }

  /** One row lost on day one makes the mean two days, where the average is one and a half. */
  lemma LostEarlyExample()
    ensures var rows := [Observed(1, false), Observed(2, true)];
            && AllInRange(rows) && ValidCount(rows) == 2
            && RestrictedMean(rows, 2) == 2.0 && TotalTime(rows, 2) == 3
  {
    var rows := [Observed(1, false), Observed(2, true)];
    assert rows[1..] == [Observed(2, true)] && rows[1..][1..] == [];
    assert AtRisk(rows, 1) == 2 && Events(rows, 1) == 0;
    assert Survival(rows, 0) == 1.0;
    assert Survival(rows, 1) == 1.0;
    assert RestrictedMean(rows, 1) == 1.0;
  }

  // ----- Recovery times -----

  datatype Day = Day(followupDay: int, focal: Option<real>, neutral: Option<real>)

  datatype RecoveryMetric = BadDays | TooFewDays | Time(value: nat, censored: bool)

  predicate IsFollowup(days: seq<Day>) {
    && (forall i, j | 0 <= i < j < |days| :: days[i].followupDay != days[j].followupDay)
    && (forall d | d in days :: 1 <= d.followupDay <= FOLLOWUP_DAYS)
    && (forall n | 1 <= n <= FOLLOWUP_DAYS :: HasDay(days, n))
  }

  predicate HasDay(days: seq<Day>, n: int) {
    exists d | d in days :: d.followupDay == n
  }

  function ExcessOf(d: Day): Option<real> {
    if d.focal.Some? && d.neutral.Some? then Some(d.focal.value - d.neutral.value) else None
  }

  /** The paired excess of one follow-up day, when both rates are known. */
  function ExcessOn(days: seq<Day>, n: int): Option<real> {
    if days == [] then None
    else if days[0].followupDay == n then ExcessOf(days[0])
    else ExcessOn(days[1..], n)
  }

  function Excesses(days: seq<Day>): (r: seq<Option<real>>)
    ensures |r| == FOLLOWUP_DAYS
  {
    seq(FOLLOWUP_DAYS, i requires 0 <= i < FOLLOWUP_DAYS => ExcessOn(days, i + 1))
  }

  function KnownDays(excess: seq<Option<real>>): nat {
    if excess == [] then 0 else (if excess[0].Some? then 1 else 0) + KnownDays(excess[1..])
  }

  /** Days `k` and `k + 1`, counted from one, are both known and at most the threshold. */
  predicate RecoversAt(excess: seq<Option<real>>, threshold: real, k: nat)
    requires 1 <= k < |excess|
  {
    && excess[k - 1].Some? && excess[k - 1].value <= threshold
    && excess[k].Some? && excess[k].value <= threshold
  }

  /** The first day of the first two in a row at most the threshold. */
  method FirstTwoDayRecovery(excess: seq<Option<real>>, threshold: real) returns (index: Option<nat>)
    ensures index.Some? ==> 1 <= index.value < |excess| && RecoversAt(excess, threshold, index.value)
    ensures index.Some? ==> forall k | 1 <= k < index.value :: !RecoversAt(excess, threshold, k)
    ensures index.None? ==> forall k | 1 <= k < |excess| :: !RecoversAt(excess, threshold, k)
  {
    if |excess| < 2 {
      return None;
    }
    for i := 1 to |excess|
      invariant forall k | 1 <= k < i :: !RecoversAt(excess, threshold, k)
    {
      if excess[i - 1].Some? && excess[i].Some? {
        if excess[i - 1].value <= threshold && excess[i].value <= threshold {
          return Some(i);
        }
      }
    }
    return None;
  }

  /** The recovery time of a trajectory: the first recovering day, or fifteen when there is none. */
  method RecoveryTime(days: seq<Day>) returns (r: RecoveryMetric)
    ensures r.BadDays? <==> !IsFollowup(days)
    ensures r.TooFewDays? <==> IsFollowup(days) && KnownDays(Excesses(days)) < MINIMUM_VALID_DAYS
    ensures r.Time? ==> MetricOk(r)
    ensures r.Time? && !r.censored ==>
              && r.value < FOLLOWUP_DAYS && RecoversAt(Excesses(days), THRESHOLD, r.value)
              && forall k | 1 <= k < r.value :: !RecoversAt(Excesses(days), THRESHOLD, k)
    ensures r.Time? && r.censored ==> forall k | 1 <= k < FOLLOWUP_DAYS :: !RecoversAt(Excesses(days), THRESHOLD, k)
  {
    if !IsFollowup(days) {
      return BadDays;
    }
    var excess := Excesses(days);
    if KnownDays(excess) < MINIMUM_VALID_DAYS {
      return TooFewDays;
    }
    var index := FirstTwoDayRecovery(excess, THRESHOLD);
    return if index.Some? then Time(index.value, false) else Time(CENSORED_TIME, true);
  }

  predicate MetricOk(m: RecoveryMetric) {
    m.Time? ==> if m.censored then m.value == CENSORED_TIME else 1 <= m.value < FOLLOWUP_DAYS
  }

  function ToObservation(m: RecoveryMetric): Observation {
    match m
    case Time(value, censored) => Observed(value, !censored)
    case TooFewDays => Missing("insufficient paired days")
    case BadDays => Missing("invalid")
  }

  function ToObservations(metrics: seq<RecoveryMetric>): (r: seq<Observation>)
    ensures |r| == |metrics| && forall i | 0 <= i < |r| :: r[i] == ToObservation(metrics[i])
  {
    if metrics == [] then [] else [ToObservation(metrics[0])] + ToObservations(metrics[1..])
  }

  /** Recovery times are watched to every horizon the summary accepts, so its mean is the average. */
  lemma RecoveryTimesGiveAverages(metrics: seq<RecoveryMetric>, horizon: nat)
    requires (forall m | m in metrics :: MetricOk(m)) && 1 <= horizon <= 15
    ensures var rows := ToObservations(metrics);
            && AllInRange(rows) && WatchedToHorizon(rows, horizon)
            && (ValidCount(rows) > 0 ==> RestrictedMean(rows, horizon) == Share(TotalTime(rows, horizon), ValidCount(rows)))
  {
    hide TimesCount, Share, RestrictedMean, TotalTime, ValidCount;
    var rows := ToObservations(metrics);
    forall o | o in rows ensures o.Observed? ==> 1 <= o.time <= CENSORED_TIME && (!o.recovered ==> o.time >= horizon) {
      var i :| 0 <= i < |rows| && rows[i] == o;
      assert MetricOk(metrics[i]);
    }
    if ValidCount(rows) > 0 {
      RestrictedMeanIsAverage(rows, horizon);
      DivideOut(RestrictedMean(rows, horizon), ValidCount(rows), TotalTime(rows, horizon));
    }
  }

  // ----- The recovery curve -----

  function UsableAt(metrics: seq<RecoveryMetric>, day: nat): nat {
    if metrics == [] then 0
    else (if metrics[0].Time? && metrics[0].value >= day then 1 else 0) + UsableAt(metrics[1..], day)
  }

  function UnrecoveredAt(metrics: seq<RecoveryMetric>, day: nat): nat {
    if metrics == [] then 0
    else (if metrics[0].Time? && metrics[0].value >= day && (metrics[0].value > day || metrics[0].censored) then 1 else 0)
         + UnrecoveredAt(metrics[1..], day)
  }

  /** The conditional probability of staying unrecovered on a day, where anyone is at risk. */
  function CurvePoint(metrics: seq<RecoveryMetric>, day: nat): Option<real> {
    if UsableAt(metrics, day) == 0 then None
    else Some(Share(UnrecoveredAt(metrics, day), UsableAt(metrics, day)))
  }

  method RecoveryCurve(metrics: seq<RecoveryMetric>) returns (points: seq<Option<real>>)
    ensures |points| == FOLLOWUP_DAYS && forall i | 0 <= i < FOLLOWUP_DAYS :: points[i] == CurvePoint(metrics, i + 1)
  {
    points := [];
    for day := 1 to FOLLOWUP_DAYS + 1
      invariant |points| == day - 1 && forall i | 0 <= i < day - 1 :: points[i] == CurvePoint(metrics, i + 1)
    {
      var atRisk := UsableAt(metrics, day);
      if atRisk == 0 {
        points := points + [None];
      } else {
        points := points + [Some(Share(UnrecoveredAt(metrics, day), atRisk))];
      }
    }
  }

  /** The running product of the defined points through a day. */
  function CurveProduct(metrics: seq<RecoveryMetric>, day: nat): real {
    if day == 0 then 1.0
    else CurveProduct(metrics, day - 1) * CurvePoint(metrics, day).GetOr(Some(1.0)).value
  }

  lemma {:induction false} CurveCounts(metrics: seq<RecoveryMetric>, day: nat)
    ensures UsableAt(metrics, day) == AtRisk(ToObservations(metrics), day)
    ensures UnrecoveredAt(metrics, day) == AtRisk(ToObservations(metrics), day) - Events(ToObservations(metrics), day)
  {
    if metrics != [] {
      CurveCounts(metrics[1..], day);
      assert ToObservations(metrics)[1..] == ToObservations(metrics[1..]);
    }
  }

  lemma ShareTimes(e: nat, r: nat)
    requires r > 0
    ensures Share(e, r) * r as real == e as real
  {
  }

  lemma CancelRight(a: real, b: real, w: real)
    requires w > 0.0 && (a - b) * w == 0.0
    ensures a == b
  {
  }

  lemma ShareOfRest(r: nat, e: nat)
    requires r > 0 && e <= r
    ensures Share(r - e, r) == 1.0 - Share(e, r)
  {
    hide Share;
    var a, s, w := Share(r - e, r), Share(e, r), r as real;
    ShareTimes(e, r);
    ShareTimes(r - e, r);
    assert (a - (1.0 - s)) * w == a * w - w + s * w;
    CancelRight(a, 1.0 - s, w);
  }

  /** The two ways of drawing the curve agree: the product of the conditional points is the survival. */
  lemma {:induction false} CurveProductIsSurvival(metrics: seq<RecoveryMetric>, day: nat)
    ensures CurveProduct(metrics, day) == Survival(ToObservations(metrics), day)
  {
    hide Share, AtRisk, Events, UsableAt, UnrecoveredAt, ToObservations;
    if day > 0 {
      CurveProductIsSurvival(metrics, day - 1);
      CurveCounts(metrics, day);
      var rows := ToObservations(metrics);
      if AtRisk(rows, day) > 0 {
        ShareOfRest(AtRisk(rows, day), Events(rows, day));
      }
    }
  }
}
