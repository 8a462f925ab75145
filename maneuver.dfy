/** The maneuver-time estimator (`SatelliteAnalyzer.calculate_maneuver_time`
    and its two keyed lookups `_get_leo_context` and
    `_get_operational_recommendations`).

    The lead time needed before an avoidance maneuver is
        t = (R_req + n·σ0) / (v_rel − n·k)
    seconds, for relative velocity v_rel (m/s), required separation R_req (m),
    1-sigma position uncertainty σ0 (m), uncertainty growth k (m/s) and
    confidence factor n. All arithmetic is over `real`. */
module Maneuver {
  import opened Common

  /** The four error dictionaries, in the order they are checked. */
  datatype ManeuverError =
    | InvalidVelocity
    | InvalidSafetyDistance
    | InvalidUncertainty
    | InfeasibleConfiguration(vRel: real, nK: real, deficit: real)

  /** '🔴 CRÍTICO', '🟠 ALTO', '🟡 MEDIO', '🟢 BAJO' and '🔵 MÍNIMO'; each carries
      its own fixed recommendation text. */
  datatype Criticality = Critical | High | Medium | Low | Minimal

  datatype LeadTime = LeadTime(seconds: real, minutes: real, hours: real, days: real)

  /** The conservative (2σ) and aggressive (1σ) alternatives. */
  datatype ScenarioKind = Conservative2Sigma | Aggressive1Sigma

  datatype AltScenario = AltScenario(kind: ScenarioKind, seconds: real, hours: real)

  /** Lead times for v_rel scaled by 1.1 and 0.9 (absent when infeasible) and
      for σ0 scaled by 1.5 and 0.5. */
  datatype Sensitivity = Sensitivity(
    vRelHigh: real, tHigh: Option<real>,
    vRelLow: real, tLow: Option<real>,
    sigmaHigh: real, tSigmaHigh: real,
    sigmaLow: real, tSigmaLow: real)

  /** Co-orbital/soft, lateral crossing, perpendicular planes, head-on. */
  datatype EncounterGeometry = CoOrbital | Lateral | Perpendicular | HeadOn

  datatype LeoContext = LeoContext(geometry: EncounterGeometry, vRelMs: real, vRelKmh: real)

  /** The canned operational recommendations, one constructor per text. */
  datatype Advice =
    // lead time under 1 hour
    | ActivateEmergencyProtocol | ContactControlCenter | ExecutePreprogrammedManeuver | MonitorTelemetry
    // under 6 hours
    | PrepareManeuverPlan | RefineOrbitalData | NotifyOtherOperators | CheckPropulsion
    // under 24 hours
    | DetailedConjunctionAnalysis | ConsiderCoordinatedManeuver | IncreaseTracking | DocumentProcedure
    // 24 hours or more
    | AnalyzeScenarios | CoordinateWithAgencies | OptimizeFuel | PlanPrecisionManeuver
    // by relative velocity
    | HighSpeedEarlyManeuver | SlowLongManeuver

  /** The dictionary returned on success. */
  datatype Estimate = Estimate(
    vRel: real, rReq: real, sigma0: real, k: real, n: real,
    time: LeadTime,
    criticality: Criticality,
    numerator: real, denominator: real, safetyMargin: real,
    scenarios: seq<AltScenario>,
    sensitivity: Sensitivity,
    context: LeoContext,
    recommendations: seq<Advice>)

  // ---------------------------------------------------------------------------
  // Buckets
  // ---------------------------------------------------------------------------

  /** The criticality of a lead time in hours (its day count is hours / 24). */
  function CriticalityOf(hours: real): (c: Criticality)
    ensures c == Critical <==> hours < 1.0
    ensures c == High <==> 1.0 <= hours < 6.0
    ensures c == Medium <==> 6.0 <= hours < 24.0
    ensures c == Low <==> 24.0 <= hours < 168.0
    ensures c == Minimal <==> hours >= 168.0
  {
    var days := hours / 24.0;
    if hours < 1.0 then Critical
    else if hours < 6.0 then High
    else if hours < 24.0 then Medium
    else if days < 7.0 then Low
    else Minimal
  }

  function CriticalityRank(c: Criticality): nat
  {
    match c
    case Critical => 4
    case High => 3
    case Medium => 2
    case Low => 1
    case Minimal => 0
  }

  /** More lead time never makes the criticality more severe. */
  lemma CriticalityMonotone(h1: real, h2: real)
    requires h1 <= h2
    ensures CriticalityRank(CriticalityOf(h2)) <= CriticalityRank(CriticalityOf(h1))
  {
  }

  /** `_get_leo_context`: the encounter geometry is read from v_rel alone. */
  function LeoContextOf(vRel: real): (c: LeoContext)
    ensures c.vRelMs == vRel && c.vRelKmh == vRel * 3.6
    ensures c.geometry == CoOrbital <==> vRel < 500.0
    ensures c.geometry == Lateral <==> 500.0 <= vRel < 2000.0
    ensures c.geometry == Perpendicular <==> 2000.0 <= vRel < 8000.0
    ensures c.geometry == HeadOn <==> vRel >= 8000.0
  {
    var geometry :=
      if vRel < 500.0 then CoOrbital
      else if vRel < 2000.0 then Lateral
      else if vRel < 8000.0 then Perpendicular
      else HeadOn;
    LeoContext(geometry, vRel, vRel * 3.6)
  }

  /** The four recommendations for a lead time, before the velocity remark. */
  function TimeAdvice(hours: real): seq<Advice>
  {
    if hours < 1.0 then
      [ActivateEmergencyProtocol, ContactControlCenter, ExecutePreprogrammedManeuver, MonitorTelemetry]
    else if hours < 6.0 then
      [PrepareManeuverPlan, RefineOrbitalData, NotifyOtherOperators, CheckPropulsion]
    else if hours < 24.0 then
      [DetailedConjunctionAnalysis, ConsiderCoordinatedManeuver, IncreaseTracking, DocumentProcedure]
    else
      [AnalyzeScenarios, CoordinateWithAgencies, OptimizeFuel, PlanPrecisionManeuver]
  }

  /** `_get_operational_recommendations`: four time-keyed items, then one
      velocity remark for a fast (> 10000 m/s) or slow (< 500 m/s) encounter. */
  function OperationalRecommendations(hours: real, vRel: real): (recs: seq<Advice>)
    ensures |recs| == if vRel > 10000.0 || vRel < 500.0 then 5 else 4
    ensures recs[..4] == TimeAdvice(hours)
    ensures vRel > 10000.0 ==> recs[4] == HighSpeedEarlyManeuver
    ensures vRel < 500.0 ==> recs[4] == SlowLongManeuver
  {
    var byTime := TimeAdvice(hours);
    if vRel > 10000.0 then byTime + [HighSpeedEarlyManeuver]
    else if vRel < 500.0 then byTime + [SlowLongManeuver]
    else byTime
  }

  /** The recommendation list opens with the advice of the lead time's
      criticality bucket (low and minimal share one list). */
  lemma RecommendationsFollowCriticality(hours: real, vRel: real)
    ensures var first := OperationalRecommendations(hours, vRel)[0];
      match CriticalityOf(hours)
      case Critical => first == ActivateEmergencyProtocol
      case High => first == PrepareManeuverPlan
      case Medium => first == DetailedConjunctionAnalysis
      case Low => first == AnalyzeScenarios
      case Minimal => first == AnalyzeScenarios
  {
    var recs := OperationalRecommendations(hours, vRel);
    assert recs[0] == recs[..4][0];
  }

  // ---------------------------------------------------------------------------
  // calculate_maneuver_time
  // ---------------------------------------------------------------------------

  function Abs(x: real): real
  {
    if x < 0.0 then -x else x
  }

  /** One alternative scenario with confidence factor `nAlt`: computed only when
      the caller's `n` differs from it, and kept only when its denominator is
      positive and its lead time is non-zero. */
  function Alternative(kind: ScenarioKind, nAlt: real, vRel: real, rReq: real, sigma0: real, k: real, n: real): seq<AltScenario>
  {
    if n != nAlt && vRel - nAlt * k > 0.0 then
      var t := (rReq + nAlt * sigma0) / (vRel - nAlt * k);
      if t != 0.0 then [AltScenario(kind, t, t / 3600.0)] else []
    else []
  }

  function SensitivityOf(vRel: real, rReq: real, sigma0: real, k: real, n: real): Sensitivity
    requires vRel - n * k > 0.0
  {
    var numerator := rReq + n * sigma0;
    var denominator := vRel - n * k;
    Sensitivity(
      vRel * 1.1, if vRel * 1.1 - n * k > 0.0 then Some(numerator / (vRel * 1.1 - n * k)) else None,
      vRel * 0.9, if vRel * 0.9 - n * k > 0.0 then Some(numerator / (vRel * 0.9 - n * k)) else None,
      sigma0 * 1.5, (rReq + n * sigma0 * 1.5) / denominator,
      sigma0 * 0.5, (rReq + n * sigma0 * 0.5) / denominator)
  }

  /** The estimator. Validation fails closed, in order: non-positive velocity,
      non-positive separation, negative uncertainty, then a non-positive
      denominator (reporting n·k and the deficit). On success the lead time
      solves t·(v_rel − n·k) = R_req + n·σ0, is positive whenever the numerator
      is, and is given in four units with its criticality. */
  function CalculateManeuverTime(vRel: real, rReq: real, sigma0: real, k: real, n: real)
    : (r: Result<Estimate, ManeuverError>)
    ensures r == Failure(InvalidVelocity) <==> vRel <= 0.0
    ensures r == Failure(InvalidSafetyDistance) <==> vRel > 0.0 && rReq <= 0.0
    ensures r == Failure(InvalidUncertainty) <==> vRel > 0.0 && rReq > 0.0 && sigma0 < 0.0
    ensures (r.Failure? && r.error.InfeasibleConfiguration?) <==>
      vRel > 0.0 && rReq > 0.0 && sigma0 >= 0.0 && vRel - n * k <= 0.0
    ensures r.Failure? && r.error.InfeasibleConfiguration? ==>
      r.error == InfeasibleConfiguration(vRel, n * k, n * k - vRel)
    ensures r.Success? <==> vRel > 0.0 && rReq > 0.0 && sigma0 >= 0.0 && vRel - n * k > 0.0
    ensures r.Success? ==>
      var e := r.value;
      && e.time.seconds * (vRel - n * k) == rReq + n * sigma0
      && (e.time.seconds > 0.0 <==> rReq + n * sigma0 > 0.0)
      && e.time.minutes == e.time.seconds / 60.0
      && e.time.hours == e.time.seconds / 3600.0
      && e.time.days == e.time.seconds / 86400.0
      && e.criticality == CriticalityOf(e.time.hours)
      && e.safetyMargin == vRel - 2.0 * n * k
  {
    if vRel <= 0.0 then Failure(InvalidVelocity)
    else if rReq <= 0.0 then Failure(InvalidSafetyDistance)
    else if sigma0 < 0.0 then Failure(InvalidUncertainty)
    else
      var numerator := rReq + n * sigma0;
      var denominator := vRel - n * k;
      if denominator <= 0.0 then
        Failure(InfeasibleConfiguration(vRel, n * k, Abs(denominator)))
      else
        var seconds := numerator / denominator;
        var minutes := seconds / 60.0;
        var hours := minutes / 60.0;
        var days := hours / 24.0;
        QuotientSign(numerator, denominator);
        Success(Estimate(
          vRel, rReq, sigma0, k, n,
          LeadTime(seconds, minutes, hours, days),
          CriticalityOf(hours),
          numerator, denominator, denominator - n * k,
          Alternative(Conservative2Sigma, 2.0, vRel, rReq, sigma0, k, n)
            + Alternative(Aggressive1Sigma, 1.0, vRel, rReq, sigma0, k, n),
          SensitivityOf(vRel, rReq, sigma0, k, n),
          LeoContextOf(vRel),
          OperationalRecommendations(hours, vRel)))
  }

  /** A successful estimate's lead time is the margin over the reduced closing
      speed. */
  lemma LeadTimeQuotient(vRel: real, rReq: real, sigma0: real, k: real, n: real)
    requires CalculateManeuverTime(vRel, rReq, sigma0, k, n).Success?
    ensures vRel - n * k > 0.0
    ensures CalculateManeuverTime(vRel, rReq, sigma0, k, n).value.time.seconds == (rReq + n * sigma0) / (vRel - n * k)
    ensures CalculateManeuverTime(vRel, rReq, sigma0, k, n).value.time.hours
      == CalculateManeuverTime(vRel, rReq, sigma0, k, n).value.time.seconds / 3600.0
  {
  }

  /** A margin of at most 1600 m at a reduced closing speed of at least
      1000 m/s needs under two seconds, well under an hour. */
  lemma ShortLeadTime(vRel: real, rReq: real, sigma0: real, k: real, n: real)
    requires vRel > 0.0 && rReq > 0.0 && sigma0 >= 0.0
    requires vRel - n * k >= 1000.0 && 0.0 < rReq + n * sigma0 <= 1600.0
    ensures CalculateManeuverTime(vRel, rReq, sigma0, k, n).Success?
    ensures 0.0 < CalculateManeuverTime(vRel, rReq, sigma0, k, n).value.time.seconds < 2.0
    ensures 0.0 < CalculateManeuverTime(vRel, rReq, sigma0, k, n).value.time.hours < 1.0
  {
    LeadTimeQuotient(vRel, rReq, sigma0, k, n);
    var num, den := rReq + n * sigma0, vRel - n * k;
    QuotientSign(num, den);
    QuotientMonotone(num, 1600.0, den, 1000.0);
  }

  /** With the same closing speed, a smaller margin and slower uncertainty
      growth never need a longer lead time. */
  lemma LeadTimeOrder(vRel: real, r1: real, s1: real, k1: real, n1: real, r2: real, s2: real, k2: real, n2: real)
    requires CalculateManeuverTime(vRel, r1, s1, k1, n1).Success?
    requires CalculateManeuverTime(vRel, r2, s2, k2, n2).Success?
    requires 0.0 <= r2 + n2 * s2 <= r1 + n1 * s1 && n2 * k2 <= n1 * k1
    ensures CalculateManeuverTime(vRel, r2, s2, k2, n2).value.time.seconds
         <= CalculateManeuverTime(vRel, r1, s1, k1, n1).value.time.seconds
  {
    LeadTimeQuotient(vRel, r1, s1, k1, n1);
    LeadTimeQuotient(vRel, r2, s2, k2, n2);
    QuotientMonotone(r2 + n2 * s2, r1 + n1 * s1, vRel - n2 * k2, vRel - n1 * k1);
  }

  lemma QuotientSign(a: real, b: real)
    requires b > 0.0
    ensures (a / b) * b == a
    ensures a / b > 0.0 <==> a > 0.0
  {
  }

  /** For positive numerators, a smaller numerator over a larger denominator
      gives a smaller quotient. */
  lemma QuotientMonotone(a: real, b: real, c: real, d: real)
    requires 0.0 <= a <= b && c >= d > 0.0
    ensures a / c <= b / d
  {
    assert a / c <= a / d by {
      assert a / c * c == a;
      assert a / d * d == a;
    }
    assert a / d <= b / d;
  }

  // ---------------------------------------------------------------------------
  // Properties of the estimate
  // ---------------------------------------------------------------------------

  lemma ScaleProduct(a: real, b: real, c: real)
    requires a <= b && c >= 0.0
    ensures a * c <= b * c
  {
  }

  /** How the sensitivity figures relate to the base lead time `num / den`. */
  lemma SensitivityOfBrackets(vRel: real, rReq: real, sigma0: real, k: real, n: real)
    requires vRel > 0.0 && rReq > 0.0 && sigma0 >= 0.0 && n >= 0.0 && vRel - n * k > 0.0
    ensures var s := SensitivityOf(vRel, rReq, sigma0, k, n);
      var t := (rReq + n * sigma0) / (vRel - n * k);
      && s.tSigmaLow <= t <= s.tSigmaHigh
      && s.tHigh.Some? && s.tHigh.value <= t
      && (s.tLow.Some? ==> s.tLow.value >= t)
  {
    var den := vRel - n * k;
    var num := rReq + n * sigma0;
    ScaleProduct(0.0, n, sigma0);
    var nSigma := n * sigma0;
    assert n * sigma0 * 0.5 == nSigma * 0.5;
    assert n * sigma0 * 1.5 == nSigma * 1.5;
    QuotientMonotone(rReq + n * sigma0 * 0.5, num, den, den);
    QuotientMonotone(num, rReq + n * sigma0 * 1.5, den, den);
    QuotientMonotone(num, num, vRel * 1.1 - n * k, den);
    if vRel * 0.9 - n * k > 0.0 {
      QuotientMonotone(num, num, den, vRel * 0.9 - n * k);
    }
  }

  /** The sensitivity figures bracket the lead time: more uncertainty or a
      slower encounter never shortens it, less uncertainty or a faster
      encounter never lengthens it; the faster case is always feasible. */
  lemma SensitivityBrackets(vRel: real, rReq: real, sigma0: real, k: real, n: real)
    requires CalculateManeuverTime(vRel, rReq, sigma0, k, n).Success?
    requires n >= 0.0
    ensures var e := CalculateManeuverTime(vRel, rReq, sigma0, k, n).value;
      && e.sensitivity.tSigmaLow <= e.time.seconds <= e.sensitivity.tSigmaHigh
      && e.sensitivity.tHigh.Some?
      && e.sensitivity.tHigh.value <= e.time.seconds
      && (e.sensitivity.tLow.Some? ==> e.sensitivity.tLow.value >= e.time.seconds)
  {
    SensitivityOfBrackets(vRel, rReq, sigma0, k, n);
  }

  /** An alternative with a confidence factor no larger than the caller's is
      present and needs no more lead time. */
  lemma AlternativeNoLonger(kind: ScenarioKind, nAlt: real, vRel: real, rReq: real, sigma0: real, k: real, n: real)
    requires vRel > 0.0 && rReq > 0.0 && sigma0 >= 0.0 && k >= 0.0 && vRel - n * k > 0.0
    requires 0.0 <= nAlt < n
    ensures var alt := Alternative(kind, nAlt, vRel, rReq, sigma0, k, n);
      && |alt| == 1 && alt[0].kind == kind
      && 0.0 < alt[0].seconds <= (rReq + n * sigma0) / (vRel - n * k)
  {
    ScaleProduct(nAlt, n, k);
    ScaleProduct(nAlt, n, sigma0);
    ScaleProduct(0.0, nAlt, sigma0);
    QuotientSign(rReq + nAlt * sigma0, vRel - nAlt * k);
    QuotientMonotone(rReq + nAlt * sigma0, rReq + n * sigma0, vRel - nAlt * k, vRel - n * k);
  }

  /** With k ≥ 0 and a caller's n of at least 2, both alternatives that differ
      from n are present, and neither needs more lead time than the base case. */
  lemma AlternativesNoLonger(vRel: real, rReq: real, sigma0: real, k: real, n: real)
    requires CalculateManeuverTime(vRel, rReq, sigma0, k, n).Success?
    requires k >= 0.0 && n >= 2.0
    ensures var e := CalculateManeuverTime(vRel, rReq, sigma0, k, n).value;
      && |e.scenarios| == (if n == 2.0 then 1 else 2)
      && e.scenarios[|e.scenarios| - 1].kind == Aggressive1Sigma
      && forall i :: 0 <= i < |e.scenarios| ==> 0.0 < e.scenarios[i].seconds <= e.time.seconds
  {
    AlternativeNoLonger(Aggressive1Sigma, 1.0, vRel, rReq, sigma0, k, n);
    if n != 2.0 {
      AlternativeNoLonger(Conservative2Sigma, 2.0, vRel, rReq, sigma0, k, n);
    }
  }

  /** The worked case v_rel = 8200 m/s, R_req = 1000 m, σ0 = 120 m,
      k = 0.001 m/s, n = 3: 1360 / 8199.997 ≈ 0.166 s, critical. */
  lemma WorkedExample()
    ensures CalculateManeuverTime(8200.0, 1000.0, 120.0, 0.001, 3.0).Success?
    ensures var e := CalculateManeuverTime(8200.0, 1000.0, 120.0, 0.001, 3.0).value;
      && e.time.seconds == 1360.0 / 8199.997
      && 0.165 < e.time.seconds < 0.166
      && e.criticality == Critical
  {
    var e := CalculateManeuverTime(8200.0, 1000.0, 120.0, 0.001, 3.0).value;
    assert e.time.seconds * 8199.997 == 1360.0;
  }
}
