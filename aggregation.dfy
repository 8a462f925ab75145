/** The combined report (`SatelliteAnalyzer.comprehensive_collision_analysis`)
    and its two reductions, `_generate_general_recommendations` and
    `_generate_executive_summary`.

    The screening result is extended with maneuver estimates for the first
    five close encounters under three fixed parameter scenarios, the earliest
    encounter, general recommendations and an executive summary. */
module Aggregation {
  import opened Common
  import opened Catalog
  import Screening
  import Maneuver

  // ---------------------------------------------------------------------------
  // Per-encounter maneuver estimates
  // ---------------------------------------------------------------------------

  /** Typical LEO orbital speed in m/s. */
  const OrbitalSpeed: real := 7800.0

  /** The relative velocity (m/s) assumed for an encounter at a given distance:
      1.8, 1.2 or 0.2 times the orbital speed for under 1 km, under 5 km, or
      farther. */
  function EncounterVelocity(distanceKm: real): (v: real)
    ensures distanceKm < 1.0 ==> v == 14040.0
    ensures 1.0 <= distanceKm < 5.0 ==> v == 9360.0
    ensures distanceKm >= 5.0 ==> v == 1560.0
  {
    if distanceKm < 1.0 then OrbitalSpeed * 1.8
    else if distanceKm < 5.0 then OrbitalSpeed * 1.2
    else OrbitalSpeed * 0.2
  }

  /** 'Conservador', 'Estándar' and 'Agresivo'. */
  datatype ScenarioName = Conservative | Standard | Aggressive

  datatype Scenario = Scenario(name: ScenarioName, rReq: real, sigma0: real, k: real, n: real)

  /** The three fixed parameter sets, in the order they are run. */
  const Scenarios: seq<Scenario> := [
    Scenario(Conservative, 1000.0, 200.0, 0.002, 3.0),
    Scenario(Standard, 500.0, 100.0, 0.001, 2.5),
    Scenario(Aggressive, 200.0, 50.0, 0.0005, 2.0)
  ]

  /** One successful estimate (its recommendation text is determined by the
      criticality). */
  datatype ScenarioManeuver = ScenarioManeuver(
    scenario: Scenario,
    time: Maneuver.LeadTime,
    criticality: Maneuver.Criticality)

  /** The encounter part of an entry; `hoursFromNow` stands for its date. */
  datatype EncounterSummary = EncounterSummary(
    hoursFromNow: nat,
    satellite2: string,
    distanceKm: real,
    vRelEstimate: real)

  datatype EncounterManeuvers = EncounterManeuvers(
    encounter: EncounterSummary,
    maneuvers: seq<ScenarioManeuver>)

  /** The estimate for one scenario at velocity `v`, absent when it is an error. */
  function Attempt(v: real, sc: Scenario): Option<ScenarioManeuver>
  {
    match Maneuver.CalculateManeuverTime(v, sc.rReq, sc.sigma0, sc.k, sc.n)
    case Success(est) => Some(ScenarioManeuver(sc, est.time, est.criticality))
    case Failure(_) => None
  }

  /** The successful estimates for velocity `v` under `scenarios`, in order;
      scenarios whose estimate is an error are skipped. */
  function ScenarioResults(v: real, scenarios: seq<Scenario>): seq<ScenarioManeuver>
  {
    if scenarios == [] then []
    else
      var previous := ScenarioResults(v, scenarios[..|scenarios| - 1]);
      match Attempt(v, scenarios[|scenarios| - 1])
      case Some(m) => previous + [m]
      case None => previous
  }

  function AnalyzeEncounter(e: Screening.Encounter): EncounterManeuvers
  {
    var v := EncounterVelocity(e.distanceKm);
    EncounterManeuvers(EncounterSummary(e.hoursFromNow, e.satellite2, e.distanceKm, v),
                       ScenarioResults(v, Scenarios))
  }

  function AnalyzeAll(encounters: seq<Screening.Encounter>): (r: seq<EncounterManeuvers>)
    ensures |r| == |encounters|
    ensures forall i :: 0 <= i < |encounters| ==> r[i] == AnalyzeEncounter(encounters[i])
  {
    seq(|encounters|, i requires 0 <= i < |encounters| => AnalyzeEncounter(encounters[i]))
  }

  lemma AnalyzeAllExtend(encounters: seq<Screening.Encounter>, i: nat)
    requires i < |encounters|
    ensures AnalyzeAll(encounters[..i + 1]) == AnalyzeAll(encounters[..i]) + [AnalyzeEncounter(encounters[i])]
  {
    var longer, shorter := AnalyzeAll(encounters[..i + 1]), AnalyzeAll(encounters[..i]);
    assert forall j :: 0 <= j < i ==> longer[j] == shorter[j];
  }

  /** At most this many encounters are estimated. */
  const MaxAnalyzed: nat := 5

  /** The entries for the first five encounters. */
  function ManeuverAnalyses(encounters: seq<Screening.Encounter>): seq<EncounterManeuvers>
  {
    AnalyzeAll(Take(encounters, MaxAnalyzed))
  }

  /** Every scenario's estimate succeeds at an assumed encounter velocity. */
  lemma ScenarioSucceeds(v: real, sc: Scenario)
    requires v >= 1560.0 && sc in Scenarios
    ensures Attempt(v, sc).Some? && Attempt(v, sc).value.scenario == sc
  {
  }

  lemma AttemptTime(v: real, sc: Scenario)
    requires Attempt(v, sc).Some?
    ensures Maneuver.CalculateManeuverTime(v, sc.rReq, sc.sigma0, sc.k, sc.n).Success?
    ensures Attempt(v, sc).value.time == Maneuver.CalculateManeuverTime(v, sc.rReq, sc.sigma0, sc.k, sc.n).value.time
  {
  }

  /** ... with a lead time of (0, 2) seconds, well under an hour. */
  lemma ScenarioLeadTime(v: real, sc: Scenario)
    requires v >= 1560.0 && sc in Scenarios
    ensures Attempt(v, sc).Some?
    ensures 0.0 < Attempt(v, sc).value.time.seconds < 2.0
    ensures 0.0 < Attempt(v, sc).value.time.hours < 1.0
  {
    ScenarioSucceeds(v, sc);
    AttemptTime(v, sc);
    assert 0.0 <= sc.n * sc.k <= 0.006 && 0.0 < sc.rReq + sc.n * sc.sigma0 <= 1600.0;
    Maneuver.ShortLeadTime(v, sc.rReq, sc.sigma0, sc.k, sc.n);
  }

  /** At an assumed encounter velocity all three scenarios succeed, in order. */
  lemma AllScenariosSucceed(v: real)
    requires v >= 1560.0
    ensures ScenarioResults(v, Scenarios)
      == [Attempt(v, Scenarios[0]).value, Attempt(v, Scenarios[1]).value, Attempt(v, Scenarios[2]).value]
  {
    assert ScenarioResults(v, Scenarios[..1]) == [Attempt(v, Scenarios[0]).value] by {
      ScenarioSucceeds(v, Scenarios[0]);
      assert Scenarios[..1][..0] == [];
    }
    assert ScenarioResults(v, Scenarios[..2]) == [Attempt(v, Scenarios[0]).value, Attempt(v, Scenarios[1]).value] by {
      ScenarioSucceeds(v, Scenarios[1]);
      assert Scenarios[..2][..1] == Scenarios[..1];
    }
    ScenarioSucceeds(v, Scenarios[2]);
    assert Scenarios[..3][..2] == Scenarios[..2];
    assert Scenarios[..3] == Scenarios;
  }

  /** Scenario `i`'s kept estimate carries the lead time of its maneuver
      calculation. */
  lemma ScenarioTime(v: real, i: nat)
    requires v >= 1560.0 && i < |Scenarios|
    ensures Attempt(v, Scenarios[i]).Some?
    ensures Maneuver.CalculateManeuverTime(v, Scenarios[i].rReq, Scenarios[i].sigma0, Scenarios[i].k, Scenarios[i].n).Success?
    ensures Attempt(v, Scenarios[i]).value.time
      == Maneuver.CalculateManeuverTime(v, Scenarios[i].rReq, Scenarios[i].sigma0, Scenarios[i].k, Scenarios[i].n).value.time
  {
    ScenarioSucceeds(v, Scenarios[i]);
    AttemptTime(v, Scenarios[i]);
  }

  lemma ConservativeNoShorter(v: real)
    requires v >= 1560.0
    ensures Attempt(v, Scenarios[0]).Some? && Attempt(v, Scenarios[1]).Some?
    ensures Attempt(v, Scenarios[1]).value.time.seconds <= Attempt(v, Scenarios[0]).value.time.seconds
  {
    ScenarioTime(v, 0);
    ScenarioTime(v, 1);
    var a, b := Scenarios[0], Scenarios[1];
    Maneuver.LeadTimeOrder(v, a.rReq, a.sigma0, a.k, a.n, b.rReq, b.sigma0, b.k, b.n);
  }

  lemma StandardNoShorter(v: real)
    requires v >= 1560.0
    ensures Attempt(v, Scenarios[1]).Some? && Attempt(v, Scenarios[2]).Some?
    ensures Attempt(v, Scenarios[2]).value.time.seconds <= Attempt(v, Scenarios[1]).value.time.seconds
  {
    ScenarioTime(v, 1);
    ScenarioTime(v, 2);
    var a, b := Scenarios[1], Scenarios[2];
    Maneuver.LeadTimeOrder(v, a.rReq, a.sigma0, a.k, a.n, b.rReq, b.sigma0, b.k, b.n);
  }

  /** At an assumed encounter velocity the three scenarios give three
      estimates, in scenario order, each with a lead time under an hour. */
  lemma ScenarioResultsShape(v: real)
    requires v >= 1560.0
    ensures |ScenarioResults(v, Scenarios)| == 3
    ensures forall i :: 0 <= i < 3 ==> ScenarioResults(v, Scenarios)[i].scenario == Scenarios[i]
    ensures forall i :: 0 <= i < 3 ==> 0.0 < ScenarioResults(v, Scenarios)[i].time.hours < 1.0
  {
    AllScenariosSucceed(v);
    ScenarioSucceeds(v, Scenarios[0]);
    ScenarioSucceeds(v, Scenarios[1]);
    ScenarioSucceeds(v, Scenarios[2]);
    ScenarioLeadTime(v, Scenarios[0]);
    ScenarioLeadTime(v, Scenarios[1]);
    ScenarioLeadTime(v, Scenarios[2]);
  }

  /** ... the conservative lead time being the longest and the aggressive one
      the shortest. */
  lemma ScenarioResultsOrdered(v: real)
    requires v >= 1560.0
    ensures |ScenarioResults(v, Scenarios)| == 3
    ensures ScenarioResults(v, Scenarios)[2].time.seconds <= ScenarioResults(v, Scenarios)[1].time.seconds
    ensures ScenarioResults(v, Scenarios)[1].time.seconds <= ScenarioResults(v, Scenarios)[0].time.seconds
  {
    AllScenariosSucceed(v);
    ConservativeNoShorter(v);
    StandardNoShorter(v);
  }

  /** Every estimated encounter gets all three scenarios, in order, each with a
      lead time under an hour; the conservative lead time is the longest and
      the aggressive one the shortest. */
  lemma ThreeScenarios(e: Screening.Encounter)
    ensures |AnalyzeEncounter(e).maneuvers| == 3
    ensures forall i :: 0 <= i < 3 ==> AnalyzeEncounter(e).maneuvers[i].scenario == Scenarios[i]
    ensures forall i :: 0 <= i < 3 ==> 0.0 < AnalyzeEncounter(e).maneuvers[i].time.hours < 1.0
    ensures AnalyzeEncounter(e).maneuvers[2].time.seconds <= AnalyzeEncounter(e).maneuvers[1].time.seconds
    ensures AnalyzeEncounter(e).maneuvers[1].time.seconds <= AnalyzeEncounter(e).maneuvers[0].time.seconds
  {
    ScenarioResultsShape(EncounterVelocity(e.distanceKm));
    ScenarioResultsOrdered(EncounterVelocity(e.distanceKm));
  }

  // ---------------------------------------------------------------------------
  // Lead-time reductions
  // ---------------------------------------------------------------------------

  function Hours(ms: seq<ScenarioManeuver>): (hs: seq<real>)
    ensures |hs| == |ms|
    ensures forall i :: 0 <= i < |ms| ==> hs[i] == ms[i].time.hours
  {
    seq(|ms|, i requires 0 <= i < |ms| => ms[i].time.hours)
  }

  /** Every lead time in hours, entry by entry (`tiempos_maniobra`). */
  function AllHours(analyses: seq<EncounterManeuvers>): seq<real>
  {
    if analyses == [] then []
    else AllHours(analyses[..|analyses| - 1]) + Hours(analyses[|analyses| - 1].maneuvers)
  }

  /** The minimum over the entries with estimates of each entry's minimum lead
      time, `None` (+∞) when there is none. */
  function MinManeuverHours(analyses: seq<EncounterManeuvers>): Option<real>
  {
    if analyses == [] then None
    else
      var rest := MinManeuverHours(analyses[..|analyses| - 1]);
      var last := analyses[|analyses| - 1].maneuvers;
      if last == [] then rest
      else
        var m := MinOf(Hours(last));
        match rest
        case None => Some(m)
        case Some(r) => Some(if m < r then m else r)
  }

  /** The minimum of the per-entry minima is the minimum of all lead times,
      and is +∞ exactly when there are none. */
  lemma {:induction false} MinManeuverHoursIsMinOfAll(analyses: seq<EncounterManeuvers>)
    ensures MinManeuverHours(analyses).None? <==> AllHours(analyses) == []
    ensures MinManeuverHours(analyses).Some? ==> MinManeuverHours(analyses).value == MinOf(AllHours(analyses))
  {
    if analyses != [] {
      var prefix := analyses[..|analyses| - 1];
      var last := analyses[|analyses| - 1].maneuvers;
      MinManeuverHoursIsMinOfAll(prefix);
      if last == [] {
        assert AllHours(analyses) == AllHours(prefix);
      } else if AllHours(prefix) == [] {
        assert AllHours(analyses) == Hours(last);
      } else {
        MinOfConcat(AllHours(prefix), Hours(last));
      }
    }
  }

  /** Every estimate's lead time appears among all lead times. */
  lemma {:induction false} AllHoursContains(analyses: seq<EncounterManeuvers>, i: nat, j: nat)
    requires i < |analyses| && j < |analyses[i].maneuvers|
    ensures analyses[i].maneuvers[j].time.hours in AllHours(analyses)
  {
    var prefix := analyses[..|analyses| - 1];
    if i < |analyses| - 1 {
      AllHoursContains(prefix, i, j);
    } else {
      assert Hours(analyses[i].maneuvers)[j] == analyses[i].maneuvers[j].time.hours;
    }
  }

  // ---------------------------------------------------------------------------
  // _generate_general_recommendations
  // ---------------------------------------------------------------------------

  /** The general recommendation texts. */
  datatype GeneralAdvice =
    // critical risk
    | EmergencyProtocolNow | ContinuousContact | PrepareAutomaticManeuver | ConsiderManeuverOptions
    // high risk
    | PlanManeuverWithin24h | RefineOrbitalTracking | CoordinateOperators | ContingencyPlan
    // medium risk
    | IncreaseMonitoring | DetailedConjunction | EvaluateManeuverOptions | PreventivePlanning
    // remarks
    | MultipleEncounters(count: int) | ImmediateActionRequired | UrgentPreparation

  function RiskAdvice(risk: Screening.RiskLevel): (advice: seq<GeneralAdvice>)
    ensures |advice| == if risk == Screening.LowRisk then 0 else 4
  {
    match risk
    case CriticalRisk => [EmergencyProtocolNow, ContinuousContact, PrepareAutomaticManeuver, ConsiderManeuverOptions]
    case HighRisk => [PlanManeuverWithin24h, RefineOrbitalTracking, CoordinateOperators, ContingencyPlan]
    case MediumRisk => [IncreaseMonitoring, DetailedConjunction, EvaluateManeuverOptions, PreventivePlanning]
    case LowRisk => []
  }

  /** The remark on the shortest lead time; with no estimate at all (no entry,
      or no entry with an estimate) the minimum is +∞ and there is none. */
  function TimeRemark(minHours: Option<real>): seq<GeneralAdvice>
  {
    match minHours
    case None => []
    case Some(t) =>
      if t < 1.0 then [ImmediateActionRequired]
      else if t < 6.0 then [UrgentPreparation]
      else []
  }

  /** The risk level's four texts (none for a low risk), then a remark on more
      than three encounters, then a remark when the shortest lead time is under
      1 hour or under 6 hours. */
  function GeneralRecommendations(risk: Screening.RiskLevel, totalEncounters: int, analyses: seq<EncounterManeuvers>)
    : (recs: seq<GeneralAdvice>)
    ensures |RiskAdvice(risk)| <= |recs| && recs[..|RiskAdvice(risk)|] == RiskAdvice(risk)
    ensures MultipleEncounters(totalEncounters) in recs <==> totalEncounters > 3
  {
    var base := RiskAdvice(risk);
    var multiple := if totalEncounters > 3 then [MultipleEncounters(totalEncounters)] else [];
    var recs := base + multiple + TimeRemark(MinManeuverHours(analyses));
    assert recs[..|base|] == base;
    recs
  }

  /** The lead-time remark: immediate action below one hour, urgent
      preparation from one to six hours, nothing otherwise or with no estimate. */
  lemma LeadTimeRemarks(risk: Screening.RiskLevel, totalEncounters: int, analyses: seq<EncounterManeuvers>)
    ensures ImmediateActionRequired in GeneralRecommendations(risk, totalEncounters, analyses) <==>
      MinManeuverHours(analyses).Some? && MinManeuverHours(analyses).value < 1.0
    ensures UrgentPreparation in GeneralRecommendations(risk, totalEncounters, analyses) <==>
      MinManeuverHours(analyses).Some? && 1.0 <= MinManeuverHours(analyses).value < 6.0
  {
    var base := RiskAdvice(risk);
    var multiple := if totalEncounters > 3 then [MultipleEncounters(totalEncounters)] else [];
    var remark := TimeRemark(MinManeuverHours(analyses));
    assert GeneralRecommendations(risk, totalEncounters, analyses) == base + multiple + remark;
    assert ImmediateActionRequired !in base + multiple && UrgentPreparation !in base + multiple;
  }

  // ---------------------------------------------------------------------------
  // The earliest encounter
  // ---------------------------------------------------------------------------

  /** `min(close_encounters, key=datetime)`: the first encounter of least time. */
  function Earliest(encounters: seq<Screening.Encounter>): (e: Screening.Encounter)
    requires |encounters| > 0
    ensures e in encounters
    ensures forall i :: 0 <= i < |encounters| ==> e.hoursFromNow <= encounters[i].hoursFromNow
  {
    if |encounters| == 1 then encounters[0]
    else
      var best := Earliest(encounters[..|encounters| - 1]);
      var last := encounters[|encounters| - 1];
      if last.hoursFromNow < best.hoursFromNow then last else best
  }

  /** In a chronological list the earliest encounter is the first one. */
  lemma {:induction false} EarliestOfChronological(encounters: seq<Screening.Encounter>)
    requires |encounters| > 0
    requires forall i, j :: 0 <= i <= j < |encounters| ==> encounters[i].hoursFromNow <= encounters[j].hoursFromNow
    ensures Earliest(encounters) == encounters[0]
  {
    if |encounters| > 1 {
      EarliestOfChronological(encounters[..|encounters| - 1]);
    }
  }

  /** The earliest encounter's remaining hours (its offset from now) and distance. */
  datatype FirstEncounterInfo = FirstEncounterInfo(hoursRemaining: real, distanceKm: real)

  function FirstEncounterOf(encounters: seq<Screening.Encounter>): Option<FirstEncounterInfo>
  {
    if encounters == [] then None
    else
      var e := Earliest(encounters);
      Some(FirstEncounterInfo(e.hoursFromNow as real, e.distanceKm))
  }

  /** Why the report cannot be produced: the screening's own error, or the
      subtraction of a naive `datetime.now()` from an encounter's
      timezone-aware date, which Python refuses with a `TypeError`. */
  datatype ReportError = ScreeningFailed(cause: Screening.ScreenError) | MixedTimezones

  /** `tiempo_primer_encuentro` as the source computes it. Encounter dates come
      from `Time.utc_datetime()` and carry the UTC zone; `datetime.now()` does
      not, so `horas_restantes` cannot be computed for any encounter. Only the
      empty encounter list gets through, with no first encounter. */
  function FirstEncounterAsWritten(encounters: seq<Screening.Encounter>)
    : (r: Result<Option<FirstEncounterInfo>, ReportError>)
    ensures r.Failure? <==> encounters != []
    ensures r.Failure? ==> r.error == MixedTimezones
    ensures r.Success? ==> r.value == FirstEncounterOf(encounters) == None
  {
    if encounters == [] then Success(None) else Failure(MixedTimezones)
  }

  // ---------------------------------------------------------------------------
  // _generate_executive_summary
  // ---------------------------------------------------------------------------

  datatype ManeuverStats = ManeuverStats(minHours: real, maxHours: real, meanHours: real)

  /** 'MANIOBRA INMEDIATA', 'PREPARAR MANIOBRA URGENTE', 'MONITOREO INCREMENTADO'
      and 'SEGUIMIENTO RUTINARIO'. */
  datatype RecommendedAction = ImmediateManeuver | PrepareUrgentManeuver | IncreasedMonitoring | RoutineTracking

  datatype ExecutiveSummary = ExecutiveSummary(
    satellite: string,
    riskLevel: Screening.RiskLevel,
    totalEncounters: nat,
    analysisPeriodDays: int,
    firstEncounter: Option<FirstEncounterInfo>,
    maneuverTime: Option<ManeuverStats>,
    recommendedAction: RecommendedAction)

  /** Minimum, maximum and mean of the lead times, absent when there are none;
      the mean lies between the two extremes, which are lead times that bound all
      the others. */
  function StatsOf(hours: seq<real>): (s: Option<ManeuverStats>)
    ensures s.None? <==> hours == []
    ensures s.Some? ==>
      && s.value.minHours in hours && s.value.maxHours in hours
      && (forall i :: 0 <= i < |hours| ==> s.value.minHours <= hours[i] <= s.value.maxHours)
      && s.value.minHours <= s.value.meanHours <= s.value.maxHours
  {
    if hours == [] then None
    else
      MeanBetweenMinAndMax(hours);
      Some(ManeuverStats(MinOf(hours), MaxOf(hours), Sum(hours) / (|hours| as real)))
  }

  function ActionFor(risk: Screening.RiskLevel): RecommendedAction
  {
    match risk
    case CriticalRisk => ImmediateManeuver
    case HighRisk => PrepareUrgentManeuver
    case MediumRisk => IncreasedMonitoring
    case LowRisk => RoutineTracking
  }

  /** The recommended action escalates with the risk, and is routine exactly
      when the risk calls for no general recommendation. */
  lemma ActionMatchesAdvice(risk: Screening.RiskLevel)
    ensures ActionFor(risk) == RoutineTracking <==> RiskAdvice(risk) == []
    ensures ActionFor(risk) == ImmediateManeuver <==> risk == Screening.CriticalRisk
    ensures ActionFor(risk) == PrepareUrgentManeuver <==> risk == Screening.HighRisk
    ensures ActionFor(risk) == IncreasedMonitoring <==> risk == Screening.MediumRisk
  {
  }

  function Summarize(a: Screening.Assessment, analyses: seq<EncounterManeuvers>, first: Option<FirstEncounterInfo>)
    : (s: ExecutiveSummary)
    ensures s.satellite == a.satellite && s.riskLevel == a.riskLevel
    ensures s.totalEncounters == a.totalEncounters && s.analysisPeriodDays == a.analysisPeriodDays
    ensures s.firstEncounter == first
    ensures s.maneuverTime.Some? <==> AllHours(analyses) != []
    ensures s.maneuverTime == StatsOf(AllHours(analyses))
    ensures s.maneuverTime.Some? ==> MinManeuverHours(analyses) == Some(s.maneuverTime.value.minHours)
    ensures s.maneuverTime.Some? ==>
      var hours := AllHours(analyses);
      && s.maneuverTime.value.maxHours in hours
      && (forall i :: 0 <= i < |hours| ==> hours[i] <= s.maneuverTime.value.maxHours)
      && s.maneuverTime.value.minHours <= s.maneuverTime.value.meanHours <= s.maneuverTime.value.maxHours
    ensures s.recommendedAction == ActionFor(a.riskLevel)
  {
    MinManeuverHoursIsMinOfAll(analyses);
    ExecutiveSummary(a.satellite, a.riskLevel, a.totalEncounters, a.analysisPeriodDays, first,
                     StatsOf(AllHours(analyses)), ActionFor(a.riskLevel))
  }

  // ---------------------------------------------------------------------------
  // comprehensive_collision_analysis
  // ---------------------------------------------------------------------------

  datatype Comprehensive = Comprehensive(
    collisionAnalysis: Screening.Assessment,
    maneuverAnalyses: seq<EncounterManeuvers>,
    firstEncounter: Option<FirstEncounterInfo>,
    generalRecommendations: seq<GeneralAdvice>,
    executiveSummary: ExecutiveSummary)

  /** Each scenario in turn at velocity `v`, keeping the successes. */
  method RunScenarios(v: real, scenarios: seq<Scenario>) returns (maneuvers: seq<ScenarioManeuver>)
    ensures maneuvers == ScenarioResults(v, scenarios)
  {
    maneuvers := [];
    for s := 0 to |scenarios|
      invariant maneuvers == ScenarioResults(v, scenarios[..s])
    {
      var sc := scenarios[s];
      var est := Maneuver.CalculateManeuverTime(v, sc.rReq, sc.sigma0, sc.k, sc.n);
      if est.Success? {
        maneuvers := maneuvers + [ScenarioManeuver(sc, est.value.time, est.value.criticality)];
      }
      assert scenarios[..s + 1][..s] == scenarios[..s];
    }
    assert scenarios[..|scenarios|] == scenarios;
  }

  /** The estimates for one encounter, at its assumed velocity. */
  method EstimateEncounter(e: Screening.Encounter) returns (entry: EncounterManeuvers)
    ensures entry == AnalyzeEncounter(e)
  {
    var v := EncounterVelocity(e.distanceKm);
    var maneuvers := RunScenarios(v, Scenarios);
    entry := EncounterManeuvers(EncounterSummary(e.hoursFromNow, e.satellite2, e.distanceKm, v), maneuvers);
  }

  /** The entries for the first five encounters, one at a time. */
  method EstimateFirstEncounters(encounters: seq<Screening.Encounter>) returns (analyses: seq<EncounterManeuvers>)
    ensures analyses == ManeuverAnalyses(encounters)
  {
    var count := if |encounters| < MaxAnalyzed then |encounters| else MaxAnalyzed;
    analyses := [];
    for i := 0 to count
      invariant analyses == AnalyzeAll(encounters[..i])
    {
      var entry := EstimateEncounter(encounters[i]);
      AnalyzeAllExtend(encounters, i);
      analyses := analyses + [entry];
    }
    assert encounters[..count] == Take(encounters, MaxAnalyzed);
  }

  /** The report: the not-found error passes through unchanged; otherwise the
      screening result, estimates for its first five encounters, its earliest
      encounter, and the recommendations and summary derived from them. */
  method ComprehensiveCollisionAnalysis(
    catalog: seq<Entry>, sky: Sky, target: string, other: Option<string>,
    thresholdKm: real, daysAhead: int)
    returns (r: Result<Comprehensive, Screening.ScreenError>)
    ensures target !in Names(catalog) <==> r.Failure?
    ensures r.Failure? ==> r.error == Screening.NotFound(target)
    ensures r.Success? ==>
      && r.value.collisionAnalysis.satellite == target
      && r.value.collisionAnalysis.analysisPeriodDays == daysAhead
      && r.value.collisionAnalysis.thresholdKm == thresholdKm
      && r.value.collisionAnalysis.satellitesAnalyzed == |Screening.ChecksFor(catalog, target, other)|
      && r.value.collisionAnalysis.closeEncounters
         == Screening.Screen(sky, target, Screening.ChecksFor(catalog, target, other), thresholdKm,
                             Screening.SampleCount(daysAhead))
      && r.value.collisionAnalysis.riskLevel == Screening.ClassifyEncounters(r.value.collisionAnalysis.closeEncounters)
      && r.value.collisionAnalysis.totalEncounters == |r.value.collisionAnalysis.closeEncounters|
      && r.value.maneuverAnalyses == ManeuverAnalyses(r.value.collisionAnalysis.closeEncounters)
      && r.value.firstEncounter == FirstEncounterOf(r.value.collisionAnalysis.closeEncounters)
      && r.value.generalRecommendations
         == GeneralRecommendations(r.value.collisionAnalysis.riskLevel, r.value.collisionAnalysis.totalEncounters,
                                   r.value.maneuverAnalyses)
      && r.value.executiveSummary
         == Summarize(r.value.collisionAnalysis, r.value.maneuverAnalyses, r.value.firstEncounter)
  {
    var screening := Screening.AnalyzeCollisionRisk(catalog, sky, target, other, thresholdKm, daysAhead);
    if screening.Failure? {
      return Failure(screening.error);
    }
    var a := screening.value;
    var encounters := a.closeEncounters;
    var analyses := EstimateFirstEncounters(encounters);
    var recommendations := GeneralRecommendations(a.riskLevel, a.totalEncounters, analyses);
    var first := FirstEncounterOf(encounters);
    r := Success(Comprehensive(a, analyses, first, recommendations, Summarize(a, analyses, first)));
  }

  /** The close encounters the report is built on. */
  function ScreenedEncounters(
    catalog: seq<Entry>, sky: Sky, target: string, other: Option<string>,
    thresholdKm: real, daysAhead: int): seq<Screening.Encounter>
  {
    Screening.Screen(sky, target, Screening.ChecksFor(catalog, target, other), thresholdKm,
                     Screening.SampleCount(daysAhead))
  }

  /** The report as the source computes it: identical to
      `ComprehensiveCollisionAnalysis` up to `tiempo_primer_encuentro`, which
      raises as soon as the screening found an encounter. A report therefore
      exists only when there is nothing to report. */
  method ComprehensiveCollisionAnalysisAsWritten(
    catalog: seq<Entry>, sky: Sky, target: string, other: Option<string>,
    thresholdKm: real, daysAhead: int)
    returns (r: Result<Comprehensive, ReportError>)
    ensures target !in Names(catalog) ==> r == Failure(ScreeningFailed(Screening.NotFound(target)))
    ensures target in Names(catalog) ==>
      (r.Failure? <==> ScreenedEncounters(catalog, sky, target, other, thresholdKm, daysAhead) != [])
    ensures target in Names(catalog) && r.Failure? ==> r.error == MixedTimezones
    ensures r.Success? ==>
      && r.value.collisionAnalysis.closeEncounters == []
      && r.value.collisionAnalysis.riskLevel == Screening.LowRisk
      && r.value.maneuverAnalyses == []
      && r.value.firstEncounter.None?
  {
    var screening := Screening.AnalyzeCollisionRisk(catalog, sky, target, other, thresholdKm, daysAhead);
    if screening.Failure? {
      return Failure(ScreeningFailed(screening.error));
    }
    var a := screening.value;
    var encounters := a.closeEncounters;
    var analyses := EstimateFirstEncounters(encounters);
    var recommendations := GeneralRecommendations(a.riskLevel, a.totalEncounters, analyses);
    var first := FirstEncounterAsWritten(encounters);
    if first.Failure? {
      return Failure(first.error);
    }
    assert Take(encounters, MaxAnalyzed) == [];
    r := Success(Comprehensive(a, analyses, first.value, recommendations, Summarize(a, analyses, first.value)));
  }

  /** Screening a catalogued object against itself, when its distance to
      itself is below the threshold, finds an encounter at the first sample:
      the corrected report gives it as the first encounter, now, and the
      report as written raises. */
  lemma SelfScreeningFirst(catalog: seq<Entry>, sky: Sky, target: string, thresholdKm: real, daysAhead: int)
    requires target in Names(catalog) && target != "" && daysAhead >= 1
    requires Distance(sky, target, target, 0) < thresholdKm
    ensures var encounters := ScreenedEncounters(catalog, sky, target, Some(target), thresholdKm, daysAhead);
      && encounters != []
      && FirstEncounterAsWritten(encounters) == Failure(MixedTimezones)
      && FirstEncounterOf(encounters) == Some(FirstEncounterInfo(0.0, Distance(sky, target, target, 0)))
  {
    var checks := Screening.ChecksFor(catalog, target, Some(target));
    assert checks == [target];
    var samples := Screening.SampleCount(daysAhead);
    var encounters := Screening.Screen(sky, target, checks, thresholdKm, samples);
    Screening.ScreenComplete(sky, target, checks, thresholdKm, samples, 0, target);
    Screening.ScreenSound(sky, target, checks, thresholdKm, samples);
    var e := Earliest(encounters);
    assert e.hoursFromNow == 0;
  }

  /** The input that shows the failure: one catalogued object screened against
      itself for seven days with a 10 km threshold, all positions at the
      origin. As written, the report raises; the corrected report gives the
      first encounter now, at 0 km. */
  lemma MixedTimezonesCounterexample()
    ensures var sky := Sky((name: string, hours: nat) => Vec3(0.0, 0.0, 0.0), (v: Vec3) => 0.0);
      var catalog := [Entry("ISS (ZARYA)", "stations")];
      var encounters := ScreenedEncounters(catalog, sky, "ISS (ZARYA)", Some("ISS (ZARYA)"), 10.0, 7);
      && "ISS (ZARYA)" in Names(catalog)
      && FirstEncounterAsWritten(encounters) == Failure(MixedTimezones)
      && FirstEncounterOf(encounters) == Some(FirstEncounterInfo(0.0, 0.0))
  {
    var sky := Sky((name: string, hours: nat) => Vec3(0.0, 0.0, 0.0), (v: Vec3) => 0.0);
    var catalog := [Entry("ISS (ZARYA)", "stations")];
    assert Names(catalog)[0] == "ISS (ZARYA)";
    assert Distance(sky, "ISS (ZARYA)", "ISS (ZARYA)", 0) == 0.0;
    SelfScreeningFirst(catalog, sky, "ISS (ZARYA)", 10.0, 7);
  }

  // ---------------------------------------------------------------------------
  // Properties of the report
  // ---------------------------------------------------------------------------

  /** The report holds one entry per encounter, up to five, each describing its
      encounter with the velocity assumed for its distance and carrying all
      three scenarios. */
  lemma ManeuverAnalysesShape(encounters: seq<Screening.Encounter>)
    ensures var analyses := ManeuverAnalyses(encounters);
      && |analyses| == (if |encounters| < MaxAnalyzed then |encounters| else MaxAnalyzed)
      && forall i :: 0 <= i < |analyses| ==>
        && analyses[i].encounter.satellite2 == encounters[i].satellite2
        && analyses[i].encounter.distanceKm == encounters[i].distanceKm
        && analyses[i].encounter.hoursFromNow == encounters[i].hoursFromNow
        && analyses[i].encounter.vRelEstimate == EncounterVelocity(encounters[i].distanceKm)
        && |analyses[i].maneuvers| == 3
  {
    var analyses := ManeuverAnalyses(encounters);
    forall i | 0 <= i < |analyses|
      ensures |analyses[i].maneuvers| == 3
    {
      ThreeScenarios(encounters[i]);
    }
  }

  /** Any close encounter at all makes the report call for immediate action:
      every scenario's lead time is under an hour at every assumed velocity. */
  lemma CloseEncounterDemandsImmediateAction(
    risk: Screening.RiskLevel, totalEncounters: int, encounters: seq<Screening.Encounter>)
    requires encounters != []
    ensures ImmediateActionRequired in GeneralRecommendations(risk, totalEncounters, ManeuverAnalyses(encounters))
    ensures var hours := AllHours(ManeuverAnalyses(encounters));
      StatsOf(hours).Some? && StatsOf(hours).value.minHours < 1.0
  {
    var analyses := ManeuverAnalyses(encounters);
    ThreeScenarios(encounters[0]);
    assert analyses[0] == AnalyzeEncounter(encounters[0]);
    AllHoursContains(analyses, 0, 0);
    var hours := AllHours(analyses);
    var h := analyses[0].maneuvers[0].time.hours;
    assert h < 1.0;
    var k :| 0 <= k < |hours| && hours[k] == h;
    MinManeuverHoursIsMinOfAll(analyses);
    assert MinOf(hours) <= hours[k];
    LeadTimeRemarks(risk, totalEncounters, analyses);
  }

  /** On the screening's chronological encounter list the earliest encounter
      is the first one recorded. */
  lemma FirstEncounterIsFirstRecorded(sky: Sky, target: string, checks: seq<string>, thresholdKm: real, samples: nat)
    requires Screening.Screen(sky, target, checks, thresholdKm, samples) != []
    ensures var encounters := Screening.Screen(sky, target, checks, thresholdKm, samples);
      FirstEncounterOf(encounters)
      == Some(FirstEncounterInfo(encounters[0].hoursFromNow as real, encounters[0].distanceKm))
  {
    Screening.ScreenChronological(sky, target, checks, thresholdKm, samples);
    EarliestOfChronological(Screening.Screen(sky, target, checks, thresholdKm, samples));
  }
}
