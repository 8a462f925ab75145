/** The inter-satellite-link decision engine (`ISLControlSystem`): thrust-aware
    routing, the urgency × propellant decision table, the coordination message
    sent to the neighbour, and the simulated response of the constellation.

    The system's own fields (`network_nodes`, `current_routes`) are never
    updated, so every operation here is a function of its inputs, except the
    constellation response, which accumulates its responders in a loop. */
module IslControl {
  import opened Common
  import Screening
  import Maneuver

  // ---------------------------------------------------------------------------
  // Urgency
  // ---------------------------------------------------------------------------

  /** 'CRÍTICO_INMEDIATO', 'CRÍTICO_CORTO_PLAZO', 'MODERADO' and 'BAJO'. */
  datatype Urgency = Immediate | ShortTerm | Moderate | NoUrgency

  /** The urgency of a lead time in hours; `None` is the +∞ lead time used when
      no maneuver was estimated. */
  function UrgencyOf(timeHours: Option<real>): (u: Urgency)
    ensures u == Immediate <==> timeHours.Some? && timeHours.value < 1.0
    ensures u == ShortTerm <==> timeHours.Some? && 1.0 <= timeHours.value < 6.0
    ensures u == Moderate <==> timeHours.Some? && 6.0 <= timeHours.value < 24.0
    ensures u == NoUrgency <==> timeHours.None? || timeHours.value >= 24.0
  {
    match timeHours
    case None => NoUrgency
    case Some(h) =>
      if h < 1.0 then Immediate
      else if h < 6.0 then ShortTerm
      else if h < 24.0 then Moderate
      else NoUrgency
  }

  /** Whether the urgency's name starts with "CRÍTICO". */
  predicate IsCritical(u: Urgency)
  {
    u == Immediate || u == ShortTerm
  }

  // ---------------------------------------------------------------------------
  // The decision table
  // ---------------------------------------------------------------------------

  datatype Command =
    | ThrustImminent | ThrustConditional | ThrustImpossible
    | ThrustPlanned | ThrustPreserve | RouteNormal

  datatype NetworkPriority =
    | HighReroute | MediumReroute | EmergencyReroute
    | PlannedReroute | FuelConservation | NormalPriority

  /** The action texts; all but the last name the neighbour. */
  datatype Action =
    | PrepareEvasion(neighbor: string)
    | EvaluateAlternatives(neighbor: string)
    | TransferAll(neighbor: string)
    | CoordinateRedistribution(neighbor: string)
    | RequestNetworkSupport(neighbor: string)
    | NormalOperation

  /** The command for an urgency and a propellant fraction: above 15 % (or 5 %)
      of propellant thrusts (conditionally) in the critical tiers, above 25 %
      plans a maneuver in the moderate tier, and no urgency routes normally. */
  function CommandOf(u: Urgency, propellant: real): (c: Command)
    ensures c == ThrustImminent <==> IsCritical(u) && propellant > 0.15
    ensures c == ThrustConditional <==> IsCritical(u) && 0.05 < propellant <= 0.15
    ensures c == ThrustImpossible <==> IsCritical(u) && propellant <= 0.05
    ensures c == ThrustPlanned <==> u == Moderate && propellant > 0.25
    ensures c == ThrustPreserve <==> u == Moderate && propellant <= 0.25
    ensures c == RouteNormal <==> u == NoUrgency
  {
    if IsCritical(u) then
      if propellant > 0.15 then ThrustImminent
      else if propellant > 0.05 then ThrustConditional
      else ThrustImpossible
    else if u == Moderate then
      if propellant > 0.25 then ThrustPlanned else ThrustPreserve
    else RouteNormal
  }

  function NetworkPriorityOf(c: Command): NetworkPriority
  {
    match c
    case ThrustImminent => HighReroute
    case ThrustConditional => MediumReroute
    case ThrustImpossible => EmergencyReroute
    case ThrustPlanned => PlannedReroute
    case ThrustPreserve => FuelConservation
    case RouteNormal => NormalPriority
  }

  /** The fraction of bandwidth kept for traffic under each command. */
  function BandwidthOf(c: Command): (b: real)
    ensures 0.0 < b <= 1.0
    ensures b == 1.0 <==> c == RouteNormal
  {
    match c
    case ThrustImminent => 0.2
    case ThrustConditional => 0.1
    case ThrustImpossible => 0.05
    case ThrustPlanned => 0.8
    case ThrustPreserve => 0.6
    case RouteNormal => 1.0
  }

  function ActionOf(c: Command, neighbor: string): Action
  {
    match c
    case ThrustImminent => PrepareEvasion(neighbor)
    case ThrustConditional => EvaluateAlternatives(neighbor)
    case ThrustImpossible => TransferAll(neighbor)
    case ThrustPlanned => CoordinateRedistribution(neighbor)
    case ThrustPreserve => RequestNetworkSupport(neighbor)
    case RouteNormal => NormalOperation
  }

  // ---------------------------------------------------------------------------
  // _generate_isl_protocol
  // ---------------------------------------------------------------------------

  /** 'HIGH' and 'MEDIUM'. */
  datatype MessagePriority = HighPriority | MediumPriority

  /** The four payloads, by their alert type. */
  datatype Payload =
    | ImminentManeuver
    | PropulsionFailure
    | StatusNormal
    | ConditionalManeuver(probability: real)

  /** An 'ISL_COORDINATION' message (its fixed encryption and compression
      tags are left out). */
  datatype IslMessage = IslMessage(
    source: string,
    destination: string,
    priority: MessagePriority,
    payload: Payload)

  /** The message to the neighbour: high priority exactly in the critical
      tiers; a conditional payload for the three commands that neither thrust
      now, fail, nor route normally, whose probability is 1.5 − propellant capped at 1. */
  function GenerateIslProtocol(c: Command, local: string, neighbor: string, u: Urgency, propellant: real)
    : (m: IslMessage)
    ensures m.source == local && m.destination == neighbor
    ensures m.priority == HighPriority <==> IsCritical(u)
    ensures m.payload == ImminentManeuver <==> c == ThrustImminent
    ensures m.payload == PropulsionFailure <==> c == ThrustImpossible
    ensures m.payload == StatusNormal <==> c == RouteNormal
    ensures m.payload.ConditionalManeuver? <==> c in {ThrustConditional, ThrustPlanned, ThrustPreserve}
    ensures m.payload.ConditionalManeuver? ==>
      && m.payload.probability <= 1.0
      && (propellant >= 0.5 ==> m.payload.probability == 1.5 - propellant)
      && (propellant <= 0.5 ==> m.payload.probability == 1.0)
  {
    var priority := if IsCritical(u) then HighPriority else MediumPriority;
    var payload :=
      match c
      case ThrustImminent => ImminentManeuver
      case ThrustImpossible => PropulsionFailure
      case RouteNormal => StatusNormal
      case _ =>
        var p := (1.0 - propellant) + 0.5;
        ConditionalManeuver(if 1.0 < p then 1.0 else p);
    IslMessage(local, neighbor, priority, payload)
  }

  // ---------------------------------------------------------------------------
  // _make_isl_decision
  // ---------------------------------------------------------------------------

  /** The decision dictionary (its timestamp, fixed flags and the percent
      rendering of the propellant level are left out). */
  datatype Decision = Decision(
    command: Command,
    action: Action,
    urgency: Urgency,
    riskAssessment: Screening.RiskLevel,
    propellant: real,
    timeToManeuverHours: Option<real>,
    networkPriority: NetworkPriority,
    bandwidthAllocation: real,
    targetSatellite: string,
    protocol: IslMessage,
    maneuverData: Option<Result<Maneuver.Estimate, Maneuver.ManeuverError>>)

  /** The decision for a lead time and a propellant fraction: the urgency of
      the lead time, the command of the table, and the network priority,
      bandwidth, action and message that go with that command. */
  function MakeIslDecision(local: string, neighbor: string, risk: Screening.RiskLevel,
                           timeHours: Option<real>, propellant: real,
                           maneuverData: Option<Result<Maneuver.Estimate, Maneuver.ManeuverError>>)
    : (d: Decision)
    ensures d.urgency == UrgencyOf(timeHours)
    ensures d.command == CommandOf(d.urgency, propellant)
    ensures d.networkPriority == NetworkPriorityOf(d.command)
    ensures d.bandwidthAllocation == BandwidthOf(d.command)
    ensures d.action == ActionOf(d.command, neighbor)
    ensures d.protocol == GenerateIslProtocol(d.command, local, neighbor, d.urgency, propellant)
    ensures d.riskAssessment == risk && d.propellant == propellant
    ensures d.timeToManeuverHours == timeHours && d.targetSatellite == neighbor
    ensures d.maneuverData == maneuverData
  {
    var urgency := UrgencyOf(timeHours);
    var command := CommandOf(urgency, propellant);
    Decision(command, ActionOf(command, neighbor), urgency, risk, propellant, timeHours,
             NetworkPriorityOf(command), BandwidthOf(command), neighbor,
             GenerateIslProtocol(command, local, neighbor, urgency, propellant),
             maneuverData)
  }

  /** The bandwidth allocation is always one of the six table values, hence in (0, 1]. */
  lemma BandwidthInTable(local: string, neighbor: string, risk: Screening.RiskLevel,
                         timeHours: Option<real>, propellant: real,
                         maneuverData: Option<Result<Maneuver.Estimate, Maneuver.ManeuverError>>)
    ensures var b := MakeIslDecision(local, neighbor, risk, timeHours, propellant, maneuverData).bandwidthAllocation;
      && b in {0.2, 0.1, 0.05, 0.8, 0.6, 1.0}
      && 0.0 < b <= 1.0
  {
    var d := MakeIslDecision(local, neighbor, risk, timeHours, propellant, maneuverData);
    match d.command
    case ThrustImminent =>
    case ThrustConditional =>
    case ThrustImpossible =>
    case ThrustPlanned =>
    case ThrustPreserve =>
    case RouteNormal =>
  }

  /** Whether lead time `t1` is no longer than `t2`, with `None` as +∞. */
  predicate NoLonger(t1: Option<real>, t2: Option<real>)
  {
    t2.None? || (t1.Some? && t1.value <= t2.value)
  }

  /** With the propellant fixed, a longer lead time never leaves less bandwidth
      for traffic. */
  lemma BandwidthMonotoneInLeadTime(t1: Option<real>, t2: Option<real>, propellant: real)
    requires NoLonger(t1, t2)
    ensures BandwidthOf(CommandOf(UrgencyOf(t1), propellant))
         <= BandwidthOf(CommandOf(UrgencyOf(t2), propellant))
  {
  }

  /** With the lead time fixed, more propellant never leaves less bandwidth for
      traffic. */
  lemma BandwidthMonotoneInPropellant(u: Urgency, p1: real, p2: real)
    requires p1 <= p2
    ensures BandwidthOf(CommandOf(u, p1)) <= BandwidthOf(CommandOf(u, p2))
  {
  }

  // ---------------------------------------------------------------------------
  // determine_thrust_aware_routing
  // ---------------------------------------------------------------------------

  /** The collision-risk dictionary the routing reads: its 'risk_level'
      (absent means 'BAJO') and the distances of its 'close_encounters'. */
  datatype RiskData = RiskData(riskLevel: Option<Screening.RiskLevel>, closeDistances: seq<real>)

  function RiskOf(data: RiskData): Screening.RiskLevel
  {
    match data.riskLevel
    case None => Screening.LowRisk
    case Some(level) => level
  }

  /** Whether the routing estimates a maneuver: high or critical risk with at
      least one close encounter. */
  predicate Engaged(data: RiskData)
  {
    RiskOf(data) in {Screening.HighRisk, Screening.CriticalRisk} && data.closeDistances != []
  }

  /** The relative velocity (m/s) assumed for the nearest encounter distance. */
  function RoutingVelocity(nearestKm: real): (v: real)
    ensures nearestKm < 5.0 ==> v == 12000.0
    ensures 5.0 <= nearestKm < 20.0 ==> v == 8000.0
    ensures nearestKm >= 20.0 ==> v == 3000.0
  {
    if nearestKm < 5.0 then 12000.0
    else if nearestKm < 20.0 then 8000.0
    else 3000.0
  }

  /** Separation 500 m, uncertainty 100 m, growth 0.001 m/s, 3 sigma. */
  const RoutingSeparation: real := 500.0
  const RoutingUncertainty: real := 100.0
  const RoutingGrowth: real := 0.001
  const RoutingSigmas: real := 3.0

  function ManeuverFor(data: RiskData): Option<Result<Maneuver.Estimate, Maneuver.ManeuverError>>
  {
    if Engaged(data) then
      Some(Maneuver.CalculateManeuverTime(RoutingVelocity(MinOf(data.closeDistances)),
                                          RoutingSeparation, RoutingUncertainty, RoutingGrowth, RoutingSigmas))
    else None
  }

  /** The lead time the routing decides on: the estimate's hours, or +∞ when
      nothing was estimated or the estimate failed. */
  function LeadTimeOf(maneuver: Option<Result<Maneuver.Estimate, Maneuver.ManeuverError>>): Option<real>
  {
    if maneuver.Some? && maneuver.value.Success? then Some(maneuver.value.value.time.hours) else None
  }

  /** The routing decision. Without high or critical risk and a close
      encounter the lead time stays +∞: no urgency, normal routing and full
      bandwidth. Otherwise the estimate for the nearest encounter always
      succeeds in well under an hour, so the urgency is immediate. */
  function DetermineThrustAwareRouting(local: string, neighbor: string, data: RiskData, propellant: real)
    : (d: Decision)
    ensures d.riskAssessment == RiskOf(data) && d.targetSatellite == neighbor
    ensures d.command == CommandOf(d.urgency, propellant)
    ensures d.networkPriority == NetworkPriorityOf(d.command)
    ensures d.bandwidthAllocation == BandwidthOf(d.command)
    ensures d.action == ActionOf(d.command, neighbor)
    ensures d.protocol == GenerateIslProtocol(d.command, local, neighbor, d.urgency, propellant)
    ensures d.propellant == propellant
    ensures !Engaged(data) ==>
      && d.timeToManeuverHours.None? && d.maneuverData.None?
      && d.urgency == NoUrgency && d.command == RouteNormal && d.bandwidthAllocation == 1.0
    ensures Engaged(data) ==>
      d.maneuverData == Some(Maneuver.CalculateManeuverTime(RoutingVelocity(MinOf(data.closeDistances)),
                               RoutingSeparation, RoutingUncertainty, RoutingGrowth, RoutingSigmas))
    ensures Engaged(data) ==>
      && d.maneuverData.Some? && d.maneuverData.value.Success?
      && d.timeToManeuverHours == Some(d.maneuverData.value.value.time.hours)
      && 0.0 < d.timeToManeuverHours.value < 1.0
      && d.urgency == Immediate
  {
    var maneuver := ManeuverFor(data);
    var decision := MakeIslDecision(local, neighbor, RiskOf(data), LeadTimeOf(maneuver), propellant, maneuver);
    if Engaged(data) then
      RoutedLeadTime(MinOf(data.closeDistances));
      decision
    else decision
  }

  /** For every nearest distance the routing's estimate succeeds with a lead
      time of (0, 1) hours. */
  lemma RoutedLeadTime(nearestKm: real)
    ensures var r := Maneuver.CalculateManeuverTime(RoutingVelocity(nearestKm),
                       RoutingSeparation, RoutingUncertainty, RoutingGrowth, RoutingSigmas);
      r.Success? && 0.0 < r.value.time.hours < 1.0
  {
    var v := RoutingVelocity(nearestKm);
    var r := Maneuver.CalculateManeuverTime(v, RoutingSeparation, RoutingUncertainty, RoutingGrowth, RoutingSigmas);
    var s := r.value.time.seconds;
    assert s * (v - 0.003) == 800.0;
    FractionBelowOne(s, v - 0.003);
  }

  lemma FractionBelowOne(s: real, d: real)
    requires d > 800.0 && s * d == 800.0
    ensures 0.0 < s < 1.0
  {
  }

  /** The 'ALTO' demonstration with the nearest encounter at 8.3 km and 3 %
      propellant: the thrust is impossible, traffic is rerouted in emergency
      with 5 % bandwidth, and the neighbour is told the propulsion failed. */
  lemma LowPropellantScenario()
    ensures var d := DetermineThrustAwareRouting("IENAI_SAT_01", "IENAI_SAT_02",
                       RiskData(Some(Screening.HighRisk), [8.3]), 0.03);
      && d.command == ThrustImpossible
      && d.networkPriority == EmergencyReroute
      && d.bandwidthAllocation == 0.05
      && d.protocol.payload == PropulsionFailure
      && d.protocol.priority == HighPriority
  {
    var d := DetermineThrustAwareRouting("IENAI_SAT_01", "IENAI_SAT_02",
               RiskData(Some(Screening.HighRisk), [8.3]), 0.03);
    assert Engaged(RiskData(Some(Screening.HighRisk), [8.3]));
    assert d.urgency == Immediate;
  }

  /** The 'MEDIO' demonstration: a medium risk never triggers an estimate, so
      traffic is routed normally whatever the encounter. */
  lemma MediumRiskRoutesNormally(local: string, neighbor: string, distances: seq<real>, propellant: real)
    ensures var d := DetermineThrustAwareRouting(local, neighbor,
                       RiskData(Some(Screening.MediumRisk), distances), propellant);
      && d.command == RouteNormal
      && d.bandwidthAllocation == 1.0
      && d.protocol.payload == StatusNormal
      && d.protocol.priority == MediumPriority
  {
    assert !Engaged(RiskData(Some(Screening.MediumRisk), distances));
  }

  // ---------------------------------------------------------------------------
  // simulate_constellation_response
  // ---------------------------------------------------------------------------

  function DigitChar(d: nat): char
    requires d < 10
  {
    ('0' as int + d) as char
  }

  /** The decimal digits of `n`. */
  function Decimal(n: nat): (s: string)
    ensures |s| >= 1
  {
    if n < 10 then [DigitChar(n)] else Decimal(n / 10) + [DigitChar(n % 10)]
  }

  /** `f"IENAI_SAT_{i+1:02d}"`: the 1-based peer number, zero-padded to two digits. */
  function PeerId(i: nat): string
  {
    var digits := Decimal(i + 1);
    "IENAI_SAT_" + (if |digits| < 2 then "0" + digits else digits)
  }

  /** The first nine peers are "IENAI_SAT_01" … "IENAI_SAT_09". */
  lemma SmallPeerId(i: nat)
    requires i < 9
    ensures PeerId(i) == "IENAI_SAT_0" + [DigitChar(i + 1)]
  {
  }

  lemma SmallPeerIdsDistinct(i: nat, j: nat)
    requires i < 9 && j < 9 && i != j
    ensures PeerId(i) != PeerId(j)
  {
    SmallPeerId(i);
    SmallPeerId(j);
    assert PeerId(i)[11] != PeerId(j)[11];
  }

  /** The two uniform draws for one responding peer, in order: capacity
      (documented range 0.6–1.0) and fuel (0.1–0.9). */
  datatype PeerDraw = PeerDraw(capacity: real, fuel: real)

  datatype PeerResponse = PeerResponse(
    satelliteId: string,
    availableCapacity: real,
    fuelLevel: real,
    canAssist: bool,
    priorityLevel: MessagePriority)

  /** 'MINIMAL' and 'MODERATE'. */
  datatype Latency = MinimalLatency | ModerateLatency

  datatype NetworkAdaptation = NetworkAdaptation(totalCapacity: real, failoverReady: bool, latencyImpact: Latency)

  /** 'EMERGENCY_PROTOCOL_ACTIVATED', 'FULL_SUPPORT_GRANTED', 'LIMITED_SUPPORT_AVAILABLE'. */
  datatype CollectiveDecision = EmergencyProtocol | FullSupport | LimitedSupport

  datatype ConstellationResponse = ConstellationResponse(
    totalSatellites: int,
    responders: seq<PeerResponse>,
    adaptation: NetworkAdaptation,
    collectiveDecision: CollectiveDecision)

  /** A peer can assist above 30 % capacity, with high priority above 70 %. */
  function Respond(id: string, draw: PeerDraw): (r: PeerResponse)
    ensures r.satelliteId == id && r.availableCapacity == draw.capacity && r.fuelLevel == draw.fuel
    ensures r.canAssist <==> draw.capacity > 0.3
    ensures r.priorityLevel == HighPriority <==> draw.capacity > 0.7
  {
    PeerResponse(id, draw.capacity, draw.fuel, draw.capacity > 0.3,
                 if draw.capacity > 0.7 then HighPriority else MediumPriority)
  }

  /** The responses of peers 0 .. k − 1 other than the target; each responder
      takes the next draw. */
  function Responders(target: string, k: nat, draws: seq<PeerDraw>): (rs: seq<PeerResponse>)
    requires k <= |draws|
    ensures |rs| <= k
  {
    if k == 0 then []
    else
      var previous := Responders(target, k - 1, draws);
      if PeerId(k - 1) != target then previous + [Respond(PeerId(k - 1), draws[|previous|])]
      else previous
  }

  function Capacities(rs: seq<PeerResponse>): (cs: seq<real>)
    ensures |cs| == |rs|
    ensures forall i :: 0 <= i < |rs| ==> cs[i] == rs[i].availableCapacity
  {
    seq(|rs|, i requires 0 <= i < |rs| => rs[i].availableCapacity)
  }

  /** Failover is ready above 150 % total capacity; latency impact is minimal
      above 200 %. */
  function AdaptationOf(total: real): (a: NetworkAdaptation)
    ensures a.totalCapacity == total
    ensures a.failoverReady <==> total > 1.5
    ensures a.latencyImpact == MinimalLatency <==> total > 2.0
  {
    NetworkAdaptation(total, total > 1.5, if total > 2.0 then MinimalLatency else ModerateLatency)
  }

  /** A critical urgency activates the emergency protocol; otherwise support is
      full above 180 % total capacity and limited below. */
  function CollectiveOf(u: Urgency, total: real): (c: CollectiveDecision)
    ensures c == EmergencyProtocol <==> IsCritical(u)
    ensures c == FullSupport <==> !IsCritical(u) && total > 1.8
    ensures c == LimitedSupport <==> !IsCritical(u) && total <= 1.8
  {
    if IsCritical(u) then EmergencyProtocol
    else if total > 1.8 then FullSupport
    else LimitedSupport
  }

  function PeerCount(constellationSize: int): nat
  {
    if constellationSize < 0 then 0 else constellationSize
  }

  /** The constellation's response to a decision, with the peers' random draws
      supplied in order. */
  method SimulateConstellationResponse(decision: Decision, constellationSize: int, draws: seq<PeerDraw>)
    returns (r: ConstellationResponse)
    requires PeerCount(constellationSize) <= |draws|
    ensures r.totalSatellites == constellationSize
    ensures r.responders == Responders(decision.targetSatellite, PeerCount(constellationSize), draws)
    ensures r.adaptation == AdaptationOf(Sum(Capacities(r.responders)))
    ensures r.collectiveDecision == CollectiveOf(decision.urgency, Sum(Capacities(r.responders)))
  {
    var responders: seq<PeerResponse> := [];
    var n := PeerCount(constellationSize);
    for i := 0 to n
      invariant responders == Responders(decision.targetSatellite, i, draws)
    {
      var id := PeerId(i);
      if id != decision.targetSatellite {
        var draw := draws[|responders|];
        responders := responders + [Respond(id, draw)];
      }
    }
    var total := Sum(Capacities(responders));
    r := ConstellationResponse(constellationSize, responders, AdaptationOf(total),
                               CollectiveOf(decision.urgency, total));
  }

  /** `id` names one of peers 0 .. k − 1 and is not the target. */
  ghost predicate OtherPeer(target: string, k: nat, id: string)
  {
    id != target && exists i :: 0 <= i < k && id == PeerId(i)
  }

  /** Every responder is a peer other than the target. */
  lemma {:induction false} RespondersAreOtherPeers(target: string, k: nat, draws: seq<PeerDraw>)
    requires k <= |draws|
    ensures forall j :: 0 <= j < |Responders(target, k, draws)| ==>
      OtherPeer(target, k, Responders(target, k, draws)[j].satelliteId)
  {
    if k > 0 {
      RespondersAreOtherPeers(target, k - 1, draws);
      var previous := Responders(target, k - 1, draws);
      var rs := Responders(target, k, draws);
      forall j | 0 <= j < |rs|
        ensures OtherPeer(target, k, rs[j].satelliteId)
      {
        if j < |previous| {
          assert rs[j] == previous[j];
          var i :| 0 <= i < k - 1 && previous[j].satelliteId == PeerId(i);
        } else {
          assert rs[j].satelliteId == PeerId(k - 1);
        }
      }
    }
  }

  /** Every peer other than the target responds. */
  lemma {:induction false} OtherPeersRespond(target: string, k: nat, draws: seq<PeerDraw>, i: nat)
    requires k <= |draws| && i < k && PeerId(i) != target
    ensures exists j ::
      0 <= j < |Responders(target, k, draws)| && Responders(target, k, draws)[j].satelliteId == PeerId(i)
  {
    var previous := Responders(target, k - 1, draws);
    if i < k - 1 {
      OtherPeersRespond(target, k - 1, draws, i);
      var j :| 0 <= j < |previous| && previous[j].satelliteId == PeerId(i);
      assert Responders(target, k, draws)[j] == previous[j];
    } else {
      assert Responders(target, k, draws)[|previous|].satelliteId == PeerId(i);
    }
  }

  /** Every responder's capacity is one of the draws. */
  lemma {:induction false} RespondersUseDraws(target: string, k: nat, draws: seq<PeerDraw>)
    requires k <= |draws|
    ensures forall i :: 0 <= i < |Responders(target, k, draws)| ==>
      && Responders(target, k, draws)[i].availableCapacity == draws[i].capacity
      && (Responders(target, k, draws)[i].canAssist <==> draws[i].capacity > 0.3)
  {
    if k > 0 {
      RespondersUseDraws(target, k - 1, draws);
    }
  }

  /** With no peer named like the target, all k peers respond. */
  lemma {:induction false} AllRespond(target: string, k: nat, draws: seq<PeerDraw>)
    requires k <= |draws|
    requires forall i :: 0 <= i < k ==> PeerId(i) != target
    ensures |Responders(target, k, draws)| == k
  {
    if k > 0 {
      AllRespond(target, k - 1, draws);
    }
  }

  /** Among at most nine peers, at most one is the target. */
  lemma {:induction false} AtMostOneSilent(target: string, k: nat, draws: seq<PeerDraw>)
    requires k <= |draws| && k <= 9
    ensures |Responders(target, k, draws)| >= k - 1
  {
    if k > 0 {
      if PeerId(k - 1) == target {
        forall i | 0 <= i < k - 1
          ensures PeerId(i) != target
        {
          SmallPeerIdsDistinct(i, k - 1);
        }
        AllRespond(target, k - 1, draws);
      } else {
        AtMostOneSilent(target, k - 1, draws);
      }
    }
  }

  /** With the default five peers and capacities in their documented range
      0.6–1.0, every responder can assist, at least four respond, failover is
      ready with minimal latency impact, and a non-critical decision receives
      full support. */
  lemma DefaultConstellationSupports(decision: Decision, draws: seq<PeerDraw>)
    requires 5 <= |draws|
    requires forall i :: 0 <= i < |draws| ==> 0.6 <= draws[i].capacity <= 1.0
    requires !IsCritical(decision.urgency)
    ensures var rs := Responders(decision.targetSatellite, 5, draws);
      var total := Sum(Capacities(rs));
      && |rs| >= 4
      && (forall i :: 0 <= i < |rs| ==> rs[i].canAssist)
      && AdaptationOf(total).failoverReady
      && AdaptationOf(total).latencyImpact == MinimalLatency
      && CollectiveOf(decision.urgency, total) == FullSupport
  {
    var rs := Responders(decision.targetSatellite, 5, draws);
    AtMostOneSilent(decision.targetSatellite, 5, draws);
    RespondersUseDraws(decision.targetSatellite, 5, draws);
    var cs := Capacities(rs);
    SumAtLeast(cs, 0.6);
    assert Sum(cs) >= 2.4;
  }
}
