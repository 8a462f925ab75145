/** Conjunction screening and risk classification
    (`SatelliteAnalyzer.analyze_collision_risk`).

    The target is sampled every 6 hours over `days_ahead` days; at every sample
    each object of the checked set is compared with it, and each distance
    below the threshold is recorded as an encounter, in sampling order. The
    list of encounters is then reduced to one of four risk levels. */
module Screening {
  import opened Common
  import opened Catalog

  /** 'BAJO', 'MEDIO', 'ALTO' and 'CRÍTICO'. */
  datatype RiskLevel = LowRisk | MediumRisk | HighRisk | CriticalRisk

  /** One close encounter. `hoursFromNow` stands for its timestamp. */
  datatype Encounter = Encounter(
    hoursFromNow: nat,
    satellite2: string,
    distanceKm: real,
    satellite1Pos: Vec3,
    satellite2Pos: Vec3)

  /** The dictionary returned on success. */
  datatype Assessment = Assessment(
    satellite: string,
    analysisPeriodDays: int,
    thresholdKm: real,
    closeEncounters: seq<Encounter>,
    riskLevel: RiskLevel,
    totalEncounters: nat,
    satellitesAnalyzed: nat)

  /** The dictionary `{'error': 'Satélite … no encontrado'}`. */
  datatype ScreenError = NotFound(name: string)

  /** Hours between two samples. */
  const StepHours: nat := 6

  /** Without a named second object, only the first 100 catalog names are screened. */
  const SampleCap: nat := 100

  // ---------------------------------------------------------------------------
  // The checked set
  // ---------------------------------------------------------------------------

  /** The names of `s` other than `t`, in order. */
  function Without(s: seq<string>, t: string): seq<string>
  {
    if s == [] then [] else Without(s[..|s| - 1], t) + (if s[|s| - 1] != t then [s[|s| - 1]] else [])
  }

  lemma {:induction false} WithoutMembers(s: seq<string>, t: string)
    ensures forall x :: x in Without(s, t) <==> x in s && x != t
  {
    if s != [] {
      WithoutMembers(s[..|s| - 1], t);
      assert s == s[..|s| - 1] + [s[|s| - 1]];
    }
  }

  lemma {:induction false} WithoutDistinct(s: seq<string>, t: string)
    requires Distinct(s)
    ensures Distinct(Without(s, t))
  {
    if s != [] {
      var init := s[..|s| - 1];
      WithoutDistinct(init, t);
      WithoutMembers(init, t);
      assert s[|s| - 1] !in init;
    }
  }

  /** `satellites_to_check`, as the sequence of its keys in insertion order.
      A second name that is `None` or empty selects the catalog sample. */
  function ChecksFor(catalog: seq<Entry>, target: string, other: Option<string>): seq<string>
  {
    if other.Some? && other.value != "" then
      (if other.value in Names(catalog) then [other.value] else [])
    else
      Without(Take(Names(catalog), SampleCap), target)
  }

  /** A named second object is checked alone when it is in the catalog, and
      nothing is checked when it is not; without a second name the checked set
      is the first 100 catalog names minus the target. No name is checked
      twice. */
  lemma ChecksForMembers(catalog: seq<Entry>, target: string, other: Option<string>)
    requires WellFormed(catalog)
    ensures other.Some? && other.value != "" ==>
      ChecksFor(catalog, target, other) == (if other.value in Names(catalog) then [other.value] else [])
    ensures other.None? || other.value == "" ==>
      forall x :: x in ChecksFor(catalog, target, other) <==>
        x in Take(Names(catalog), SampleCap) && x != target
    ensures Distinct(ChecksFor(catalog, target, other))
  {
    var sample := Take(Names(catalog), SampleCap);
    WithoutMembers(sample, target);
    WithoutDistinct(sample, target);
  }

  /** Builds `satellites_to_check` the way the source does, name by name. */
  method SatellitesToCheck(catalog: seq<Entry>, target: string, other: Option<string>)
    returns (checks: seq<string>)
    ensures checks == ChecksFor(catalog, target, other)
  {
    var names := Names(catalog);
    if other.Some? && other.value != "" {
      checks := if other.value in names then [other.value] else [];
    } else {
      var sample := Take(names, SampleCap);
      checks := [];
      for i := 0 to |sample|
        invariant checks == Without(sample[..i], target)
      {
        if sample[i] != target {
          checks := checks + [sample[i]];
        }
        assert sample[..i + 1][..i] == sample[..i];
      }
      assert sample[..|sample|] == sample;
    }
  }

  // ---------------------------------------------------------------------------
  // Screening
  // ---------------------------------------------------------------------------

  /** The encounter with `c` that a sample at `hours` would record. */
  function Sighting(sky: Sky, target: string, c: string, hours: nat): Encounter
  {
    Encounter(hours, c, Distance(sky, target, c, hours), sky.position(target, hours), sky.position(c, hours))
  }

  /** The encounter recorded for `c` at `hours`, if it is closer than the threshold. */
  function Hit(sky: Sky, target: string, c: string, thresholdKm: real, hours: nat): seq<Encounter>
  {
    if Distance(sky, target, c, hours) < thresholdKm then [Sighting(sky, target, c, hours)] else []
  }

  /** The encounters of one time sample, over the checked objects in order. */
  function SampleHits(sky: Sky, target: string, checks: seq<string>, thresholdKm: real, hours: nat): seq<Encounter>
  {
    if checks == [] then []
    else SampleHits(sky, target, checks[..|checks| - 1], thresholdKm, hours)
         + Hit(sky, target, checks[|checks| - 1], thresholdKm, hours)
  }

  /** The encounters of the first `samples` time samples (hours 0, 6, 12, …). */
  function Screen(sky: Sky, target: string, checks: seq<string>, thresholdKm: real, samples: nat): seq<Encounter>
  {
    if samples == 0 then []
    else Screen(sky, target, checks, thresholdKm, samples - 1)
         + SampleHits(sky, target, checks, thresholdKm, StepHours * (samples - 1))
  }

  /** The number of values in `range(0, days_ahead * 24, 6)`. */
  function SampleCount(daysAhead: int): nat
  {
    if daysAhead <= 0 then 0 else 4 * daysAhead
  }

  /** An encounter recorded in one sample: a checked object closer than the threshold. */
  ghost predicate RecordedAt(sky: Sky, target: string, checks: seq<string>, thresholdKm: real, hours: nat, e: Encounter)
  {
    && e.hoursFromNow == hours
    && e.satellite2 in checks
    && e.distanceKm == Distance(sky, target, e.satellite2, hours)
    && e.distanceKm < thresholdKm
    && e.satellite1Pos == sky.position(target, hours)
    && e.satellite2Pos == sky.position(e.satellite2, hours)
  }

  lemma {:induction false} SampleHitsSound(sky: Sky, target: string, checks: seq<string>, thresholdKm: real, hours: nat)
    ensures forall e :: e in SampleHits(sky, target, checks, thresholdKm, hours) ==>
      RecordedAt(sky, target, checks, thresholdKm, hours, e)
  {
    if checks != [] {
      var init := checks[..|checks| - 1];
      SampleHitsSound(sky, target, init, thresholdKm, hours);
      assert forall x :: x in init ==> x in checks;
    }
  }

  lemma {:induction false} SampleHitsComplete(sky: Sky, target: string, checks: seq<string>, thresholdKm: real, hours: nat, c: string)
    requires c in checks && Distance(sky, target, c, hours) < thresholdKm
    ensures Sighting(sky, target, c, hours) in SampleHits(sky, target, checks, thresholdKm, hours)
  {
    var init := checks[..|checks| - 1];
    if c != checks[|checks| - 1] {
      assert checks == init + [checks[|checks| - 1]];
      SampleHitsComplete(sky, target, init, thresholdKm, hours, c);
    }
  }

  /** Every encounter is a checked object, sampled on the 6-hour grid within the
      horizon, closer than the threshold, with the distance and positions the
      propagator gives at that sample. */
  lemma {:induction false} ScreenSound(sky: Sky, target: string, checks: seq<string>, thresholdKm: real, samples: nat)
    ensures forall e :: e in Screen(sky, target, checks, thresholdKm, samples) ==>
      && e.hoursFromNow % StepHours == 0
      && e.hoursFromNow < StepHours * samples
      && RecordedAt(sky, target, checks, thresholdKm, e.hoursFromNow, e)
  {
    if samples > 0 {
      ScreenSound(sky, target, checks, thresholdKm, samples - 1);
      SampleHitsSound(sky, target, checks, thresholdKm, StepHours * (samples - 1));
    }
  }

  /** Conversely, every checked object closer than the threshold at a sample of
      the horizon is recorded at that sample. */
  lemma {:induction false} ScreenComplete(sky: Sky, target: string, checks: seq<string>, thresholdKm: real, samples: nat, k: nat, c: string)
    requires k < samples && c in checks
    requires Distance(sky, target, c, StepHours * k) < thresholdKm
    ensures Sighting(sky, target, c, StepHours * k) in Screen(sky, target, checks, thresholdKm, samples)
  {
    if k == samples - 1 {
      SampleHitsComplete(sky, target, checks, thresholdKm, StepHours * k, c);
    } else {
      ScreenComplete(sky, target, checks, thresholdKm, samples - 1, k, c);
    }
  }

  ghost predicate Chronological(encounters: seq<Encounter>)
  {
    forall i, j :: 0 <= i <= j < |encounters| ==> encounters[i].hoursFromNow <= encounters[j].hoursFromNow
  }

  /** Appending a later sample's encounters keeps the order. */
  lemma AppendLaterSample(earlier: seq<Encounter>, later: seq<Encounter>, hours: nat)
    requires Chronological(earlier)
    requires forall e :: e in earlier ==> e.hoursFromNow < hours
    requires forall e :: e in later ==> e.hoursFromNow == hours
    ensures Chronological(earlier + later)
  {
    var all := earlier + later;
    forall i, j | 0 <= i <= j < |all|
      ensures all[i].hoursFromNow <= all[j].hoursFromNow
    {
      if j >= |earlier| {
        assert all[j] in later;
        if i < |earlier| {
          assert all[i] in earlier;
        } else {
          assert all[i] in later;
        }
      }
    }
  }

  /** Encounters come out in chronological order. */
  lemma {:induction false} ScreenChronological(sky: Sky, target: string, checks: seq<string>, thresholdKm: real, samples: nat)
    ensures forall i, j :: 0 <= i <= j < |Screen(sky, target, checks, thresholdKm, samples)| ==>
      Screen(sky, target, checks, thresholdKm, samples)[i].hoursFromNow
        <= Screen(sky, target, checks, thresholdKm, samples)[j].hoursFromNow
  {
    if samples > 0 {
      var hours := StepHours * (samples - 1);
      ScreenChronological(sky, target, checks, thresholdKm, samples - 1);
      ScreenSound(sky, target, checks, thresholdKm, samples - 1);
      SampleHitsSound(sky, target, checks, thresholdKm, hours);
      AppendLaterSample(Screen(sky, target, checks, thresholdKm, samples - 1),
                        SampleHits(sky, target, checks, thresholdKm, hours), hours);
    }
  }

  // ---------------------------------------------------------------------------
  // Risk classification
  // ---------------------------------------------------------------------------

  function Distances(encounters: seq<Encounter>): (ds: seq<real>)
    ensures |ds| == |encounters|
    ensures forall i :: 0 <= i < |encounters| ==> ds[i] == encounters[i].distanceKm
  {
    seq(|encounters|, i requires 0 <= i < |encounters| => encounters[i].distanceKm)
  }

  /** The risk level of a list of encounter distances: low exactly when there
      are none; otherwise critical when one is below 1 km, high when the
      closest is in [1, 5) km, and medium when all are at least 5 km. */
  function Classify(distances: seq<real>): (level: RiskLevel)
    ensures level == LowRisk <==> distances == []
    ensures level == CriticalRisk <==> exists i :: 0 <= i < |distances| && distances[i] < 1.0
    ensures level == HighRisk <==>
      && (exists i :: 0 <= i < |distances| && distances[i] < 5.0)
      && (forall i :: 0 <= i < |distances| ==> distances[i] >= 1.0)
    ensures level == MediumRisk <==>
      distances != [] && forall i :: 0 <= i < |distances| ==> distances[i] >= 5.0
  {
    if distances == [] then LowRisk
    else
      var closest := MinOf(distances);
      if closest < 1.0 then CriticalRisk
      else if closest < 5.0 then HighRisk
      else MediumRisk
  }

  function ClassifyEncounters(encounters: seq<Encounter>): RiskLevel
  {
    Classify(Distances(encounters))
  }

  /** The level depends only on which distances occur, not on their order, so
      screening may visit objects and samples in any order. */
  lemma ClassifyOrderIndependent(a: seq<real>, b: seq<real>)
    requires forall x :: x in a <==> x in b
    ensures Classify(a) == Classify(b)
  {
    if a == [] && b != [] {
      assert b[0] in b;
    }
    if b == [] && a != [] {
      assert a[0] in a;
    }
  }

  // ---------------------------------------------------------------------------
  // analyze_collision_risk
  // ---------------------------------------------------------------------------

  /** The sampling loops of `analyze_collision_risk`: every 6 hours over
      `daysAhead` days, every checked object in turn. */
  method ScreenTarget(sky: Sky, target: string, checks: seq<string>, thresholdKm: real, daysAhead: int)
    returns (encounters: seq<Encounter>)
    ensures encounters == Screen(sky, target, checks, thresholdKm, SampleCount(daysAhead))
  {
    encounters := [];
    var hours := 0;
    ghost var samples: nat := 0;
    while hours < daysAhead * 24
      invariant hours == StepHours * samples
      invariant samples <= SampleCount(daysAhead)
      invariant encounters == Screen(sky, target, checks, thresholdKm, samples)
    {
      var pos1 := sky.position(target, hours);
      for j := 0 to |checks|
        invariant encounters == Screen(sky, target, checks, thresholdKm, samples)
                                + SampleHits(sky, target, checks[..j], thresholdKm, hours)
      {
        var name := checks[j];
        var pos2 := sky.position(name, hours);
        var d := sky.norm(Sub(pos1, pos2));
        if d < thresholdKm {
          encounters := encounters + [Encounter(hours, name, d, pos1, pos2)];
        }
        assert checks[..j + 1][..j] == checks[..j];
      }
      assert checks[..|checks|] == checks;
      hours := hours + StepHours;
      samples := samples + 1;
    }
  }

  /** Screens `target` against the checked set every 6 hours for `daysAhead`
      days. An unknown target gives the not-found error; otherwise the
      encounters are exactly the screening of the checked set, and the level,
      the count and the number of analyzed objects are derived from them. */
  method AnalyzeCollisionRisk(
    catalog: seq<Entry>, sky: Sky, target: string, other: Option<string>,
    thresholdKm: real, daysAhead: int)
    returns (r: Result<Assessment, ScreenError>)
    ensures target !in Names(catalog) <==> r.Failure?
    ensures r.Failure? ==> r.error == NotFound(target)
    ensures r.Success? ==>
      var a := r.value;
      var checks := ChecksFor(catalog, target, other);
      && a.satellite == target
      && a.analysisPeriodDays == daysAhead
      && a.thresholdKm == thresholdKm
      && a.closeEncounters == Screen(sky, target, checks, thresholdKm, SampleCount(daysAhead))
      && a.riskLevel == ClassifyEncounters(a.closeEncounters)
      && a.totalEncounters == |a.closeEncounters|
      && a.satellitesAnalyzed == |checks|
    ensures r.Success? ==> forall e :: e in r.value.closeEncounters ==>
      e.distanceKm < thresholdKm && e.satellite2 in ChecksFor(catalog, target, other)
  {
    if target !in Names(catalog) {
      return Failure(NotFound(target));
    }
    var checks := SatellitesToCheck(catalog, target, other);
    var encounters := ScreenTarget(sky, target, checks, thresholdKm, daysAhead);
    ScreenSound(sky, target, checks, thresholdKm, SampleCount(daysAhead));
    r := Success(Assessment(target, daysAhead, thresholdKm, encounters,
                            ClassifyEncounters(encounters), |encounters|, |checks|));
  }

  /** Two objects that are never closer than the threshold at any sample give
      an empty encounter list and the low level. */
  lemma {:induction false} NoCloseApproachIsLowRisk(sky: Sky, target: string, checks: seq<string>, thresholdKm: real, samples: nat)
    requires forall k: nat, c :: k < samples && c in checks ==> Distance(sky, target, c, StepHours * k) >= thresholdKm
    ensures Screen(sky, target, checks, thresholdKm, samples) == []
    ensures ClassifyEncounters(Screen(sky, target, checks, thresholdKm, samples)) == LowRisk
  {
    if samples > 0 {
      NoCloseApproachIsLowRisk(sky, target, checks, thresholdKm, samples - 1);
      var hours := StepHours * (samples - 1);
      SampleHitsEmpty(sky, target, checks, thresholdKm, hours);
    }
  }

  lemma {:induction false} SampleHitsEmpty(sky: Sky, target: string, checks: seq<string>, thresholdKm: real, hours: nat)
    requires forall c :: c in checks ==> Distance(sky, target, c, hours) >= thresholdKm
    ensures SampleHits(sky, target, checks, thresholdKm, hours) == []
  {
    if checks != [] {
      SampleHitsEmpty(sky, target, checks[..|checks| - 1], thresholdKm, hours);
    }
  }
}
