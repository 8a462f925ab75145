/** The bounded search for real conjunction cases
    (`SatelliteAnalyzer.find_collision_cases`) and its velocity estimate
    (`_estimate_relative_velocity`).

    The first `min(max_satellites, catalog size)` names are searched pairwise:
    each name against the (at most 50) names after it, every 2 hours over
    `days_ahead` days, skipping a pair already examined. Every sample closer
    than the threshold is a case, and the search stops as soon as it holds 5. */
module CaseSearch {
  import opened Common
  import opened Catalog

  datatype CollisionCase = CollisionCase(
    satellite1: string,
    satellite2: string,
    hoursFromNow: nat,
    distanceKm: real,
    satellite1Pos: Vec3,
    satellite2Pos: Vec3,
    relativeVelocityEstimated: real)

  /** The search stops once it holds this many cases. */
  const MaxCases: nat := 5

  /** Each name is paired with at most this many names after it. */
  const Window: nat := 50

  /** Hours between two samples. */
  const StepHours: nat := 2

  /** Typical LEO orbital speed in m/s. */
  const OrbitalSpeed: real := 7800.0

  // ---------------------------------------------------------------------------
  // _estimate_relative_velocity
  // ---------------------------------------------------------------------------

  /** The estimated relative velocity (m/s) of an encounter at a given distance:
      1.8, 1.2 or 0.5 times the orbital speed for under 5 km, under 20 km, or
      farther. The positions the source passes in are not used. */
  function EstimateRelativeVelocity(distanceKm: real): (v: real)
    ensures distanceKm < 5.0 ==> v == 14040.0
    ensures 5.0 <= distanceKm < 20.0 ==> v == 9360.0
    ensures distanceKm >= 20.0 ==> v == 3900.0
  {
    if distanceKm < 5.0 then OrbitalSpeed * 1.8
    else if distanceKm < 20.0 then OrbitalSpeed * 1.2
    else OrbitalSpeed * 0.5
  }

  /** A closer encounter is never estimated slower. */
  lemma EstimateMonotone(d1: real, d2: real)
    requires d1 <= d2
    ensures EstimateRelativeVelocity(d2) <= EstimateRelativeVelocity(d1)
    ensures 0.0 < EstimateRelativeVelocity(d2)
  {
  }

  // ---------------------------------------------------------------------------
  // The exhaustive search, as a specification
  // ---------------------------------------------------------------------------

  /** The number of values in `range(0, days_ahead * 24, 2)`. */
  function SampleCount(daysAhead: int): nat
  {
    if daysAhead <= 0 then 0 else 12 * daysAhead
  }

  /** `satellites_list[:min(max_satellites, len(satellites_list))]`. */
  function SampleNames(catalog: seq<Entry>, maxSatellites: int): seq<string>
  {
    PySlicePrefix(Names(catalog), if maxSatellites < |catalog| then maxSatellites else |catalog|)
  }

  /** One past the last partner of name `i` among `n` names. */
  function RowEnd(i: nat, n: nat): nat
  {
    if i + Window + 1 < n then i + Window + 1 else n
  }

  /** The key under which a pair is remembered: the unordered pair of names
      (`tuple(sorted([a, b]))` in the source identifies the same pairs). */
  function PairKey(s: seq<string>, a: nat, b: nat): set<string>
    requires a < |s| && b < |s|
  {
    {s[a], s[b]}
  }

  /** The case found for names `i` and `j` at `hours`, if they are close enough. */
  function Found(sky: Sky, s: seq<string>, i: nat, j: nat, thresholdKm: real, hours: nat): seq<CollisionCase>
    requires i < |s| && j < |s|
  {
    if Distance(sky, s[i], s[j], hours) < thresholdKm then [CaseAt(sky, s, i, j, hours)] else []
  }

  /** The case the search records for names `i` and `j` at `hours`. */
  function CaseAt(sky: Sky, s: seq<string>, i: nat, j: nat, hours: nat): CollisionCase
    requires i < |s| && j < |s|
  {
    var d := Distance(sky, s[i], s[j], hours);
    CollisionCase(s[i], s[j], hours, d, sky.position(s[i], hours), sky.position(s[j], hours),
                  EstimateRelativeVelocity(d))
  }

  /** The cases of pair (i, j) over its first `m` samples (hours 0, 2, 4, …). */
  function PairCases(sky: Sky, s: seq<string>, i: nat, j: nat, thresholdKm: real, m: nat): seq<CollisionCase>
    requires i < |s| && j < |s|
  {
    if m == 0 then []
    else PairCases(sky, s, i, j, thresholdKm, m - 1) + Found(sky, s, i, j, thresholdKm, StepHours * (m - 1))
  }

  /** The cases of the pairs (i, j) with i < j < jEnd, in order of j. */
  function RowCases(sky: Sky, s: seq<string>, i: nat, jEnd: nat, thresholdKm: real, samples: nat): seq<CollisionCase>
    requires i < |s| && jEnd <= |s|
  {
    if jEnd <= i + 1 then []
    else RowCases(sky, s, i, jEnd - 1, thresholdKm, samples)
         + PairCases(sky, s, i, jEnd - 1, thresholdKm, samples)
  }

  /** The cases of the rows 0 .. iEnd - 1, each against its window. */
  function AllCases(sky: Sky, s: seq<string>, iEnd: nat, thresholdKm: real, samples: nat): seq<CollisionCase>
    requires iEnd <= |s|
  {
    if iEnd == 0 then []
    else AllCases(sky, s, iEnd - 1, thresholdKm, samples)
         + RowCases(sky, s, iEnd - 1, RowEnd(iEnd - 1, |s|), thresholdKm, samples)
  }

  /** What an exhaustive search truncated at the fifth case returns. */
  function FirstCases(all: seq<CollisionCase>): (r: seq<CollisionCase>)
    ensures |r| <= MaxCases
    ensures |all| >= MaxCases ==> r == all[..MaxCases]
    ensures |all| < MaxCases ==> r == all
  {
    if |all| >= MaxCases then all[..MaxCases] else all
  }

  // ---------------------------------------------------------------------------
  // Growth of the specification (what the early return relies on)
  // ---------------------------------------------------------------------------

  lemma {:induction false} PairCasesGrow(sky: Sky, s: seq<string>, i: nat, j: nat, thresholdKm: real, m: nat, m': nat)
    requires i < |s| && j < |s| && m <= m'
    ensures PairCases(sky, s, i, j, thresholdKm, m) <= PairCases(sky, s, i, j, thresholdKm, m')
  {
    if m < m' {
      PairCasesGrow(sky, s, i, j, thresholdKm, m, m' - 1);
    }
  }

  lemma {:induction false} RowCasesGrow(sky: Sky, s: seq<string>, i: nat, j: nat, j': nat, thresholdKm: real, samples: nat)
    requires i < |s| && j <= j' <= |s|
    ensures RowCases(sky, s, i, j, thresholdKm, samples) <= RowCases(sky, s, i, j', thresholdKm, samples)
  {
    if j < j' {
      RowCasesGrow(sky, s, i, j, j' - 1, thresholdKm, samples);
    }
  }

  lemma {:induction false} AllCasesGrow(sky: Sky, s: seq<string>, i: nat, i': nat, thresholdKm: real, samples: nat)
    requires i <= i' <= |s|
    ensures AllCases(sky, s, i, thresholdKm, samples) <= AllCases(sky, s, i', thresholdKm, samples)
  {
    if i < i' {
      AllCasesGrow(sky, s, i, i' - 1, thresholdKm, samples);
    }
  }

  lemma PrefixAppend(c: seq<CollisionCase>, x: seq<CollisionCase>, y: seq<CollisionCase>)
    requires x <= y
    ensures c + x <= c + y
  {
    assert (c + y)[..|c + x|] == c + y[..|x|];
  }

  /** A prefix holding exactly five cases is what the cut keeps. */
  lemma CutAtFifth(x: seq<CollisionCase>, y: seq<CollisionCase>)
    requires x <= y && |x| == MaxCases
    ensures FirstCases(y) == x
  {
  }

  lemma PrefixTransitive(x: seq<CollisionCase>, y: seq<CollisionCase>, z: seq<CollisionCase>)
    requires x <= y && y <= z
    ensures x <= z
  {
    assert z[..|x|] == y[..|x|];
  }

  // ---------------------------------------------------------------------------
  // The pair memory
  // ---------------------------------------------------------------------------

  /** Distinct index pairs over distinct names have distinct keys, so no
      unordered pair of objects is examined twice. */
  lemma PairKeyInjective(s: seq<string>, a: nat, b: nat, c: nat, d: nat)
    requires Distinct(s)
    requires a < b < |s| && c < d < |s|
    requires PairKey(s, a, b) == PairKey(s, c, d)
    ensures a == c && b == d
  {
    assert s[a] in PairKey(s, c, d);
    assert s[b] in PairKey(s, c, d);
    assert s[c] in PairKey(s, a, b);
    assert s[d] in PairKey(s, a, b);
  }

  // ---------------------------------------------------------------------------
  // find_collision_cases
  // ---------------------------------------------------------------------------

  /** One sample of a pair: both positions, their distance, and the case when
      it is under the threshold. */
  method SamplePair(sky: Sky, s: seq<string>, i: nat, j: nat, thresholdKm: real, hours: nat)
    returns (found: seq<CollisionCase>)
    requires i < |s| && j < |s|
    ensures found == Found(sky, s, i, j, thresholdKm, hours)
  {
    var pos1 := sky.position(s[i], hours);
    var pos2 := sky.position(s[j], hours);
    var d := sky.norm(Sub(pos1, pos2));
    found := [];
    if d < thresholdKm {
      found := [CollisionCase(s[i], s[j], hours, d, pos1, pos2, EstimateRelativeVelocity(d))];
    }
  }

  /** The sampling loop for one pair (`for hours in range(0, days_ahead * 24, 2)`,
      its m-th pass at hour 2m): the cases found so far, extended by the pair's
      cases and cut at the fifth. */
  method ScanPair(sky: Sky, s: seq<string>, i: nat, j: nat, thresholdKm: real, daysAhead: int,
                  prior: seq<CollisionCase>)
    returns (cases: seq<CollisionCase>)
    requires i < |s| && j < |s| && |prior| < MaxCases
    ensures cases == FirstCases(prior + PairCases(sky, s, i, j, thresholdKm, SampleCount(daysAhead)))
  {
    var samples := SampleCount(daysAhead);
    cases := prior;
    for m := 0 to samples
      invariant cases == prior + PairCases(sky, s, i, j, thresholdKm, m)
      invariant |cases| < MaxCases
    {
      var found := SamplePair(sky, s, i, j, thresholdKm, StepHours * m);
      if found != [] {
        cases := cases + found;
        if |cases| >= MaxCases {
          PairStop(sky, s, i, j, thresholdKm, m + 1, samples, prior);
          return;
        }
      }
    }
  }

  /** Every remembered pair (a, b) of `s` precedes pair (i, j) in search order. */
  ghost predicate RememberedBefore(s: seq<string>, analyzed: set<set<string>>, i: nat, j: nat)
  {
    forall a: nat, b: nat {:trigger PairKey(s, a, b)} ::
      a < b < |s| && PairKey(s, a, b) in analyzed ==> a < i || (a == i && b < j)
  }

  /** The pair the search reaches next was never examined, and remembering it
      keeps the memory ordered. */
  lemma Remember(s: seq<string>, analyzed: set<set<string>>, i: nat, j: nat)
    requires Distinct(s) && i < j < |s| && RememberedBefore(s, analyzed, i, j)
    ensures PairKey(s, i, j) !in analyzed
    ensures RememberedBefore(s, analyzed + {PairKey(s, i, j)}, i, j + 1)
  {
    forall a: nat, b: nat | a < b < |s| && PairKey(s, a, b) == PairKey(s, i, j)
      ensures a == i && b == j
    {
      PairKeyInjective(s, a, b, i, j);
    }
  }

  lemma RowExtend(sky: Sky, s: seq<string>, i: nat, j: nat, thresholdKm: real, samples: nat,
                  prior: seq<CollisionCase>)
    requires i < j < |s|
    ensures prior + RowCases(sky, s, i, j, thresholdKm, samples) + PairCases(sky, s, i, j, thresholdKm, samples)
         == prior + RowCases(sky, s, i, j + 1, thresholdKm, samples)
  {
  }

  /** After the pair (i, j), at the cut, the row's result is final. */
  lemma RowStop(sky: Sky, s: seq<string>, i: nat, j: nat, thresholdKm: real, samples: nat,
                prior: seq<CollisionCase>)
    requires i < j < RowEnd(i, |s|)
    requires |prior + RowCases(sky, s, i, j + 1, thresholdKm, samples)| >= MaxCases
    ensures FirstCases(prior + RowCases(sky, s, i, RowEnd(i, |s|), thresholdKm, samples))
         == FirstCases(prior + RowCases(sky, s, i, j + 1, thresholdKm, samples))
  {
    var rowNext := RowCases(sky, s, i, j + 1, thresholdKm, samples);
    var rowFull := RowCases(sky, s, i, RowEnd(i, |s|), thresholdKm, samples);
    RowCasesGrow(sky, s, i, j + 1, RowEnd(i, |s|), thresholdKm, samples);
    PrefixAppend(prior, rowNext, rowFull);
    CutOfPrefix(prior + rowNext, prior + rowFull);
  }

  /** A list with at least five cases is cut the same as any extension of it. */
  lemma CutOfPrefix(x: seq<CollisionCase>, y: seq<CollisionCase>)
    requires x <= y && |x| >= MaxCases
    ensures FirstCases(y) == FirstCases(x)
  {
    assert y[..MaxCases] == x[..MaxCases];
  }

  /** After row i: either the cut was reached and the search's result is final,
      or the cases so far are those of rows 0 .. i. */
  lemma SearchStep(sky: Sky, s: seq<string>, i: nat, thresholdKm: real, samples: nat, cases: seq<CollisionCase>)
    requires i < |s|
    requires cases == FirstCases(AllCases(sky, s, i, thresholdKm, samples)
                                 + RowCases(sky, s, i, RowEnd(i, |s|), thresholdKm, samples))
    ensures |cases| < MaxCases ==> cases == AllCases(sky, s, i + 1, thresholdKm, samples)
    ensures |cases| >= MaxCases ==> cases == FirstCases(AllCases(sky, s, |s|, thresholdKm, samples))
  {
    var next := AllCases(sky, s, i + 1, thresholdKm, samples);
    assert next == AllCases(sky, s, i, thresholdKm, samples)
                   + RowCases(sky, s, i, RowEnd(i, |s|), thresholdKm, samples);
    if |cases| >= MaxCases {
      var all := AllCases(sky, s, |s|, thresholdKm, samples);
      assert cases == next[..MaxCases];
      AllCasesGrow(sky, s, i + 1, |s|, thresholdKm, samples);
      PrefixTransitive(cases, next, all);
      CutAtFifth(cases, all);
    }
  }

  /** Once the first m samples of a pair complete five cases, the pair's
      remaining samples are cut off. */
  lemma PairStop(sky: Sky, s: seq<string>, i: nat, j: nat, thresholdKm: real, m: nat, samples: nat,
                 prior: seq<CollisionCase>)
    requires i < |s| && j < |s| && m <= samples
    requires |prior + PairCases(sky, s, i, j, thresholdKm, m)| == MaxCases
    ensures FirstCases(prior + PairCases(sky, s, i, j, thresholdKm, samples))
         == prior + PairCases(sky, s, i, j, thresholdKm, m)
  {
    PairCasesGrow(sky, s, i, j, thresholdKm, m, samples);
    PrefixAppend(prior, PairCases(sky, s, i, j, thresholdKm, m), PairCases(sky, s, i, j, thresholdKm, samples));
    CutAtFifth(prior + PairCases(sky, s, i, j, thresholdKm, m), prior + PairCases(sky, s, i, j, thresholdKm, samples));
  }

  /** One pair of the row: skipped when already analysed, otherwise scanned
      over the horizon. The cases collected stay the row's prefix up to `j`
      until the cut, after which they are the row's final result. */
  method VisitPair(sky: Sky, s: seq<string>, i: nat, j: nat, thresholdKm: real, daysAhead: int,
                   prior: seq<CollisionCase>, cases: seq<CollisionCase>, analyzed: set<set<string>>)
    returns (cases': seq<CollisionCase>, analyzed': set<set<string>>)
    requires i < j < RowEnd(i, |s|) && Distinct(s)
    requires cases == prior + RowCases(sky, s, i, j, thresholdKm, SampleCount(daysAhead))
    requires |cases| < MaxCases
    requires RememberedBefore(s, analyzed, i, j)
    ensures RememberedBefore(s, analyzed', i, j + 1)
    ensures |cases'| < MaxCases ==> cases' == prior + RowCases(sky, s, i, j + 1, thresholdKm, SampleCount(daysAhead))
    ensures |cases'| >= MaxCases ==>
      cases' == FirstCases(prior + RowCases(sky, s, i, RowEnd(i, |s|), thresholdKm, SampleCount(daysAhead)))
  {
    ghost var samples := SampleCount(daysAhead);
    var pair := PairKey(s, i, j);
    Remember(s, analyzed, i, j);
    cases', analyzed' := cases, analyzed;
    if pair !in analyzed {
      analyzed' := analyzed + {pair};
      cases' := ScanPair(sky, s, i, j, thresholdKm, daysAhead, cases);
      RowExtend(sky, s, i, j, thresholdKm, samples, prior);
      if |cases'| >= MaxCases {
        RowStop(sky, s, i, j, thresholdKm, samples, prior);
      }
    }
  }

  /** One row of the search: name `i` against the names after it in its
      window, skipping pairs already remembered. Returns the cases found so far
      extended by the row's cases and cut at the fifth, and the grown memory. */
  method ScanRow(sky: Sky, s: seq<string>, i: nat, thresholdKm: real, daysAhead: int,
                 prior: seq<CollisionCase>, analyzed: set<set<string>>)
    returns (cases: seq<CollisionCase>, analyzed': set<set<string>>)
    requires i < |s| && Distinct(s) && |prior| < MaxCases
    requires RememberedBefore(s, analyzed, i, i + 1)
    ensures cases == FirstCases(prior + RowCases(sky, s, i, RowEnd(i, |s|), thresholdKm, SampleCount(daysAhead)))
    ensures RememberedBefore(s, analyzed', i + 1, i + 2)
  {
    var jEnd := RowEnd(i, |s|);
    cases := prior;
    analyzed' := analyzed;
    for j := i + 1 to jEnd
      invariant cases == prior + RowCases(sky, s, i, j, thresholdKm, SampleCount(daysAhead))
      invariant |cases| < MaxCases
      invariant RememberedBefore(s, analyzed', i, j)
    {
      cases, analyzed' := VisitPair(sky, s, i, j, thresholdKm, daysAhead, prior, cases, analyzed');
      if |cases| >= MaxCases {
        return;
      }
    }
  }

  /** The search returns the exhaustive list of cases cut at its fifth case. */
  method FindCollisionCases(catalog: seq<Entry>, sky: Sky, thresholdKm: real, daysAhead: int, maxSatellites: int)
    returns (cases: seq<CollisionCase>)
    requires WellFormed(catalog)
    ensures var s := SampleNames(catalog, maxSatellites);
      cases == FirstCases(AllCases(sky, s, |s|, thresholdKm, SampleCount(daysAhead)))
    ensures |cases| <= MaxCases
  {
    var names := Names(catalog);
    var sampleSize := if maxSatellites < |names| then maxSatellites else |names|;
    var sample := PySlicePrefix(names, sampleSize);
    var n := |sample|;
    ghost var samples := SampleCount(daysAhead);
    assert Distinct(sample) by {
      assert forall a :: 0 <= a < n ==> sample[a] == names[a];
    }
    var analyzed: set<set<string>> := {};
    cases := [];
    for i := 0 to n
      invariant cases == AllCases(sky, sample, i, thresholdKm, samples)
      invariant |cases| < MaxCases
      invariant RememberedBefore(sample, analyzed, i, i + 1)
    {
      cases, analyzed := ScanRow(sky, sample, i, thresholdKm, daysAhead, cases, analyzed);
      SearchStep(sky, sample, i, thresholdKm, samples, cases);
      if |cases| >= MaxCases {
        return;
      }
    }
  }

  // ---------------------------------------------------------------------------
  // What every returned case satisfies
  // ---------------------------------------------------------------------------

  /** Case `c` comes from names `a` < `b` of `s`, `b` within `a`'s window, at a
      sample on the 2-hour grid of the horizon, closer than the threshold. */
  ghost predicate CaseOf(sky: Sky, s: seq<string>, thresholdKm: real, samples: nat, c: CollisionCase)
  {
    && (exists a: nat, b: nat :: a < b < RowEnd(a, |s|) && c.satellite1 == s[a] && c.satellite2 == s[b])
    && c.hoursFromNow % StepHours == 0
    && c.hoursFromNow < StepHours * samples
    && c.distanceKm == Distance(sky, c.satellite1, c.satellite2, c.hoursFromNow)
    && c.distanceKm < thresholdKm
    && c.relativeVelocityEstimated == EstimateRelativeVelocity(c.distanceKm)
  }

  lemma {:induction false} PairCasesSound(sky: Sky, s: seq<string>, i: nat, j: nat, thresholdKm: real, m: nat, samples: nat)
    requires i < j < RowEnd(i, |s|) && m <= samples
    ensures forall c :: c in PairCases(sky, s, i, j, thresholdKm, m) ==> CaseOf(sky, s, thresholdKm, samples, c)
  {
    if m > 0 {
      PairCasesSound(sky, s, i, j, thresholdKm, m - 1, samples);
      var found := Found(sky, s, i, j, thresholdKm, StepHours * (m - 1));
      if found != [] {
        assert found[0].satellite1 == s[i] && found[0].satellite2 == s[j];
        assert CaseOf(sky, s, thresholdKm, samples, found[0]);
      }
    }
  }

  lemma {:induction false} RowCasesSound(sky: Sky, s: seq<string>, i: nat, jEnd: nat, thresholdKm: real, samples: nat)
    requires i < |s| && jEnd <= RowEnd(i, |s|)
    ensures forall c :: c in RowCases(sky, s, i, jEnd, thresholdKm, samples) ==> CaseOf(sky, s, thresholdKm, samples, c)
  {
    if jEnd > i + 1 {
      RowCasesSound(sky, s, i, jEnd - 1, thresholdKm, samples);
      PairCasesSound(sky, s, i, jEnd - 1, thresholdKm, samples, samples);
    }
  }

  lemma {:induction false} AllCasesSound(sky: Sky, s: seq<string>, iEnd: nat, thresholdKm: real, samples: nat)
    requires iEnd <= |s|
    ensures forall c :: c in AllCases(sky, s, iEnd, thresholdKm, samples) ==> CaseOf(sky, s, thresholdKm, samples, c)
  {
    if iEnd > 0 {
      AllCasesSound(sky, s, iEnd - 1, thresholdKm, samples);
      RowCasesSound(sky, s, iEnd - 1, RowEnd(iEnd - 1, |s|), thresholdKm, samples);
    }
  }

  /** Every case the search returns pairs sample[a] with sample[b], a < b ≤ a + 50,
      within the searched sample, is closer than the threshold, and lies on the
      2-hour grid below `days_ahead · 24` hours. */
  lemma ReturnedCasesSound(catalog: seq<Entry>, sky: Sky, thresholdKm: real, daysAhead: int, maxSatellites: int)
    ensures var s := SampleNames(catalog, maxSatellites);
      var samples := SampleCount(daysAhead);
      forall c :: c in FirstCases(AllCases(sky, s, |s|, thresholdKm, samples)) ==>
        && CaseOf(sky, s, thresholdKm, samples, c)
        && c.hoursFromNow < daysAhead * 24
  {
    var s := SampleNames(catalog, maxSatellites);
    var samples := SampleCount(daysAhead);
    var all := AllCases(sky, s, |s|, thresholdKm, samples);
    AllCasesSound(sky, s, |s|, thresholdKm, samples);
    assert forall c :: c in FirstCases(all) ==> c in all;
  }

  // ---------------------------------------------------------------------------
  // No close approach is missed
  // ---------------------------------------------------------------------------

  lemma {:induction false} PairCasesComplete(sky: Sky, s: seq<string>, i: nat, j: nat, thresholdKm: real, m: nat, h: nat)
    requires i < |s| && j < |s| && h < m
    requires Distance(sky, s[i], s[j], StepHours * h) < thresholdKm
    ensures CaseAt(sky, s, i, j, StepHours * h) in PairCases(sky, s, i, j, thresholdKm, m)
  {
    var c := CaseAt(sky, s, i, j, StepHours * h);
    var earlier := PairCases(sky, s, i, j, thresholdKm, m - 1);
    var last := Found(sky, s, i, j, thresholdKm, StepHours * (m - 1));
    assert PairCases(sky, s, i, j, thresholdKm, m) == earlier + last;
    if h < m - 1 {
      PairCasesComplete(sky, s, i, j, thresholdKm, m - 1, h);
      assert c in earlier;
    } else {
      assert last == [c];
    }
  }

  lemma {:induction false} RowCasesComplete(sky: Sky, s: seq<string>, i: nat, jEnd: nat, thresholdKm: real,
                                             samples: nat, j: nat, h: nat)
    requires i < j < jEnd <= |s| && h < samples
    requires Distance(sky, s[i], s[j], StepHours * h) < thresholdKm
    ensures CaseAt(sky, s, i, j, StepHours * h) in RowCases(sky, s, i, jEnd, thresholdKm, samples)
  {
    var c := CaseAt(sky, s, i, j, StepHours * h);
    var earlier := RowCases(sky, s, i, jEnd - 1, thresholdKm, samples);
    var last := PairCases(sky, s, i, jEnd - 1, thresholdKm, samples);
    assert RowCases(sky, s, i, jEnd, thresholdKm, samples) == earlier + last;
    if j == jEnd - 1 {
      PairCasesComplete(sky, s, i, j, thresholdKm, samples, h);
      assert c in last;
    } else {
      RowCasesComplete(sky, s, i, jEnd - 1, thresholdKm, samples, j, h);
      assert c in earlier;
    }
  }

  /** A case of any row below `iEnd` is a case of the search up to `iEnd`. */
  lemma {:induction false} AllCasesHasRow(sky: Sky, s: seq<string>, iEnd: nat, thresholdKm: real, samples: nat,
                                          a: nat, c: CollisionCase)
    requires a < iEnd <= |s|
    requires c in RowCases(sky, s, a, RowEnd(a, |s|), thresholdKm, samples)
    ensures c in AllCases(sky, s, iEnd, thresholdKm, samples)
  {
    var earlier := AllCases(sky, s, iEnd - 1, thresholdKm, samples);
    var last := RowCases(sky, s, iEnd - 1, RowEnd(iEnd - 1, |s|), thresholdKm, samples);
    if a < iEnd - 1 {
      AllCasesHasRow(sky, s, iEnd - 1, thresholdKm, samples, a, c);
    }
    assert c in earlier + last;
  }

  /** The uncut search is exhaustive: every pair within a window that comes
      closer than the threshold at a sample is a case. */
  lemma AllCasesComplete(sky: Sky, s: seq<string>, iEnd: nat, thresholdKm: real,
                             samples: nat, a: nat, b: nat, h: nat)
    requires a < iEnd <= |s| && a < b < RowEnd(a, |s|) && h < samples
    requires Distance(sky, s[a], s[b], StepHours * h) < thresholdKm
    ensures CaseAt(sky, s, a, b, StepHours * h) in AllCases(sky, s, iEnd, thresholdKm, samples)
  {
    RowCasesComplete(sky, s, a, RowEnd(a, |s|), thresholdKm, samples, b, h);
    AllCasesHasRow(sky, s, iEnd, thresholdKm, samples, a, CaseAt(sky, s, a, b, StepHours * h));
  }

  /** Every close approach of two searched names within a window, at a sample
      of the horizon, is found; it is returned unless the search stopped at
      five cases. */
  lemma ReturnedCasesComplete(catalog: seq<Entry>, sky: Sky, thresholdKm: real, daysAhead: int, maxSatellites: int,
                              a: nat, b: nat, h: nat)
    requires a < b < RowEnd(a, |SampleNames(catalog, maxSatellites)|) && h < SampleCount(daysAhead)
    requires Distance(sky, SampleNames(catalog, maxSatellites)[a], SampleNames(catalog, maxSatellites)[b],
                      StepHours * h) < thresholdKm
    ensures var s := SampleNames(catalog, maxSatellites);
      var cases := FirstCases(AllCases(sky, s, |s|, thresholdKm, SampleCount(daysAhead)));
      CaseAt(sky, s, a, b, StepHours * h) in cases || |cases| == MaxCases
  {
    var s := SampleNames(catalog, maxSatellites);
    AllCasesComplete(sky, s, |s|, thresholdKm, SampleCount(daysAhead), a, b, h);
  }
}
