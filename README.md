# Satellite conjunction screening and maneuver planning — a Dafny model

This project models the analysis core of `PYfinal.py`. That program loads a
catalog of Earth-orbiting objects, screens one object against others for close
approaches, and estimates how long before an encounter an evasive maneuver must
start. The lead-time formula is `t = (R_req + n·σ0) / (v_rel − n·k)`. It then
reduces the results to risk levels, recommendations and an executive summary,
and drives an inter-satellite-link (ISL) decision engine from them. The model
has one Dafny module per part of the program:

| module | file | models |
|---|---|---|
| `Common` | `common.dfy` | `Option`/`Result`, slicing, `min`/`max`/`sum` over reals |
| `Catalog` | `catalog.dfy` | the catalog (names in load order, categories) and the ephemeris |
| `Screening` | `screening.dfy` | `analyze_collision_risk`: the checked set, the 6-hour screening loop, risk classification |
| `CaseSearch` | `case_search.dfy` | `find_collision_cases` and `_estimate_relative_velocity` |
| `Maneuver` | `maneuver.dfy` | `calculate_maneuver_time`, `_get_leo_context`, `_get_operational_recommendations` |
| `Aggregation` | `aggregation.dfy` | `comprehensive_collision_analysis`, `_generate_general_recommendations`, `_generate_executive_summary` |
| `IslControl` | `isl_control.dfy` | `ISLControlSystem`: routing, the decision table, the ISL message, the constellation response |
| `NameSearch` | `name_search.dfy` | `search_satellite`, `get_popular_satellites`, `suggest_satellites`, `smart_search` |

The model is written in the same form as the source:

- **Loops become methods.** These are the source's loops that append to lists: the screening loop, the pair search with its early return, the per-encounter scenario runs, the peer responses and the name searches. Each method is proved equal to a recursive specification function, and the properties are proved as lemmas about that function.
- **Branch-and-arithmetic code becomes functions.** This covers the lead-time estimator, the buckets, the decision table and the summaries.

Other modelling choices:

- **Positions and distance.** The object positions (`satellite.at(t)`) and the Euclidean norm are parameters: the `Sky` value.
- **Time.** A datetime is represented by its offset in hours from "now".
- **Random draws.** The draws of `np.random.uniform` become an input sequence.
- **Infinite lead time.** The `float('inf')` lead time becomes `None`.
- **Status strings.** The Spanish status strings become enumerations:
  - `BAJO`/`MEDIO`/`ALTO`/`CRÍTICO` become `LowRisk`/`MediumRisk`/`HighRisk`/`CriticalRisk`.
  - `🔴 CRÍTICO` … `🔵 MÍNIMO` become `Critical` … `Minimal`.
  - `CRÍTICO_INMEDIATO`/`CRÍTICO_CORTO_PLAZO`/`MODERADO`/`BAJO` become `Immediate`/`ShortTerm`/`Moderate`/`NoUrgency`.
  - Each canned recommendation text is its own constructor.

## Model

| member | source | states |
|---|---|---|
| `Screening.WithoutMembers` | PYfinal.py:584-587 | dropping the target keeps exactly the other names |
| `Screening.WithoutDistinct` | PYfinal.py:584-587 | dropping the target keeps names distinct |
| `Screening.ChecksForMembers` | PYfinal.py:577-587 | a non-empty second name gives the checked set `[name]` if catalogued, else empty; otherwise the set is the first 100 catalog names minus the target; no name is checked twice |
| `Screening.SatellitesToCheck` | PYfinal.py:577-587 | the building loop yields exactly that checked set |
| `Screening.SampleHitsSound` | PYfinal.py:596-612 | every encounter recorded at an hour is a checked object closer than the threshold, with that hour's distance and positions |
| `Screening.SampleHitsComplete` | PYfinal.py:596-612 | every checked object closer than the threshold at that hour is recorded |
| `Screening.ScreenSound` | PYfinal.py:591-612 | every encounter is at a multiple of 6 hours below `days_ahead·24` and is a recorded close approach |
| `Screening.ScreenComplete` | PYfinal.py:591-612 | for every sample and checked object closer than the threshold, its encounter is in the list |
| `Screening.ScreenChronological` | PYfinal.py:591-612 | encounters are listed in non-decreasing time |
| `Screening.ScreenTarget` | PYfinal.py:591-612 | the nested hour/candidate loops append exactly the screened sequence |
| `Screening.Classify` | PYfinal.py:614-623 | `LowRisk` iff no encounter; `CriticalRisk` iff some distance < 1; `HighRisk` iff some < 5 and none < 1; `MediumRisk` iff encounters exist and all are ≥ 5 |
| `Screening.ClassifyOrderIndependent` | PYfinal.py:617 | the level depends only on which distances occur |
| `Screening.AnalyzeCollisionRisk` | PYfinal.py:571-633 | not-found error iff the target is missing; otherwise the echoed inputs, the screened encounters, their level, `total_encounters` = count, and `satellites_analyzed` = size of the checked set; every encounter is closer than the threshold, with a checked `satellite2` |
| `Screening.NoCloseApproachIsLowRisk` | PYfinal.py:605-623 | if no checked object ever comes within the threshold, there are no encounters and the level is `LowRisk` |
| `Screening.SampleHitsEmpty` | PYfinal.py:605 | no approach at an hour records nothing at that hour |
| `Maneuver.CriticalityOf` | PYfinal.py:687-702 | `Critical` < 1 h, `High` < 6 h, `Medium` < 24 h, `Low` < 7 days, else `Minimal`, each as an iff |
| `Maneuver.CriticalityMonotone` | PYfinal.py:687-702 | a longer lead time is never more critical |
| `Maneuver.LeoContextOf` | PYfinal.py:779-799 | geometry co-orbital < 500, lateral < 2000, perpendicular < 8000, head-on otherwise; km/h = 3.6·m/s |
| `Maneuver.OperationalRecommendations` | PYfinal.py:801-840 | four lead-time texts, then a fifth only above 10000 m/s (early maneuver) or below 500 m/s (long maneuver) |
| `Maneuver.RecommendationsFollowCriticality` | PYfinal.py:805-832 | the first recommendation agrees with the criticality bucket of the same lead time |
| `Maneuver.CalculateManeuverTime` | PYfinal.py:655-774 | the errors are checked in order: `v_rel ≤ 0`, then `R_req ≤ 0`, then `σ0 < 0`, then infeasible iff `v_rel − n·k ≤ 0`, with `n_k` and deficit `|v_rel − n·k|`. On success: `segundos·(v_rel − n·k) = R_req + n·σ0`, positive iff the numerator is; minutes, hours and days are /60, /3600 and /86400; criticality from the hours; margin `v_rel − 2·n·k` |
| `Maneuver.LeadTimeQuotient` | PYfinal.py:665-685 | on success the lead time is the quotient, and hours = seconds / 3600 |
| `Maneuver.ShortLeadTime` | PYfinal.py:665-691 | a denominator ≥ 1000 m/s and a numerator ≤ 1600 m give success with 0 < t < 2 s, so under 1 h |
| `Maneuver.LeadTimeOrder` | PYfinal.py:665-680 | at the same `v_rel`, a smaller margin numerator and a smaller `n·k` never give a longer lead time |
| `Maneuver.SensitivityOfBrackets` | PYfinal.py:727-743 | the ±50 % σ0 times bracket the nominal time; the +10 % `v_rel` time exists and is no longer; the −10 % time, when it exists, is no shorter |
| `Maneuver.SensitivityBrackets` | PYfinal.py:727-743 | the same brackets on the returned estimate |
| `Maneuver.AlternativeNoLonger` | PYfinal.py:707-725 | an alternative with fewer sigmas exists, has a positive lead time, and is no longer than the nominal one |
| `Maneuver.AlternativesNoLonger` | PYfinal.py:704-725 | with `n ≥ 2`: one alternative when `n = 2`, else two; the last is the 1σ one; all are positive and no longer than the nominal time |
| `Maneuver.WorkedExample` | PYfinal.py:1492-1498 | (8200, 1000, 120, 0.001, 3) gives 1360/8199.997 ≈ 0.166 s and `Critical` |
| `CaseSearch.EstimateRelativeVelocity` | PYfinal.py:1389-1401 | 14040 below 5 km, 9360 below 20 km, 3900 otherwise |
| `CaseSearch.EstimateMonotone` | PYfinal.py:1396-1401 | a closer encounter never gets a lower estimate; every estimate is positive |
| `CaseSearch.FirstCases` | PYfinal.py:1375-1378 | at most five cases: the first five of the uncut list, or all of it |
| `CaseSearch.PairKeyInjective` | PYfinal.py:1336 | with distinct names, equal sorted-pair keys mean the same pair |
| `CaseSearch.Remember` | PYfinal.py:1336-1339 | a pair not yet visited is never already in `analyzed_pairs`, and after adding it every visited pair is remembered |
| `CaseSearch.SamplePair` | PYfinal.py:1345-1369 | one sample gives a case iff the distance is below the threshold |
| `CaseSearch.ScanPair` | PYfinal.py:1345-1378 | the hour loop of one pair returns the cut of the earlier cases plus the pair's cases |
| `CaseSearch.PairStop` | PYfinal.py:1376-1378 | once five cases exist mid-pair, later samples do not change the result |
| `CaseSearch.RowStop` | PYfinal.py:1376-1378 | once five cases exist mid-row, later partners do not change the result |
| `CaseSearch.SearchStep` | PYfinal.py:1323-1378 | after each row, either five cases were reached and are final, or the cases are those of all rows so far |
| `CaseSearch.VisitPair` | PYfinal.py:1332-1378 | one partner: skipped if already analysed; otherwise remembered and scanned; the row prefix or the final cut |
| `CaseSearch.ScanRow` | PYfinal.py:1332-1378 | the partner loop returns the cut of the earlier cases plus the row's cases |
| `CaseSearch.FindCollisionCases` | PYfinal.py:1295-1387 | the result is the first five cases of the exhaustive search over the first `min(max_satellites, n)` names, so at most five |
| `CaseSearch.PairCasesSound` | PYfinal.py:1345-1369 | each case of a pair is a close approach on the 2-hour grid |
| `CaseSearch.RowCasesSound` | PYfinal.py:1332-1369 | each case of a row pairs `i` with a `j` in its window |
| `CaseSearch.AllCasesSound` | PYfinal.py:1323-1369 | each case of the uncut search satisfies the case invariant |
| `CaseSearch.ReturnedCasesSound` | PYfinal.py:1315-1369 | every returned case pairs `sample[a]` with `sample[b]`, `a < b ≤ a + 50`; its hour is a multiple of 2 below `days_ahead·24`; its distance is the one at that hour and below the threshold; its velocity is the estimate |
| `CaseSearch.PairCasesComplete` | PYfinal.py:1345-1369 | every sample of a pair closer than the threshold gives its case |
| `CaseSearch.RowCasesComplete` | PYfinal.py:1332-1369 | every close sample of every partner in a row's window gives its case |
| `CaseSearch.AllCasesComplete` | PYfinal.py:1323-1369 | the uncut search is exhaustive: every pair `a < b ≤ a + 50` closer than the threshold at a 2-hour sample is a case, with its distance, positions and velocity estimate |
| `CaseSearch.ReturnedCasesComplete` | PYfinal.py:1295-1378 | every such close approach among the searched names is returned, unless the search stopped at five cases |
| `IslControl.UrgencyOf` | PYfinal.py:1602-1610 | `Immediate` < 1 h, `ShortTerm` < 6 h, `Moderate` < 24 h, `NoUrgency` otherwise (including +∞), each as an iff |
| `IslControl.CommandOf` | PYfinal.py:1612-1649 | the total command table: propellant above 15 % / 5 % in the critical tiers, above 25 % in the moderate tier, `RouteNormal` iff no urgency |
| `IslControl.BandwidthOf` | PYfinal.py:1612-1649 | bandwidth lies in (0, 1], and is 1 exactly for normal routing |
| `IslControl.GenerateIslProtocol` | PYfinal.py:1673-1718 | source and destination copied; `HIGH` iff the urgency is critical; imminent / propulsion-failure / normal payloads for their commands; conditional otherwise, with probability `min(1, 1.5 − propellant)` |
| `IslControl.MakeIslDecision` | PYfinal.py:1595-1671 | the urgency of the lead time, the table's command, and that command's priority, bandwidth, action and message; inputs echoed |
| `IslControl.BandwidthInTable` | PYfinal.py:1612-1649 | the bandwidth is one of 0.2, 0.1, 0.05, 0.8, 0.6, 1.0 |
| `IslControl.BandwidthMonotoneInLeadTime` | PYfinal.py:1602-1649 | more lead time never lowers the bandwidth |
| `IslControl.BandwidthMonotoneInPropellant` | PYfinal.py:1612-1649 | more propellant never lowers the bandwidth |
| `IslControl.RoutingVelocity` | PYfinal.py:1567-1573 | 12000 below 5 km, 8000 below 20 km, 3000 otherwise |
| `IslControl.RoutedLeadTime` | PYfinal.py:1568-1585 | with `R_req = 500`, `σ0 = 100`, `k = 0.001`, `n = 3`, every routing velocity gives a lead time strictly between 0 and 1 hour |
| `IslControl.DetermineThrustAwareRouting` | PYfinal.py:1539-1593 | the command follows the urgency and propellant through the table, and priority, bandwidth, action and ISL message follow from the command; unless the risk is high/critical with encounters, the lead time stays +∞, so normal routing at bandwidth 1; otherwise the estimate is `calculate_maneuver_time` at the routing velocity of the nearest encounter with (500, 100, 0.001, 3), it succeeds, its hours are the lead time, under 1 h, so `Immediate` |
| `IslControl.LowPropellantScenario` | PYfinal.py:1804-1812 | high risk at 8.3 km with 3 % propellant: `THRUST_IMPOSSIBLE`, emergency reroute, bandwidth 0.05, propulsion-failure alert, high priority |
| `IslControl.MediumRiskRoutesNormally` | PYfinal.py:1556-1563 | a medium risk never triggers a maneuver: normal routing, full bandwidth, status-normal message |
| `IslControl.SmallPeerId` | PYfinal.py:1735 | peers 1..9 are named `IENAI_SAT_01` … `IENAI_SAT_09` |
| `IslControl.SmallPeerIdsDistinct` | PYfinal.py:1735 | those nine names differ |
| `IslControl.Respond` | PYfinal.py:1738-1748 | can assist iff capacity > 0.3; high priority iff capacity > 0.7 |
| `IslControl.Responders` | PYfinal.py:1734-1750 | the peer loop gives no more responses than there are peers |
| `IslControl.AdaptationOf` | PYfinal.py:1756-1761 | failover ready iff total > 1.5; minimal latency iff total > 2.0 |
| `IslControl.CollectiveOf` | PYfinal.py:1763-1769 | emergency iff the urgency is critical; else full support iff total > 1.8 |
| `IslControl.SimulateConstellationResponse` | PYfinal.py:1720-1771 | the response loop yields exactly the responders; adaptation and collective decision follow from their total capacity |
| `IslControl.RespondersAreOtherPeers` | PYfinal.py:1734-1736 | every responder is a peer of the constellation other than the target |
| `IslControl.OtherPeersRespond` | PYfinal.py:1734-1750 | every peer other than the target responds |
| `IslControl.RespondersUseDraws` | PYfinal.py:1736-1748 | the i-th responder uses the i-th draw |
| `IslControl.AllRespond` | PYfinal.py:1734-1750 | when no peer is the target, all of them respond |
| `IslControl.AtMostOneSilent` | PYfinal.py:1734-1750 | with at most nine peers, at most one is skipped |
| `IslControl.DefaultConstellationSupports` | PYfinal.py:1720-1769 | for a non-critical decision, five peers drawing capacities in [0.6, 1] give at least four responders, all able to assist, with failover ready, minimal latency and full support |
| `Aggregation.EncounterVelocity` | PYfinal.py:1108-1121 | 14040 below 1 km, 9360 below 5 km, 1560 otherwise |
| `Aggregation.AnalyzeAllExtend` | PYfinal.py:1102-1176 | the entries grow by one per encounter |
| `Aggregation.ScenarioSucceeds` | PYfinal.py:1124-1166 | at every assumed velocity (≥ 1560 m/s), each fixed scenario's estimate is not an error |
| `Aggregation.AttemptTime` | PYfinal.py:1150-1166 | a kept scenario carries the estimator's lead time |
| `Aggregation.ScenarioLeadTime` | PYfinal.py:1113-1166 | each fixed scenario's lead time is under 2 s, so under 1 h |
| `Aggregation.AllScenariosSucceed` | PYfinal.py:1148-1166 | no scenario is skipped: the kept list is the three estimates in order |
| `Aggregation.ScenarioTime` | PYfinal.py:1150-1166 | the i-th scenario's kept time is the estimator's |
| `Aggregation.ConservativeNoShorter` | PYfinal.py:1124-1157 | the standard scenario's lead time is no longer than the conservative one's |
| `Aggregation.StandardNoShorter` | PYfinal.py:1124-1157 | the aggressive scenario's lead time is no longer than the standard one's |
| `Aggregation.ScenarioResultsShape` | PYfinal.py:1124-1166 | three entries, in scenario order, each under 1 h |
| `Aggregation.ScenarioResultsOrdered` | PYfinal.py:1124-1166 | lead times are non-increasing from conservative to aggressive |
| `Aggregation.ThreeScenarios` | PYfinal.py:1102-1176 | every analysed encounter has three entries, each under 1 h, in non-increasing order |
| `Aggregation.MinManeuverHoursIsMinOfAll` | PYfinal.py:1237-1241 | the min over per-encounter minima is absent iff no scenario was kept, and otherwise is the minimum over all kept hours |
| `Aggregation.AllHoursContains` | PYfinal.py:1271-1274 | every kept scenario's hours are among the collected times |
| `Aggregation.RiskAdvice` | PYfinal.py:1212-1232 | four texts for medium, high and critical risk; none for low |
| `Aggregation.GeneralRecommendations` | PYfinal.py:1204-1248 | the risk texts come first; the multiple-encounters text appears iff there are more than 3 encounters |
| `Aggregation.LeadTimeRemarks` | PYfinal.py:1237-1246 | the immediate-action remark iff the minimum lead time is < 1 h; the urgent-preparation remark iff it is in [1, 6) h |
| `Aggregation.Earliest` | PYfinal.py:1185-1187 | the chosen encounter is in the list and no later than any other |
| `Aggregation.EarliestOfChronological` | PYfinal.py:1185-1187 | in a chronological list, the earliest is the first |
| `Aggregation.StatsOf` | PYfinal.py:1269-1281 | absent iff no time; the min and max are among the times and bound them all, and min ≤ mean ≤ max |
| `Aggregation.ActionMatchesAdvice` | PYfinal.py:1283-1291 | immediate maneuver iff critical, urgent preparation iff high, increased monitoring iff medium, routine tracking iff the risk advice is empty |
| `Aggregation.Summarize` | PYfinal.py:1250-1293 | the echoed assessment fields; the maneuver-time block is the min/max/mean of all collected scenario hours, present iff some time exists: its maximum is a collected time bounding all others, the mean lies between minimum and maximum, and the minimum equals the recommendations' minimum; the action follows the risk |
| `Aggregation.RunScenarios` | PYfinal.py:1148-1166 | the scenario loop keeps exactly the non-error estimates |
| `Aggregation.EstimateEncounter` | PYfinal.py:1102-1176 | one encounter's entry |
| `Aggregation.EstimateFirstEncounters` | PYfinal.py:1097-1176 | the loop builds the entries of the first five encounters |
| `Aggregation.ComprehensiveCollisionAnalysis` | PYfinal.py:1072-1202 | the corrected report (see Findings): the screening error iff the target is missing; otherwise the screening result (target, period, threshold, size of the checked set, screened encounters, their level and count), the entries for its first five encounters, the first encounter with its remaining hours, the recommendations and the summary |
| `Aggregation.FirstEncounterAsWritten` | PYfinal.py:1183-1191 | as written: computing `horas_restantes` fails iff there is any encounter; with none, there is no first encounter |
| `Aggregation.ComprehensiveCollisionAnalysisAsWritten` | PYfinal.py:1072-1202 | as written: not-found passes through; for a catalogued target the report fails with the timezone error iff the screening found an encounter, so a returned report has no encounters, `LowRisk`, no estimates and no first encounter |
| `Aggregation.SelfScreeningFirst` | PYfinal.py:1183-1191 | a catalogued object named as its own second object, closer to itself than the threshold, gives an encounter at hour 0: the corrected first encounter is (0 h, that distance), the as-written one raises |
| `Aggregation.MixedTimezonesCounterexample` | PYfinal.py:1190 | the concrete input of the finding: one object, itself as second object, 10 km, 7 days, all positions at the origin |
| `Aggregation.ManeuverAnalysesShape` | PYfinal.py:1102-1176 | `min(5, count)` entries, copying each encounter's object and distance, with its velocity bucket and three scenarios |
| `Aggregation.CloseEncounterDemandsImmediateAction` | PYfinal.py:1099-1246 | whenever the screening found an encounter, the immediate-action remark is given and the minimum over all scenario times is under 1 h |
| `Aggregation.FirstEncounterIsFirstRecorded` | PYfinal.py:1183-1191 | in the corrected report, the first encounter is the first one recorded by the screening |
| `NameSearch.OccursIff` | PYfinal.py:237 | the substring scan succeeds iff the pattern sits at some position |
| `NameSearch.LexTotal` | PYfinal.py:240 | any two names are ordered one way or the other |
| `NameSearch.LexAntisymmetric` | PYfinal.py:240 | names ordered both ways are equal |
| `NameSearch.LexTransitive` | PYfinal.py:240 | the string order is transitive |
| `NameSearch.InsertSorted` | PYfinal.py:240 | inserting into an ascending list keeps it ascending and adds exactly that name |
| `NameSearch.SortNamesSorted` | PYfinal.py:240 | sorting gives an ascending permutation of its input |
| `NameSearch.AscendingUnique` | PYfinal.py:240 | two ascending permutations of the same names are equal |
| `NameSearch.SortNamesUnique` | PYfinal.py:240 | every ascending permutation of a list is its sorted form |
| `NameSearch.SortNamesDistinct` | PYfinal.py:300 | sorting distinct names keeps them distinct |
| `NameSearch.MatchingIff` | PYfinal.py:236-238 | a name is collected iff it is in the catalog and contains the term |
| `NameSearch.SearchResultsSound` | PYfinal.py:223-240 | results are ascending and are exactly the names containing the term, ignoring case |
| `NameSearch.SearchSatellite` | PYfinal.py:223-240 | the loop-and-sort returns those results |
| `NameSearch.FirstOccurrencesSound` | PYfinal.py:269 | de-duplication keeps each name once and loses none |
| `NameSearch.PicksMatch` | PYfinal.py:262-266 | every picked name is in the catalog and matches one of the category's terms |
| `NameSearch.CategoryPicksSound` | PYfinal.py:260-269 | a category lists at most five distinct names, each matching one of its terms |
| `NameSearch.PopularFromEntries` | PYfinal.py:260-269 | every category is a key, holding its own picks |
| `NameSearch.PopularFromKeys` | PYfinal.py:260-271 | only categories are keys |
| `NameSearch.PopularSound` | PYfinal.py:242-271 | each of the six categories holds at most five distinct catalog names |
| `NameSearch.PickCategory` | PYfinal.py:261-269 | one category's loop yields its picks |
| `NameSearch.PopularSatellites` | PYfinal.py:242-271 | the category loop yields the dictionary of picks |
| `NameSearch.PrefixedSound` | PYfinal.py:289-292 | the first pass collects exactly the names starting with the query, without repeats when names are distinct |
| `NameSearch.AddContainingSound` | PYfinal.py:294-298 | the second pass adds exactly the names containing the query, and never repeats a listed name |
| `NameSearch.SuggestionPoolSound` | PYfinal.py:286-298 | a name is pooled iff it starts with the query, or contains it when fewer than ten names start with it |
| `NameSearch.SuggestionsSound` | PYfinal.py:273-300 | at most 15, ascending, each containing the query; none for a query under 2 characters; all of a pool of ≤ 15; no repeats for distinct names |
| `NameSearch.SuggestSatellites` | PYfinal.py:273-300 | the two passes, sort and truncation return those suggestions |
| `NameSearch.ExactPartialSplit` | PYfinal.py:401-407 | exact = names equal to the query; partial = other names containing it; their sizes add up to all names containing it |
| `NameSearch.CategoryOfEntry` | PYfinal.py:411 | with distinct names, a name's looked-up category is its entry's |
| `NameSearch.ByCategoryGroups` | PYfinal.py:409-414 | a category is a key iff a partial match has it, and holds those matches in order |
| `NameSearch.InCategoryIff` | PYfinal.py:409-414 | a name is in a category's group iff it is listed and has that category |
| `NameSearch.SmartSearchSound` | PYfinal.py:378-422 | empty result for queries under 2 characters; otherwise exact/partial matches as above; total = all names containing the query; the category groups; suggestions only below 10 partial matches |
| `NameSearch.GroupByCategory` | PYfinal.py:409-414 | the grouping loop yields the category groups |
| `NameSearch.SmartSearch` | PYfinal.py:378-422 | the method returns the smart-search result |

## Findings

| source | as written | input that shows it | evidently intended | confidence | as-written member | corrected member |
|---|---|---|---|---|---|---|
| PYfinal.py:1190 | `primer_encuentro['datetime'] - datetime.now()` subtracts a naive `datetime.now()` (PYfinal.py:20) from the timezone-aware `t.utc_datetime()` stored at PYfinal.py:607. Python raises `TypeError`, and nothing in PYfinal.py:1072-1202 catches it, so the report fails whenever any encounter exists. | A catalogued object named as its own second object, threshold 10 km, 7 days: at hour 0 its distance to itself is 0, so one encounter is recorded and the report raises. | `horas_restantes` is the encounter's time from now in hours, and the report is returned (for example, by subtracting `datetime.now(timezone.utc)`). | high (not executed) | `Aggregation.ComprehensiveCollisionAnalysisAsWritten`, `Aggregation.FirstEncounterAsWritten`, `Aggregation.MixedTimezonesCounterexample` | `Aggregation.ComprehensiveCollisionAnalysis`, `Aggregation.FirstEncounterOf`, `Aggregation.SelfScreeningFirst` |

## Left out

- Downloading the catalog (`download_tle_data`), TLE parsing, `get_satellite_info`, `calculate_future_positions`, plotting, animation, file export, the demo printers and the command-line menu: network I/O, floating-point orbital mechanics and user interface. The catalog is an input sequence of (name, category) entries standing for the items of the loaded dictionary, so its names are distinct (`Catalog.WellFormed`). A name listed by two TLE groups keeps its first position and the last group's category (PYfinal.py:66, 93); the catalog is taken as already so merged, and `NameSearch.CategoryOf`'s first-entry lookup is the dictionary lookup only on such a catalog.
- web_api.py is not part of this model: it is HTTP routing around the analyzer.
- Skyfield propagation and `np.linalg.norm`: the positions and the norm are functions passed in (`Catalog.Sky`); no property of orbits is modelled.
- Timestamps (`datetime.now`, `utc_datetime`, `strftime`): an encounter's date is its hour offset from now, and the ISL decision's timestamp is dropped.
- `Aggregation.FirstEncounterOf`: models the evidently intended `horas_restantes`, the encounter's hour offset from now. As written, the source raises `TypeError` there for every encounter (see Findings), modelled by `Aggregation.FirstEncounterAsWritten`.
- `Aggregation.FirstEncounterIsFirstRecorded`: states the corrected behaviour; the source as written never reports a first encounter, because computing `horas_restantes` raises (see Findings).
- IEEE floating point: all arithmetic is on exact reals, so rounding, overflow and `inf`/`nan` are not modelled; the +∞ lead time is `None`.
- `try`/`except` around the estimator and the propagation: the modelled code raises no exception, so those paths are absent.
- `print` progress and diagnostic messages.
- Recommendation and action texts: each is a constructor rather than its string; the f-string texts carrying numbers keep the number (`MultipleEncounters(count)`).
- `Maneuver.Estimate` and `Aggregation.ScenarioManeuver` keep the criticality but not its recommendation text (`evaluacion.recomendacion`, PYfinal.py:687-702); the criticality determines that text.
- `IslControl.GenerateIslProtocol`: the probability is the number `min(1, 1.5 − propellant)`; the source formats it as text with two decimals.
- `IslControl.SimulateConstellationResponse`: the total capacity is the sum of the drawn capacities; the source sums them after a round trip through percentage text with one decimal, so its total can differ by that rounding. The constant fields (constellation id, encryption, compression, load distribution) are left out.
- `np.random.uniform`: the draws are an input sequence, and the draw ranges are an assumption of `IslControl.DefaultConstellationSupports`, not of the method.
- `NameSearch.Lower`: lower-cases the ASCII letters only, whereas `str.lower` uses the full Unicode tables; names with non-ASCII capitals can match differently.
- `smart_search` on `None`: the `not search_term` test is covered only for the empty string.
- `ISLControlSystem.network_nodes`/`current_routes` and `HackathonDemo`: the fields are never updated, and the demo only prints; its scenario inputs appear as lemmas.
