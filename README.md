# Drug ageing in a pharmacy — a Dafny model

The pharmacy sells drugs. Each drug has a `benefit`, kept between 0 and 50, and an
`expiresIn` countdown in days. Every simulated day the countdown drops by one and
the benefit moves according to the drug's kind:

- a standard drug (Doliprane) loses benefit, twice as fast once expired;
- Herbal Tea gains benefit, twice as fast once expired;
- Fervex gains faster as expiry approaches and drops to 0 once expired;
- Magic Pill never changes.

The repository holds two versions of this logic, and the model covers both:

- `drug_rules.dfy`, module `Rules`: the per-kind update rules of `drug_rules.js`.
  Each rule is a pure function from (benefit, countdown) to a benefit change. The
  `Rule` datatype is the closed set of rules a drug can be bound to.
- `drug.dfy`, module `Drugs`: the validated `Drug` of `drug.js`, its read-only
  accessors and the four-entry catalog. `New` returns `Ok(drug)` or one of three
  distinct errors. It also defines the day step `Aged` that the drug tests drive.
  That step moves the countdown down by one (a Magic Pill's never moves), then
  adds the drug's rule evaluated on the new countdown.
- `drug_scenarios.dfy`, module `DrugScenarios`: the construction cases and the seven
  day-by-day sequences of `drug.test.js`, replayed as lemmas.
- `pharmacy.dfy`, module `LegacyPharmacy`: the older `pharmacy.js`. It has mutable
  drug records and `Pharmacy.UpdateBenefitValue`, an in-place loop that branches on
  each record's name. The method is proved against the specification function
  `LegacyDay`. Lemmas compare `LegacyDay` with the rule-based step.

Modelling choices:

- The countdown is `Expiry = Days(n) | Never`. `Never` stands for JavaScript's
  `Infinity`: it is below no bound, and one day later it is still `Never`.
- `drug_rules.js` uses `maxBenefit` but neither declares nor imports it. The model
  binds it to the 50 that `drug.js:8` declares (`Rules.MaxBenefit`). The legacy
  pharmacy writes the literal 50, and so does its model.
- `drug.js` has no `update()`, yet `drug.test.js:68` calls one. The
  expected sequences need the countdown decremented first and the rule evaluated on
  the new countdown: Herbal Tea goes (0, 46) → (-1, 48). `Drugs.Aged` does this
  (see `DrugScenarios.RuleSeesNewCountdown`). The legacy pharmacy orders it the
  other way for fervex: `pharmacy.js:67` and `:72` read the countdown before the
  decrement at `:81-83` (see `LegacyPharmacy.LegacyFervexLagsAtThresholds`).
- `Drugs.Aged` leaves the countdown alone for a drug bound to the Magic Pill rule.
  For any other drug, `Never` stays `Never`.
- A missing (`null`) name is `None`. An empty name is `Some("")`.

## Model

| member | source | states |
|---|---|---|
| `Rules.Expiry.Decrement` | pharmacy.js:80-83 | one day later a finite countdown is one less; an unbounded countdown stays unbounded |
| `Rules.StandardDelta` | drug_rules.js:15-30 | for benefit ≥ 0 the new benefit is max(0, benefit − rate), with rate 2 once expired and 1 before; it returns 0 at benefit 0 and −2 exactly when expired with benefit > 1 |
| `Rules.HerbalTeaDelta` | drug_rules.js:31-46 | for benefit ≤ 50 the new benefit is min(50, benefit + rate); it returns 0 at 50, 2 exactly when expired below 49, and is never negative |
| `Rules.FervexDelta` | drug_rules.js:47-71 | new benefit is exactly 0 once expired; below 50 it is min(50, benefit + 3/2/1) for ≤5/≤10/more days left; with 0..5 days left it is min(50, benefit + 3) even at 50; at 50, not expired, with more than 5 days left it returns 1 |
| `Rules.FervexLeavesRangeExactlyAtCeiling` | drug_rules.js:66-70 | from a benefit in 0..50, the rule as written leaves 0..50 if and only if the benefit is 50, the drug is not expired and more than 5 days are left |
| `Rules.FervexOvershoots` | drug_rules.js:66-70 | at benefit 50 with 7 days left, or with an unbounded countdown, the rule as written yields 51 |
| `Rules.FervexDeltaClamped` | drug_rules.js:47-71 | corrected fervex rule: exactly 0 once expired; otherwise min(50, benefit + 3/2/1) for every benefit ≤ 50 |
| `Rules.FervexClampedAgreesBelowCeiling` | drug_rules.js:47-71 | the corrected fervex rule equals the rule as written if and only if benefit < 50, or the drug is expired, or at most 5 days are left |
| `Rules.MagicPillDelta` | drug_rules.js:72 | the magic-pill rule leaves every benefit unchanged |
| `Rules.Rule.Delta` | drug_rules.js:14-73 | every rule keeps a benefit in 0..50 within 0..50; standard never raises it, herbal tea never lowers it, fervex zeroes it once expired, magic pill leaves it unchanged |
| `Rules.Rule.DeltaAsWritten` | drug_rules.js:14-73 | with fervex bound to the rule as written, the change equals `Delta` for every other rule, and for fervex exactly when the benefit is below 50, the drug is expired or at most 5 days are left |
| `Drugs.New` | drug.js:62-87 | succeeds exactly when the name is present and non-empty and 0 ≤ benefit ≤ 50; the countdown is not checked; the accessors then return exactly the given name, countdown and benefit; name is checked first, then the lower bound, then the upper bound, and each failure has its own error carrying the value (and the maximum) |
| `Drugs.CatalogEntriesBuild` | drug.js:22-39 | the catalog has four entries whose rules are exactly the four rules; each name is non-empty, so an entry builds a drug exactly when the benefit is in range |
| `Drugs.Aged` | drug.test.js:61-73 | one day keeps name and rule, keeps a valid drug valid, moves a finite countdown down by one unless the drug is a magic pill, and leaves a magic pill's or an unbounded countdown alone; the new benefit is the old one plus the rule's change evaluated on the NEW countdown |
| `Drugs.AgedAsWritten` | drug_rules.js:66-70 | the same day with fervex bound to its rule as written: same name, rule and countdown as `Aged`, and the same drug exactly unless it is a fervex drug at 50 whose new countdown is over 5 days |
| `Drugs.AgedBy` | drug.test.js:67-72 | any number of days keeps name and rule, and keeps a valid drug valid |
| `Drugs.CountdownDropsDaily` | drug.test.js:150-165 | after n days a drug that is not a magic pill has a countdown exactly n lower |
| `Drugs.MagicPillNeverChanges` | drug.test.js:127-139 | a magic pill is unchanged after any number of days |
| `Drugs.MonotoneVariants` | drug_rules.js:15-46 | over any number of days a valid standard drug's benefit never rises and a valid herbal tea's never falls |
| `Drugs.FervexZeroAfterExpiry` | drug_rules.js:51-54 | a fervex drug's benefit is 0 after every day that leaves its countdown negative, whatever it was before |
| `Drugs.History` | drug.test.js:61-73 | a history over n days has n + 1 snapshots starting with the current state |
| `Drugs.HistoryStaysInRange` | drug.test.js:61-73 | for a valid drug every snapshot's benefit in a history is within 0..50 |
| `Drugs.HistoryAsWritten` | drug.test.js:61-73 | a history under the fervex rule as written has n + 1 snapshots starting with the current state |
| `Drugs.FervexAsWrittenAgreesWithHeadroom` | drug_rules.js:47-71 | a valid fervex drug whose benefit cannot reach 50 while more than 5 days would remain (it gains at most 2 a day before then) has the same history under the rule as written and the corrected rule, for any number of days |
| `Drugs.HistoryRecordsEachDay` | drug.test.js:67-72 | snapshot i of a history is the drug's state after i days |
| `DrugScenarios.ConstructionRejects` | drug.test.js:5-32 | an empty or missing name, benefit −1 and benefit 51 are each refused with their own error |
| `DrugScenarios.ConstructionAccepts` | drug.test.js:34-58 | benefits 15, 0 and 50 and an unbounded countdown are accepted and stored as given |
| `DrugScenarios.StandardDecaysPastExpiry` | drug.test.js:76-86 | (1, 5) ages to (0, 4), (−1, 2), (−2, 0), (−3, 0) |
| `DrugScenarios.StandardReachesZeroEarly` | drug.test.js:88-98 | (2, 1) ages to (1, 0), (0, 0), (−1, 0) |
| `DrugScenarios.HerbalTeaGrowsPastExpiry` | drug.test.js:102-112 | (2, 44) ages to (1, 45), (0, 46), (−1, 48), (−2, 50), (−3, 50) |
| `DrugScenarios.HerbalTeaReachesMaxEarly` | drug.test.js:114-124 | (2, 49) ages to (1, 50), (0, 50), (−1, 50) |
| `DrugScenarios.MagicPillStaysPut` | drug.test.js:128-138 | (unbounded, 30) stays (unbounded, 30) |
| `DrugScenarios.FervexSurgesFromFiveDays` | drug.test.js:158-164 | (5, 34) ages to (4, 37), (3, 40), (2, 43), (1, 46), (0, 49), (−1, 0) |
| `DrugScenarios.FervexSurgesThenDrops` | drug.test.js:142-167 | (12, 20) ages through the thirteen expected states to (0, 49) and then (−1, 0) |
| `DrugScenarios.FervexCapsFromFiveDays` | drug.test.js:185-191 | (5, 44) ages to (4, 47), (3, 50), (2, 50), (1, 50), (0, 50), (−1, 0) |
| `DrugScenarios.FervexCapsThenDrops` | drug.test.js:169-194 | (12, 30) ages through the expected states, holds 50 from 3 days left, then drops to (−1, 0) |
| `DrugScenarios.FervexTestsHoldAsWritten` | drug.test.js:141-194 | both tested fervex sequences are the same under the rule as written as under the corrected rule |
| `DrugScenarios.FervexTestDrugOvershoots` | drug.test.js:47-51 | the fervex drug built with benefit 50 and 30 days left is accepted, and after one day has benefit 51 under the rule as written and 50 under the corrected rule |
| `DrugScenarios.RuleSeesNewCountdown` | drug.test.js:101-112 | herbal tea at (0, 46) becomes (−1, 48): the rule sees the decremented countdown, where the old one would have given +1 |
| `LegacyPharmacy.Drug.constructor` | pharmacy.js:15-19 | a record holds exactly the given name, countdown and benefit |
| `LegacyPharmacy.Pharmacy.constructor` | pharmacy.js:35-37 | the pharmacy holds exactly the given list of records |
| `LegacyPharmacy.LegacyDay` | pharmacy.js:48-103 | one legacy day for a record: Herbal Tea never loses benefit; any name other than Herbal Tea and Fervex never gains it and does not go below 0 from 0 or above; Fervex is 0 whenever the countdown was below 1 (so the new one is negative) and otherwise never loses benefit |
| `LegacyPharmacy.Pharmacy.UpdateBenefitValue` | pharmacy.js:44-107 | returns the same list; every record keeps its name and its countdown and benefit become `LegacyDay` of its own name, countdown and benefit; nothing else changes |
| `LegacyPharmacy.LegacyDayKeepsRange` | pharmacy.js:53-103 | a legacy day keeps a benefit in 0..50 within 0..50, leaves a magic pill unchanged (even when expired), and moves every other countdown down by one |
| `LegacyPharmacy.LegacyAgreesWithRules` | pharmacy.js:48-103 | for any name other than Herbal Tea, Fervex and Magic Pill, and for those two, the legacy day equals the rule-based day (standard, herbal tea, magic pill rules) on every benefit in 0..50 |
| `LegacyPharmacy.LegacyDays` | index.js:20-23 | after any number of daily passes a benefit in 0..50 stays in 0..50, a magic pill is unchanged, and every other countdown has dropped by exactly the number of passes |
| `LegacyPharmacy.LegacyAgreesWithRulesOverDays` | pharmacy.js:48-103 | for a record with any name other than Herbal Tea, Fervex and Magic Pill (standard rule), and for Herbal Tea and Magic Pill, whose benefit is in 0..50, any number of legacy passes gives the same countdown and benefit as the same number of rule-based days |
| `LegacyPharmacy.LegacyFervexLagsAtThresholds` | pharmacy.js:66-77 | for fervex the legacy day equals the rule-based day with the corrected fervex rule unless exactly 6 or 11 days are left, where the rule-based day gives one unit more, capped at 50 |
| `LegacyPharmacy.LegacyFervexMissesTestSequence` | pharmacy.js:66-96 | from (12, 20) the legacy days give (11, 21), (10, 22), while the tested rule-based days reach (10, 23) |
| `LegacyPharmacy.DolipraneScenario` | pharmacy.test.js:5-10 | a pharmacy holding one Doliprane at (2, 3) returns one record at (1, 2) |

## Findings

| source | as written | input that shows it | evidently intended | confidence | as-written member | corrected member |
|---|---|---|---|---|---|---|
| drug_rules.js:66-70 | the last fervex branch returns 1 whatever the benefit | benefit 50 with 7 days left after the decrement (or an unbounded countdown): the benefit becomes 51 | the branch clamps at the maximum like every other branch (return min(1, 50 − benefit)), so the benefit never exceeds 50 | high; not executed | `Rules.FervexOvershoots` | `Rules.FervexDeltaClamped` |

`Rules.Rule.Delta`, and so `Drugs.Aged`, use the corrected fervex rule;
`Drugs.AgedAsWritten` uses the rule as written. From the drug accepted at
`drug.test.js:47` (benefit 50, 30 days left) the rule as written reaches 51 after
one day (`DrugScenarios.FervexTestDrugOvershoots`). The tested fervex sequences come
out the same under either rule (`DrugScenarios.FervexTestsHoldAsWritten`).

## Left out

- The Dafalgan rule is not modelled. `drug.test.js:197-221` and `index.js:11` use it, but no rule or catalog entry for it exists.
- `index.js` is not modelled. It builds a list, calls the daily pass 30 times and writes the JSON snapshots to a file. This is I/O. The `build` helper it and `pharmacy.test.js` import is not part of this model either. `LegacyPharmacy.DolipraneScenario` reads `build.Doliprane(2, 3)` as countdown 2 and benefit 3. Both files also import `Pharmacy` as a default export (`pharmacy.test.js:1`, `index.js:1`), while `pharmacy.js:29` exports the class only by name; the model ignores how the class is exported.
- Error messages are not modelled. The three failures are distinct `DrugError` values that carry the offending benefit and the maximum. The empty-name message in `drug.js:68` ("drug name cannot be empty") differs from the one `drug.test.js:9` and `:19` expect ("illegal drug name: cannot be empty").
- JavaScript numbers are not modelled. Benefits and countdowns are integers. `Infinity` is `Never`. Fractions, `NaN` and a missing benefit are not represented.
- The `rule` passed to the `Drug` constructor is not checked by the source. The model's `Rule` is a closed datatype, so a value outside the catalog cannot be expressed.
- The tests read `.name`, `.benefit` and `.expiresIn` directly (`drug.test.js:37-57`, `:64-71`). `drug.js:83-86` keeps those values in private fields that only `getName`, `getExpiry` and `getBenefit` reach, so those reads give `undefined` as written. The model reads the values through the accessors.
- Private fields and arrow-function getters are not modelled as such. A `Drugs.Drug` is an immutable value, and its accessors are plain functions.
- Drugs.Aged: the missing `update()` would change the drug in place. The model returns the aged drug as a new value.
- Rules.Rule.Delta: binds Fervex to the corrected rule (see Findings), not to the rule as written.
- LegacyPharmacy.Pharmacy.UpdateBenefitValue: requires the list to hold distinct record objects. A record that sits in two slots would be aged once per slot; the model does not capture that aliasing.
- The `drugs = []` default of the `Pharmacy` constructor is not modelled; a caller passes the empty list explicitly.
- A reference to `maxBenefit` from `drug_rules.js` would fail at run time, since the module never binds it. The model gives it the value 50 instead of modelling that failure. The same holds for the `maxBenefit` import in `drug.test.js:2`.
