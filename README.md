# NeuroDose supplement-tracking engine in Dafny

This project models the engine of the NeuroDose supplement tracker and proves properties about it. The model covers three parts of the repository:

- **The web tracker.** This is the React component `neurodose/src/components/NeuroDose.js`. It has:
  - a four-compound catalog (caffeine, l-theanine, ginseng, magnesium);
  - a lumped absorption × half-life concentration curve per dose;
  - the superposed level of each compound;
  - an hourly chart sampler;
  - a notification tick that compares levels with the user's thresholds and with the daily maximum;
  - three metrics: the synergy count, the tolerance risk and the circadian alignment;
  - the Add Dose button.
- **The root tracker.** This is the older component `NeuroDose.js`. It has:
  - a three-compound catalog;
  - plain half-life decay per dose;
  - the same hourly sampler;
  - an `addDose` that refuses a dose taking a compound over its daily maximum;
  - `checkInteractions`, which warns about ordered pairs of active compounds whose note contains "caution".
- **The Android mapping.** This is `EntityExtensions.kt`: the field-for-field conversion between the Room row `SupplementEntity` and the domain record `Supplement`, and the list conversion.

Modules:

| module | contents |
|---|---|
| `Ledger` | The dose record and the earliest and latest timestamps (`ledger.dfy`). An hour is 3 600 000 ms and the chart window extends 86 400 000 ms past the last dose. |
| `RealMath` | `Math.exp` and `Math.pow` as function values. `Lawful` collects the only facts the proofs use about them: `exp(0) = 1`, `0 < exp(x) ≤ 1` for `x ≤ 0`, `pow(0.5, 0) = 1`, and `0 < pow(0.5, y) ≤ 1` for `y ≥ 0`. |
| `Superposition` | The filter-and-sum fold that both trackers use, with the level snapshot of all catalog keys. It also holds the two imperative forms that compute the snapshot: the point-by-point sampler and the key-by-key loop. |
| `ForEach` | A `forEach` that pushes entries, modelled as a concatenating map. |
| `Text` | The string operations the source relies on: `includes`, `split(':')[0]` and `parseInt`. |
| `WebCatalog`, `WebEngine`, `WebMetrics`, `WebTracker` | The web tracker. `WebTracker.Tracker` is the component's state (doses, notifications, sleep schedule, thresholds, metrics), and its methods are the Add Dose button and one tick of each timer. |
| `RootCatalog`, `RootEngine`, `RootTracker` | The root tracker. `RootTracker.Tracker` holds the dose list. |
| `EntityExtensions` | The Android conversion. |

Four consequences of the code that a reader may not expect, each proved:

- **Synergy counts both directions.** With caffeine and l-theanine both active, the synergy score is 2, not 1: caffeine's note on l-theanine and l-theanine's note on caffeine each count (`WebMetrics.SynergyCaffeineWithTheanine`). The owning compound's own level is never checked, so caffeine alone already scores 1 (`WebMetrics.SynergyCaffeineAlone`).
- **Circadian alignment does not wrap around midnight.** The comparison uses linear integer hours. A sleep window that does not cross midnight therefore still classifies noon as sleep time (`WebMetrics.DaytimeSleepNoonIsSleep`).
- **Magnesium's synergistic note never counts.** It is keyed `'l_theanine'`, with an underscore, so it names no catalog compound (`WebMetrics.MagnesiumNotesScore`).
- **The root tracker does not clamp future doses.** Its concentration has no guard for doses after the evaluation instant. `Lawful` says nothing about `pow(0.5, y)` for negative `y`. Wherever `0.5^y` exceeds 1 for negative `y`, as the real power does, a future dose already counts for more than its whole amount (`RootEngine.FutureDoseNotClamped`). The web tracker returns 0 for such a dose (`WebEngine.CalculateConcentration`).

## Model

| member | source | states |
|---|---|---|
| EntityExtensions.ToDomain | android/app/src/main/java/com/neurodose/app/utils/extension/EntityExtensions.kt:18-31 | Each of the ten fields of the domain record equals the same field of the row. |
| EntityExtensions.ToEntity | android/app/src/main/java/com/neurodose/app/utils/extension/EntityExtensions.kt:38-51 | Each of the ten fields of the row equals the same field of the domain record. |
| EntityExtensions.DomainRoundTrip | android/app/src/main/java/com/neurodose/app/utils/extension/EntityExtensions.kt:18-51 | Converting a domain record to a row and back gives the same record. |
| EntityExtensions.EntityRoundTrip | android/app/src/main/java/com/neurodose/app/utils/extension/EntityExtensions.kt:18-51 | Converting a row to a domain record and back gives the same row. |
| EntityExtensions.ToDomainInjective | android/app/src/main/java/com/neurodose/app/utils/extension/EntityExtensions.kt:18-31 | Two rows with the same domain record are the same row, so no information is lost. |
| EntityExtensions.ListToDomain | android/app/src/main/java/com/neurodose/app/utils/extension/EntityExtensions.kt:58-60 | The list conversion keeps the length. |
| EntityExtensions.ListToDomainPointwise | android/app/src/main/java/com/neurodose/app/utils/extension/EntityExtensions.kt:58-60 | The list conversion keeps the length, and element i of the result is the conversion of element i (so the empty list maps to the empty list). |
| EntityExtensions.ListToDomainConcat | android/app/src/main/java/com/neurodose/app/utils/extension/EntityExtensions.kt:58-60 | Converting a concatenation gives the concatenation of the conversions. |
| EntityExtensions.ListRoundTrip | android/app/src/main/java/com/neurodose/app/utils/extension/EntityExtensions.kt:38-60 | Converting a list and then converting each element back with `toEntity` gives the original rows. |
| Ledger.HoursBetween | neurodose/src/components/NeuroDose.js:188 | The signed hour difference is negative exactly when the evaluation instant is before the dose, and zero exactly at the dose instant. |
| Ledger.Earliest | neurodose/src/components/NeuroDose.js:207 | The result is the timestamp of some dose, and no dose is earlier. |
| Ledger.Latest | neurodose/src/components/NeuroDose.js:208 | The result is the timestamp of some dose, and no dose is later. |
| Ledger.EarliestNotAfterLatest | neurodose/src/components/NeuroDose.js:207-208 | On a non-empty ledger the earliest timestamp is not after the latest one. |
| Ledger.HourlyInstantsShape | neurodose/src/components/NeuroDose.js:212-228 | The sample instants are `first + i` hours, none is after `last`, and there are `⌊(last − first) / 1h⌋ + 1` of them (none when `first > last`). |
| Ledger.HourlyRowsAreInstants | neurodose/src/components/NeuroDose.js:214-228 | Rows one hour apart from `first` that stop at the first instant after `last` are exactly the hourly sample instants, in order. |
| Superposition.Filter | neurodose/src/components/NeuroDose.js:148-149 | The filter never lengthens the ledger, and every dose it keeps has the requested compound key. |
| Superposition.FilterExactly | neurodose/src/components/NeuroDose.js:148-149 | A dose is in the filtered ledger exactly when it is in the ledger and has the requested compound: the filter adds nothing and loses no dose of that compound (ledger order is kept by `FilterConcat`). |
| Superposition.Level | neurodose/src/components/NeuroDose.js:147-151 | A compound with no dose in the ledger is at level 0. |
| Superposition.LevelOfEmptyLedger | neurodose/src/components/NeuroDose.js:147-151 | The level of any compound on an empty ledger is 0. |
| Superposition.LevelAppend | neurodose/src/components/NeuroDose.js:147-151 | Appending a dose adds its contribution to its own compound's level and 0 to every other level. |
| Superposition.FilterConcat | neurodose/src/components/NeuroDose.js:148-149 | Filtering a concatenation gives the concatenation of the filtered parts. |
| Superposition.TotalConcat | neurodose/src/components/NeuroDose.js:150 | The sum over a concatenation is the sum of the sums of its parts. |
| Superposition.LevelConcat | neurodose/src/components/NeuroDose.js:147-151 | A level is additive over any split of the ledger. |
| Superposition.LevelIgnoresOtherCompound | neurodose/src/components/NeuroDose.js:147-151 | A dose of another compound, anywhere in the ledger, does not change a level. |
| Superposition.LevelIsMaskedTotal | neurodose/src/components/NeuroDose.js:147-151 | The level equals the sum over the whole ledger in which doses of other compounds contribute 0. |
| Superposition.TotalPermutation | neurodose/src/components/NeuroDose.js:150 | The sum does not depend on the order of the doses: any two ledgers with the same multiset give the same total. |
| Superposition.LevelPermutation | neurodose/src/components/NeuroDose.js:147-151 | Reordering the ledger, for example after a backdated entry, never changes a level. |
| Superposition.TotalNonNegative | neurodose/src/components/NeuroDose.js:150 | When no dose contributes a negative amount, the sum is non-negative. |
| Superposition.Snapshot | neurodose/src/components/NeuroDose.js:144-151 | The snapshot holds exactly the requested keys. |
| Superposition.SnapshotPointwise | neurodose/src/components/NeuroDose.js:144-151 | Any map over exactly the keys that holds each key's level is the snapshot. |
| Superposition.SnapshotOfEmptyLedger | neurodose/src/components/NeuroDose.js:215-220 | With no doses every key of the snapshot is at 0, which is the row's starting object. |
| Superposition.SnapshotAppend | neurodose/src/components/NeuroDose.js:222-224 | Logging a dose raises the snapshot at its own key by its contribution and leaves every other key unchanged. |
| Superposition.SampleLevels | neurodose/src/components/NeuroDose.js:215-224 | The row built by starting every key at 0 and adding each dose's contribution to `point[dose.compound]` is the snapshot of levels. |
| Superposition.AddToPoint | neurodose/src/components/NeuroDose.js:223 | One `+=` step turns the snapshot of a ledger prefix into the snapshot of the prefix extended by that dose. |
| Superposition.LevelsOf | neurodose/src/components/NeuroDose.js:144-151 | `currentLevels`, filled key by key, is the snapshot of levels. |
| Text.ContainsAsSlice | neurodose/src/components/NeuroDose.js:157 | `includes` holds exactly when some slice of the text, as long as the pattern, equals the pattern (both directions). |
| Text.ContainsAt | neurodose/src/components/NeuroDose.js:157 | A pattern that matches at some index is contained in the text. |
| Text.MatchesAtAsSlice | neurodose/src/components/NeuroDose.js:157 | Matching at index i is equality of the slice starting at i with the pattern. |
| Text.NotContainsWithoutChar | neurodose/src/components/NeuroDose.js:157 | A pattern with a character that never occurs in the text is not contained in it. |
| Text.FirstField | neurodose/src/components/NeuroDose.js:124-125 | `split(':')[0]` is a prefix of the text without the separator, followed by the separator when it is shorter than the text. |
| Text.TrimStart | neurodose/src/components/NeuroDose.js:124-125 | `parseInt`'s whitespace skip drops only whitespace, and the suffix it keeps does not start with whitespace. |
| Text.ParseInt | neurodose/src/components/NeuroDose.js:124-125 | `parseInt` gives a number exactly when a digit follows the leading whitespace and an optional sign, and NaN otherwise. |
| Text.LeadingDigits | neurodose/src/components/NeuroDose.js:124-125 | The digit run `parseInt` reads is a prefix made only of digits that stops at the first non-digit. |
| Text.ParseUnsigned | neurodose/src/components/NeuroDose.js:124-125 | An unsigned run of digits parses to its base-10 value. |
| Text.ParseTwoDigitsOfHour | neurodose/src/components/NeuroDose.js:124-125 | The two-digit zero-padded rendering of an hour parses back to that hour. |
| Text.ParseHourOfClockText | neurodose/src/components/NeuroDose.js:124-125 | The field before ':' of any "HH:…" text parses back to the hour HH. |
| Text.ParseEmptyIsNaN | neurodose/src/components/NeuroDose.js:124-125 | A cleared time input parses to NaN. |
| WebCatalog.KnownKeys | neurodose/src/components/NeuroDose.js:24-96 | The keys of the catalog are exactly the four compounds, in declaration order. |
| WebCatalog.CatalogWellFormed | neurodose/src/components/NeuroDose.js:24-96 | Every compound has a positive half-life and absorption rate, a bioavailability within [0, 1], a positive minimum effective level, and a 400 mg daily maximum. |
| WebCatalog.KeysDistinct | neurodose/src/components/NeuroDose.js:24-96 | The catalog keys are pairwise distinct. |
| WebEngine.DoseCurve | neurodose/src/components/NeuroDose.js:186-196 | The single-dose curve of any well-formed compound is 0 before the dose instant. |
| WebEngine.CalculateConcentration | neurodose/src/components/NeuroDose.js:186-196 | A dose of a catalog compound contributes exactly 0 before its own instant. |
| WebEngine.ConcentrationAtDoseInstant | neurodose/src/components/NeuroDose.js:188-195 | At the dose instant the absorption factor `1 − e^0` is 0, so the dose contributes 0. |
| WebEngine.ConcentrationBounds | neurodose/src/components/NeuroDose.js:186-196 | A non-negative dose contributes between 0 and `amount × bioavailability` at every instant. |
| WebEngine.LevelsAt | neurodose/src/components/NeuroDose.js:144-151 | `currentLevels` holds exactly the catalog keys, each mapped to that compound's superposed level. |
| WebEngine.CompoundLevel | neurodose/src/components/NeuroDose.js:147-151 | A compound with no dose in the ledger is at level 0 at every instant. |
| WebEngine.LevelOfEmptyLedger | neurodose/src/components/NeuroDose.js:239-241 | The level of a compound on an empty ledger is 0. |
| WebEngine.LevelAppend | neurodose/src/components/NeuroDose.js:239-241 | Appending a dose adds exactly its concentration to its own compound's level and 0 to the other compounds. |
| WebEngine.LevelIgnoresOtherCompound | neurodose/src/components/NeuroDose.js:239-241 | Doses of other compounds, wherever they sit in the ledger, do not change a level. |
| WebEngine.LevelIgnoresDoseNotYetActive | neurodose/src/components/NeuroDose.js:188-195 | A dose logged for the evaluation instant or later adds nothing to the level at that instant. |
| WebEngine.LevelOrderIndependent | neurodose/src/components/NeuroDose.js:239-241 | Two ledgers holding the same doses in any order give the same level. |
| WebEngine.LevelNonNegative | neurodose/src/components/NeuroDose.js:239-241 | A ledger of non-negative amounts never gives a negative level. |
| WebEngine.LevelsAtEmptyLedger | neurodose/src/components/NeuroDose.js:144-151 | With no doses every catalog key is at 0. |
| WebEngine.LevelsAtAppend | neurodose/src/components/NeuroDose.js:144-151 | Logging a dose raises the snapshot at its own key by its concentration and leaves the other keys. |
| WebEngine.LevelsAtIgnoresUnknownDose | neurodose/src/components/NeuroDose.js:147-151 | A dose whose key is not in the catalog, which the web `addDose` accepts, leaves the whole `currentLevels` snapshot unchanged. |
| WebEngine.GenerateTimePoints | neurodose/src/components/NeuroDose.js:199-232 | No doses give no points. Otherwise the points start at the earliest dose, each is one hour after the previous one, none is after latest + 24 h, and there are `⌊(latest + 24h − earliest) / 1h⌋ + 1` of them. Every point holds every catalog key, mapped to the superposed level at its instant. |
| WebMetrics.Alignment | neurodose/src/components/NeuroDose.js:127-137 | The alignment is always 0, 0.5 or 1. |
| WebMetrics.CircadianAlignment | neurodose/src/components/NeuroDose.js:122-138 | The alignment computed from the "HH:MM" schedule entries is always 0, 0.5 or 1. |
| WebMetrics.AlignmentOptimalIff | neurodose/src/components/NeuroDose.js:122-138 | With both hours readable, the result is 1 exactly when `end ≤ hour ≤ start − 2`; otherwise it is 0 exactly when `hour ≥ start` or `hour < end`, and 0.5 exactly in the remaining hours. |
| WebMetrics.AlignmentWithoutBedtime | neurodose/src/components/NeuroDose.js:124-137 | With a cleared bedtime every comparison with NaN is false: the result is never 1, and it is 0 exactly when the hour is before the wake-up hour. |
| WebMetrics.AlignmentWithoutWakeUp | neurodose/src/components/NeuroDose.js:124-137 | With a cleared wake-up time the optimal window starts at NaN, so the result is never 1. It is 0 exactly when the hour is at or after bedtime, and 0.5 otherwise. |
| WebMetrics.ScheduleHourOfClock | neurodose/src/components/NeuroDose.js:124-125 | The hour read from a two-digit "HH:MM" entry is HH. |
| WebMetrics.DefaultScheduleBands | neurodose/src/components/NeuroDose.js:101-104 | With the default schedule 22:00–06:00, hours 6 to 20 give 1, hour 21 gives 0.5, and hours 22–23 and 0–5 give 0. |
| WebMetrics.DaytimeSleepNoonIsSleep | neurodose/src/components/NeuroDose.js:131-134 | Because the comparison does not wrap, a sleep window of 01:00–09:00 still makes noon sleep time (0). |
| WebMetrics.NoteFold | neurodose/src/components/NeuroDose.js:156-161 | The inner fold adds at most one per note to its starting score. |
| WebMetrics.SynergyFold | neurodose/src/components/NeuroDose.js:154-162 | The synergy score never exceeds the number of notes of the compounds folded over. |
| WebMetrics.SynergyScore | neurodose/src/components/NeuroDose.js:154-162 | The synergy score never exceeds 14, one point per interaction note of the catalog. |
| WebCatalog.CatalogNoteCount | neurodose/src/components/NeuroDose.js:24-96 | The four compounds carry 14 interaction notes in all. |
| WebMetrics.NoHitOnUnknownKey | neurodose/src/components/NeuroDose.js:157 | A note naming a compound that the snapshot cannot hold never counts. |
| WebMetrics.HitOfSynergisticNote | neurodose/src/components/NeuroDose.js:157 | A note starting with "Synergistic" counts exactly when its compound is active. |
| WebMetrics.CaffeineNotesScore | neurodose/src/components/NeuroDose.js:36-41 | Of caffeine's four notes only the one on l-theanine can count; rhodiola and cordyceps are not catalog keys. |
| WebMetrics.TheanineNotesScore | neurodose/src/components/NeuroDose.js:54-59 | Of l-theanine's four notes only the one on caffeine can count; ashwagandha and magnolia are not catalog keys. |
| WebMetrics.GinsengNotesScore | neurodose/src/components/NeuroDose.js:72-77 | None of ginseng's notes can count: its only synergistic note names cordyceps. |
| WebMetrics.MagnesiumNotesScore | neurodose/src/components/NeuroDose.js:90-93 | None of magnesium's notes can count: its synergistic note is keyed `'l_theanine'`, which is no catalog key. |
| WebMetrics.SynergyFoldOfCatalog | neurodose/src/components/NeuroDose.js:154-162 | The score threads through the four compounds' note folds in catalog order, starting from 0. |
| WebMetrics.SynergyOfCatalogSnapshot | neurodose/src/components/NeuroDose.js:153-162 | For a snapshot over catalog keys, the synergy score is [l-theanine active] + [caffeine active]. |
| WebMetrics.SynergyCaffeineWithTheanine | neurodose/src/components/NeuroDose.js:153-162 | Caffeine and l-theanine both active give a score of 2, one per direction. |
| WebMetrics.SynergyCaffeineAlone | neurodose/src/components/NeuroDose.js:153-162 | Caffeine active without l-theanine gives 1, because the owning compound's own level is not checked. |
| WebMetrics.ToleranceFold | neurodose/src/components/NeuroDose.js:165-168 | The count never exceeds the number of compounds folded over. |
| WebMetrics.ToleranceRisk | neurodose/src/components/NeuroDose.js:164-168 | The tolerance risk never exceeds the number of catalog compounds. |
| WebMetrics.ToleranceFoldZeroIff | neurodose/src/components/NeuroDose.js:165-168 | The count is 0 exactly when no compound is strictly above 80% of its daily maximum. |
| WebMetrics.ToleranceFoldFullIff | neurodose/src/components/NeuroDose.js:165-168 | The count equals the number of compounds exactly when every compound is strictly above 80% of its daily maximum. |
| WebMetrics.ToleranceRiskBounds | neurodose/src/components/NeuroDose.js:164-168 | The tolerance risk lies in 0..4. It is 0 exactly when no level exceeds 320 mg, and 4 exactly when every level does. |
| WebTracker.NoticesFor | neurodose/src/components/NeuroDose.js:243-249 | Every notice the two checks give for a compound names that compound. |
| WebTracker.TickNotices | neurodose/src/components/NeuroDose.js:237-250 | The tick gives at most two notices per key, each naming one of the keys walked. |
| WebTracker.BelowThresholdIff | neurodose/src/components/NeuroDose.js:243-245 | A compound is reported below threshold exactly when it is walked, it has a threshold, and its level is strictly under that threshold. |
| WebTracker.ExceedsMaxIff | neurodose/src/components/NeuroDose.js:247-249 | A compound is reported over its maximum exactly when it is walked and its level is strictly above its daily maximum. |
| WebTracker.TickNoticesOrdered | neurodose/src/components/NeuroDose.js:238-250 | Over distinct keys the notices come out in key order, with "below" before "exceeds" within one compound. |
| WebTracker.CatalogTickOrdered | neurodose/src/components/NeuroDose.js:238-250 | The catalog tick is ordered by catalog position, with "below" before "exceeds" within one compound. |
| WebTracker.RenderAt | neurodose/src/components/NeuroDose.js:244-248 | Rendering keeps order: message i is the text of notice i. |
| WebTracker.Message | neurodose/src/components/NeuroDose.js:243-249 | Every message starts with the compound's display name. |
| WebTracker.RenderNoticesFor | neurodose/src/components/NeuroDose.js:243-249 | The rendered messages of one compound are the "below" message when under the threshold, followed by the "exceeds" message when over the maximum. |
| WebTracker.CompoundNotifications | neurodose/src/components/NeuroDose.js:243-249 | The two `if`s of the tick push exactly the rendered notices of that compound. |
| WebTracker.ComputeNotifications | neurodose/src/components/NeuroDose.js:237-250 | The loop over the catalog keys produces exactly the rendered notices of the whole tick. |
| WebTracker.DefaultThresholds | neurodose/src/components/NeuroDose.js:105-109 | The initial thresholds hold exactly the catalog keys, each mapped to its minimum effective level. |
| WebTracker.EmptyLedgerNotices | neurodose/src/components/NeuroDose.js:239-249 | With no doses and the initial thresholds, each compound is reported below its threshold and nothing else. |
| WebTracker.EmptyLedgerTick | neurodose/src/components/NeuroDose.js:237-250 | With no doses and the initial thresholds, the tick reports every compound below threshold, in catalog order. |
| WebTracker.ComputeMetrics | neurodose/src/components/NeuroDose.js:142-177 | The metrics are the synergy score and the tolerance risk of the current snapshot, with the circadian alignment of the current hour. |
| WebTracker.MetricsAt | neurodose/src/components/NeuroDose.js:142-177 | The synergy score is at most 14, the tolerance risk at most the number of catalog compounds, and the alignment is 0, 0.5 or 1. |
| WebTracker.Tracker.constructor | neurodose/src/components/NeuroDose.js:99-119 | The initial state: no doses or notifications, sleep 22:00 to 06:00, thresholds at the minimum effective levels, all metrics 0. |
| WebTracker.Tracker.AddDose | neurodose/src/components/NeuroDose.js:305-309 | Add Dose appends exactly the new dose at the end, and nothing else of the state changes. |
| WebTracker.Tracker.CheckNotifications | neurodose/src/components/NeuroDose.js:236-253 | The new messages are appended after the existing notifications, which stay unchanged, and nothing else of the state changes. |
| WebTracker.Tracker.UpdateMetrics | neurodose/src/components/NeuroDose.js:142-178 | The metrics become those of the current ledger, instant, hour and schedule, and nothing else of the state changes. |
| RootCatalog.KnownKeys | NeuroDose.js:9-40 | The keys of the catalog are exactly the three compounds, in declaration order. |
| RootCatalog.CatalogWellFormed | NeuroDose.js:9-40 | Every compound has a positive half-life and a 400 mg daily maximum. |
| RootCatalog.NoteFor | NeuroDose.js:115 | A note lookup succeeds exactly when some note is keyed by the other compound, and the text it gives is one of those notes. |
| RootEngine.RootConcentration | NeuroDose.js:50-55 | With no absorption phase the full amount is active at the dose instant. |
| RootEngine.FutureDoseNotClamped | NeuroDose.js:50-55 | Nothing clamps a dose after the evaluation instant: where `0.5^y` exceeds 1 for negative `y`, a positive dose counts for more than its amount. |
| RootEngine.ConcentrationBounds | NeuroDose.js:50-55 | From the dose instant on, a positive dose contributes more than 0 and at most its amount. |
| RootEngine.LevelsAt | NeuroDose.js:103-108 | `currentLevels` holds exactly the three catalog keys, each mapped to that compound's superposed level. |
| RootEngine.CompoundLevel | NeuroDose.js:90-92 | A compound with no dose in the ledger is at level 0 at every instant. |
| RootEngine.LevelOfEmptyLedger | NeuroDose.js:105-107 | The level of a compound on an empty ledger is 0. |
| RootEngine.LevelAppend | NeuroDose.js:105-107 | Appending a dose adds exactly its concentration to its own compound's level and 0 to the others. |
| RootEngine.LevelAtOwnInstant | NeuroDose.js:90-92 | A dose counts in full toward its own compound at its own instant. |
| RootEngine.LevelOfTwoAtOwnInstant | NeuroDose.js:90-92 | The same dose logged twice, evaluated at its own instant, gives twice its amount. |
| RootEngine.LevelIgnoresOtherCompound | NeuroDose.js:90-92 | Doses of other compounds, wherever they sit in the ledger, do not change a level. |
| RootEngine.InitialRowIsEmptySnapshot | NeuroDose.js:69-74 | The chart row's starting object, the three keys at 0, is the snapshot of an empty ledger. |
| RootEngine.GenerateTimePoints | NeuroDose.js:57-86 | No doses give no points. Otherwise the points are hourly from the earliest dose through latest + 24 h, and each holds exactly the three keys, mapped to their superposed levels at its instant. |
| RootTracker.ExceedsDailyMax | NeuroDose.js:89-94 | When the ledger holds no dose of the compound, the gate refuses exactly an amount above the daily maximum. |
| RootTracker.ExactMaximumAccepted | NeuroDose.js:94 | A dose that brings the total exactly to the daily maximum is accepted. |
| RootTracker.GateOnEmptyLedger | NeuroDose.js:90-97 | On an empty ledger a dose is refused exactly when its amount exceeds 400 mg. |
| RootTracker.GateIgnoresOtherCompound | NeuroDose.js:90-97 | Doses of other compounds never affect the gate. |
| RootTracker.GateAtSameInstant | NeuroDose.js:88-100 | At one instant a first and a second 200 mg caffeine dose are accepted, and any further caffeine is refused. |
| RootTracker.PairWarningIff | NeuroDose.js:113-119 | The pair check warns exactly for distinct compounds whose second one is active and whose note on it contains "caution", and the warning is "A + B: note". |
| RootTracker.CaffeineCautionNotes | NeuroDose.js:15-18 | Caffeine's only note containing "caution" is the one on ginseng. |
| RootTracker.TheanineCautionNotes | NeuroDose.js:25-28 | Neither of l-theanine's notes contains "caution". |
| RootTracker.GinsengCautionNotes | NeuroDose.js:35-38 | Ginseng's only note containing "caution" is the one on caffeine. |
| RootTracker.OuterOfCatalog | NeuroDose.js:111-122 | The outer walk visits caffeine, l-theanine and ginseng in catalog order, and runs the inner walk only for an active compound. |
| RootTracker.InteractionWarnings | NeuroDose.js:102-125 | When no compound is active there are no warnings. |
| RootTracker.InteractionWarningsOfCatalog | NeuroDose.js:102-125 | The warning list is exactly [caffeine + ginseng, ginseng + caffeine] when both are active, whatever l-theanine's level, and empty otherwise. |
| RootTracker.TheanineWithGinsengNoWarning | NeuroDose.js:102-125 | L-theanine and ginseng without caffeine give no warning. |
| RootTracker.FewerThanTwoActiveNoWarning | NeuroDose.js:102-125 | With at most one active compound there is no warning. |
| RootTracker.NoWarningsOnEmptyLedger | NeuroDose.js:102-125 | An empty ledger gives no warning. |
| RootTracker.PairCheck | NeuroDose.js:114-119 | The body of the inner `forEach` pushes exactly the pair's warning. |
| RootTracker.PushPairWarnings | NeuroDose.js:113-120 | The inner `forEach` appends exactly the active compound's inner warnings after those already pushed. |
| RootTracker.VisitCompound | NeuroDose.js:111-121 | The body of the outer `forEach` appends the inner warnings only when the outer compound is active. |
| RootTracker.WarningsFor | NeuroDose.js:110-124 | The nested walk over `currentLevels` returns exactly the interaction warnings of the snapshot. |
| RootTracker.Tracker.constructor | NeuroDose.js:43 | The dose list starts empty. |
| RootTracker.Tracker.AddDose | NeuroDose.js:88-100 | The dose is refused, leaving the list unchanged, exactly when the existing same-compound level at its instant plus its amount exceeds the daily maximum; otherwise it is appended at the end. |
| RootTracker.Tracker.CheckInteractions | NeuroDose.js:102-125 | The warnings are those of the snapshot of levels at the given instant. |

## Left out

- Rendering and UI are not modelled: JSX, recharts, tabs, the sliders and inputs, and the alert banner. The alert of `addDose` is the `alerted` result, and a refused dose leaves the list unchanged.
- `console.log` and `alert()` are output only, so they are not modelled.
- Timers are not modelled. The 60-second `setInterval`s and the `useEffect` re-subscriptions are left out; one tick is one method call.
- The React state setters are field assignments of the `Tracker` classes. The slider that changes a threshold and the time inputs that change the sleep schedule are not modelled as operations, because they only assign a field.
- Floating point is not modelled. Amounts and levels are `real`, and `Math.exp` and `Math.pow` are function values constrained only by `RealMath.Lawful`. Numeric sample values are therefore not computed.
- Dates are not modelled. Timestamps are integer milliseconds since the epoch. The following are left out: parsing of the `datetime-local` text, `toISOString` in the `time` field of a chart row, and the local-time/DST behaviour of `setHours(+24)` and `setHours(+1)`. The offsets are the fixed 86 400 000 ms and 3 600 000 ms.
- The clock is a parameter. `new Date()` is the parameter `now`, and `getHours()` is the parameter `hour`. A tick that reads the clock once per dose is modelled as reading it once.
- `Number(newDose.amount)` is not modelled: amounts enter the model already converted.
- `parseInt` is modelled only for ASCII whitespace and base-10 digits. Unicode whitespace and the `0x` prefix are not modelled, because the schedule text comes from a time input.
- Doses with a key outside the catalog are only partly modelled. The select list offers only catalog keys, and no source operation checks a key. Among the operations, three groups require a catalog key: the per-dose curves `WebEngine.CalculateConcentration` and `RootEngine.RootConcentration`, the two chart samplers `WebEngine.GenerateTimePoints` and `RootEngine.GenerateTimePoints`, and the root `RootTracker.Tracker.AddDose`. For any other key, `compounds[dose.compound]` is `undefined`, and the source's curve throws a `TypeError` when it reads a field of it (the web curve returns 0 first for a future dose). The model does not represent that crash.
- The web `addDose` (`WebTracker.Tracker.AddDose`) and the web ticks accept a dose of any key. The level folds filter the ledger by the catalog key first, as the source's `filter` does, so such a dose leaves every level unchanged and never reaches a curve (`WebEngine.LevelsAtIgnoresUnknownDose`). The web chart sampler loops over every dose, so it has no model on a ledger that holds such a dose.
- Repeated interaction-note keys are not modelled. `NoteFor` returns the first note with a key, while JavaScript keeps the last value of a repeated key in an object literal. No catalog literal repeats a note key, so the two lookups agree on every note the catalogs hold.
- The levels passed to the 3D view are not modelled (neurodose/src/components/NeuroDose.js:418-425). That `reduce` discards its accumulator and only the visualisation reads it.
- `BrainVisualization.jsx` is not part of this model: it is WebGL rendering and random particle placement.
- `Decay_curve.py` is not part of this model: it is numpy plotting.
- The Android side other than `EntityExtensions.kt` is not part of this model. This covers Room, the DAOs, Hilt, the repository and use cases, the view model and the Compose UI. The Kotlin `Int` of `id` is an unbounded `int`, because the conversion only copies it.
- The Next.js shell (`page.js`, `layout.js`) is not part of this model.
