# Emotional Ledger — a verified model of its core rules

Emotional Ledger is an Android mood journal. Every event of a day is logged as
an entry with a delta between -2 and 2, a title, a feeling and tags. The day's
score is a baseline of 5 plus the deltas, and a daily reflection can adjust it
by a stored drift. Per-tag running totals ("tag stats") feed the colours, the
influence cards and the Influences screen. The Today screen draws a "mood
seal": a ring of influence bands, a ring of entry dots moved by a small physics
engine, and a ring of tag labels that answer a touch. The Mood Trends screen
charts weeks, months and years, and weekly and monthly reflections can be
exported as Markdown notes to an Obsidian vault.

This project models those rules in Dafny and proves what they promise:

- `seal_physics.dfy`: the ring physics `step`. It is a class method over two
  arrays, proved equal to a functional specification. Lemmas cover lengths,
  normalised angles, the velocity trade, impact reports, friction, a settled
  ring and the separation of a colliding pair.
- `influence_math.dfy`: angle normalisation, angular distance, the signed
  delta of the physics step, Kotlin's float `%` and `toInt`, and
  `impactOrderIndices`.
- `quarter.dfy`: `snapToQuarter` with `round` ties-to-even.
- `model.dfy`: the records, `TagStats.average` and the day score.
- `ledger_store.dfy`: the preferences store as one value of keyed maps, the
  load/save pairs, the tag-stat updates (loops over a local map), and
  `loadWeeklyMood`.
- `influence_card.dfy`: `buildInfluenceCardModel`.
- `add_entry.dfy`: the entry sheet. This covers the slider, the chip input,
  chip removal, the autocomplete list, `tagColor`, and the entry it saves.
- `today.dfy`: the Today screen. This covers tag ordering, the emoji, label
  and colour functions, score and drift, entry upsert and delete, and the
  month calendar.
- `influences.dfy`: the Influences screen's sort chips, the sorted list, the
  gathering of one tag's entries, and the expand and dismiss toggles.
- `trends.dfy`: the Mood Trends chart. This covers slots, bar layout, the
  tap-to-day mapping, daily and weekly averages, and navigation guards.
- `seal_drawing.dfy`: the seal's geometry. This covers band sweeps and widths,
  the dot guard, label sweeps, label arcs and the touch test.
- `obsidian_export.dfy`: the weekly and monthly Markdown notes and their file
  names.
- `sorting.dfy`, `text.dfy`, `wrappers.dfy`: the Kotlin library behaviour the
  rules rely on. These are stable sorting, trimming, ASCII case folding,
  `contains`, string order, and nullable values.

Kotlin `Float` is modelled as `real`, `Int` as `int` (the saturation of
`Float.toInt()` included), and `LocalDate` as a day number. The DataStore
preferences are the datatype `Prefs`. Each `load*` function reads one map of
it, and each `save*` function returns the store with one key replaced
(`map + (key to value)`).

## Model

| member | source | states |
|---|---|---|
| SealPhysics.SealPhysicsEngine.constructor | app/src/main/java/com/example/mood/physics/SealPhysicsEngine.kt:7-9 | the engine keeps the minimum separation it is built with |
| SealPhysics.SealPhysicsEngine.Step | app/src/main/java/com/example/mood/physics/SealPhysicsEngine.kt:11-76 | after the in-place step the two arrays hold exactly what `StepSpec` computes from their old contents, and the strengths reported to `onImpact` are `StepSpec`'s, in call order |
| SealPhysics.SealPhysicsEngine.IntegratePass | app/src/main/java/com/example/mood/physics/SealPhysicsEngine.kt:20-25 | every angle becomes its old value plus velocity times the step's length, wrapped into [0, 360); velocities are untouched |
| SealPhysics.SealPhysicsEngine.CollisionPass | app/src/main/java/com/example/mood/physics/SealPhysicsEngine.kt:28-67 | the arrays, reports and collided set equal resolving every pair i < j in ascending order on the evolving ring |
| SealPhysics.SealPhysicsEngine.ResolveRowInPlace | app/src/main/java/com/example/mood/physics/SealPhysicsEngine.kt:29-66 | row i of the pair loop equals resolving (i, i + 1), ..., (i, n - 1) in that order |
| SealPhysics.SealPhysicsEngine.ResolvePairInPlace | app/src/main/java/com/example/mood/physics/SealPhysicsEngine.kt:31-65 | the body of the pair loop equals the pair rule `ResolvePair` on the old contents |
| SealPhysics.SealPhysicsEngine.PushApartInPlace | app/src/main/java/com/example/mood/physics/SealPhysicsEngine.kt:43-50 | the two angle writes: dot i moves back and dot j on by the shift, both wrapped |
| SealPhysics.SealPhysicsEngine.TradeInPlace | app/src/main/java/com/example/mood/physics/SealPhysicsEngine.kt:52-56 | the two velocity writes: each dot takes 0.9 of the other's old velocity |
| SealPhysics.SealPhysicsEngine.FrictionPass | app/src/main/java/com/example/mood/physics/SealPhysicsEngine.kt:70-75 | every velocity is multiplied by 0.97 and snapped to 0 below 0.05 |
| SealPhysics.Clamp01 | app/src/main/java/com/example/mood/physics/SealPhysicsEngine.kt:59-60 | `coerceIn(0, 1)`: the result lies in [0, 1] and a value inside is kept |
| SealPhysics.ImpactStrength | app/src/main/java/com/example/mood/physics/SealPhysicsEngine.kt:58-62 | the normalised strength lies in [0, 1] and exceeds 0.15 exactly when the relative velocity exceeds 108 |
| SealPhysics.Integrate | app/src/main/java/com/example/mood/physics/SealPhysicsEngine.kt:20-25 | pass 1 keeps the number of angles and leaves every angle in [0, 360) |
| SealPhysics.Advance | app/src/main/java/com/example/mood/physics/SealPhysicsEngine.kt:21-24 | one integrated angle lies in [0, 360) |
| SealPhysics.PushApart | app/src/main/java/com/example/mood/physics/SealPhysicsEngine.kt:43-50 | the push keeps the number of angles |
| SealPhysics.Trade | app/src/main/java/com/example/mood/physics/SealPhysicsEngine.kt:52-56 | the trade keeps the number of velocities |
| SealPhysics.ResolvePairConserves | app/src/main/java/com/example/mood/physics/SealPhysicsEngine.kt:31-65 | one pair keeps both lengths and normalised angles, only adds reports, and changes only the velocities of the dots it marks collided |
| SealPhysics.ResolveRow | app/src/main/java/com/example/mood/physics/SealPhysicsEngine.kt:29-66 | a row of pairs keeps what one pair keeps |
| SealPhysics.ResolveRows | app/src/main/java/com/example/mood/physics/SealPhysicsEngine.kt:28-67 | the whole pair pass keeps what one pair keeps |
| SealPhysics.Damp | app/src/main/java/com/example/mood/physics/SealPhysicsEngine.kt:71-74 | a damped velocity is 0 or at least 0.05 in magnitude, never larger than before, and otherwise exactly 0.97 times the old one |
| SealPhysics.DampAll | app/src/main/java/com/example/mood/physics/SealPhysicsEngine.kt:70-75 | friction damps each velocity on its own |
| SealPhysics.ConservesTransitive | app/src/main/java/com/example/mood/physics/SealPhysicsEngine.kt:28-67 | what the pair pass keeps is kept across consecutive pairs |
| SealPhysics.EmptyRingIsNoOp | app/src/main/java/com/example/mood/physics/SealPhysicsEngine.kt:17 | a step on an empty ring changes nothing, friction included, and reports no impact |
| SealPhysics.StepShape | app/src/main/java/com/example/mood/physics/SealPhysicsEngine.kt:11-76 | a step keeps both lengths, leaves every angle in [0, 360), reports only strengths in (0.15, 1], and leaves each velocity at 0 or of magnitude at least 0.05 |
| SealPhysics.UntouchedDotSlowsDown | app/src/main/java/com/example/mood/physics/SealPhysicsEngine.kt:70-75 | a dot that took part in no collision never gains speed |
| SealPhysics.PairRule | app/src/main/java/com/example/mood/physics/SealPhysicsEngine.kt:36-65 | a pair does nothing unless it overlaps; an overlapping pair trades velocities as 0.9·vj and 0.9·vi, no other dot changes, and one impact in (0.15, 1] is reported exactly when the relative velocity exceeds 108 |
| SealPhysics.PairSeparates | app/src/main/java/com/example/mood/physics/SealPhysicsEngine.kt:36-50 | two resting dots closer than a separation of at most 180 each move by half the overlap, in opposite directions, and end exactly the separation apart |
| SealPhysics.StepSpec | app/src/main/java/com/example/mood/physics/SealPhysicsEngine.kt:11-76 | a ring without dots is left as it was and reports nothing; a step keeps both lengths |
| SealPhysics.ResolvePair | app/src/main/java/com/example/mood/physics/SealPhysicsEngine.kt:31-65 | a pair at least the minimum apart is left alone; an overlapping pair is marked collided, trades velocities with 0.9 restitution, moves no other dot and adds at most one report |
| SealPhysics.PairShift | app/src/main/java/com/example/mood/physics/SealPhysicsEngine.kt:40-50 | for an overlapping pair the shift is half the overlap, positive exactly when the signed delta is |
| SealPhysics.RestingPair | app/src/main/java/com/example/mood/physics/SealPhysicsEngine.kt:36-56 | the pair rule on a resting two-dot ring, written out |
| SealPhysics.PushMovesHalf | app/src/main/java/com/example/mood/physics/SealPhysicsEngine.kt:43-50 | each dot of the pair is seen to move by exactly its signed share of the push |
| SealPhysics.PushedApart | app/src/main/java/com/example/mood/physics/SealPhysicsEngine.kt:38-50 | after the push the pair is exactly the minimum separation apart |
| SealPhysics.SettledRingStaysPut | app/src/main/java/com/example/mood/physics/SealPhysicsEngine.kt:20-75 | a ring at rest, normalised and pairwise at least the separation apart is left exactly as it was |
| SealPhysics.SeparatedRowUnchanged | app/src/main/java/com/example/mood/physics/SealPhysicsEngine.kt:29-66 | a row of well-separated dots is not changed |
| SealPhysics.SeparatedRowsUnchanged | app/src/main/java/com/example/mood/physics/SealPhysicsEngine.kt:28-67 | the pair pass does not change well-separated dots |
| SealPhysics.CollisionExample | app/src/main/java/com/example/mood/physics/SealPhysicsEngine.kt:11-76 | dots at 0 and 5 moving at 100 and -40 end at 352.5 and 12.5 moving at -34.92 and 87.3, with one impact of 140/720 |
| SealPhysics.ExampleRows | app/src/main/java/com/example/mood/physics/SealPhysicsEngine.kt:28-67 | the example's pair pass gives velocities -36 and 90 before friction |
| SealPhysics.ExampleAtRest | app/src/main/java/com/example/mood/physics/SealPhysicsEngine.kt:20-25 | no elapsed time leaves normalised angles in place |
| SealPhysics.ExamplePair | app/src/main/java/com/example/mood/physics/SealPhysicsEngine.kt:31-65 | the example's single pair, resolved |
| SealPhysics.ExampleGeometry | app/src/main/java/com/example/mood/physics/SealPhysicsEngine.kt:34-50 | the example's distance 5, shift 7.5 and wrapped angles 352.5 and 12.5 |
| SealPhysics.ExampleFriction | app/src/main/java/com/example/mood/physics/SealPhysicsEngine.kt:70-75 | friction turns -36 and 90 into -34.92 and 87.3 |
| InfluenceMath.Trunc | app/src/main/java/com/example/mood/export/ObsidianExport.kt:38-39 | float-to-integer conversion truncates toward zero |
| InfluenceMath.ToInt | app/src/main/java/com/example/mood/WeeklyMoodBarChart.kt:140-142 | `Float.toInt()` truncates toward zero and saturates to the 32-bit range |
| InfluenceMath.Rem360 | app/src/main/java/com/example/mood/util/InfluenceMath.kt:20 | Kotlin's float `% 360f` keeps the sign of its operand and stays within one turn |
| InfluenceMath.Mod360 | app/src/main/java/com/example/mood/util/InfluenceMath.kt:24-25 | the reference representative modulo a turn lies in [0, 360) |
| InfluenceMath.RemOfNonNegative | app/src/main/java/com/example/mood/util/InfluenceMath.kt:20 | on a non-negative operand `%` is the representative |
| InfluenceMath.NormalizeAngle | app/src/main/java/com/example/mood/util/InfluenceMath.kt:24-25 | `normalizeAngle` lies in [0, 360) for every input and equals the representative modulo 360 |
| InfluenceMath.NormalizeFixesCanonical | app/src/main/java/com/example/mood/util/InfluenceMath.kt:24-25 | an angle in [0, 360) is its own normal form |
| InfluenceMath.NormalizeIdempotent | app/src/main/java/com/example/mood/util/InfluenceMath.kt:24-25 | normalising twice is normalising once |
| InfluenceMath.NormalizePeriodic | app/src/main/java/com/example/mood/util/InfluenceMath.kt:24-25 | whole turns do not change the normal form |
| InfluenceMath.AngularDistance | app/src/main/java/com/example/mood/util/InfluenceMath.kt:19-22 | `angularDistance` lies in [0, 180] |
| InfluenceMath.DistanceIsFoldedDifference | app/src/main/java/com/example/mood/util/InfluenceMath.kt:19-22 | the distance is the difference modulo a turn, folded onto [0, 180] |
| InfluenceMath.DistanceOfSelf | app/src/main/java/com/example/mood/util/InfluenceMath.kt:19-22 | an angle is at distance 0 from itself |
| InfluenceMath.DistanceSymmetric | app/src/main/java/com/example/mood/util/InfluenceMath.kt:19-22 | the distance is symmetric |
| InfluenceMath.DistanceIgnoresTurns | app/src/main/java/com/example/mood/util/InfluenceMath.kt:19-22 | whole turns added to either angle do not change the distance |
| InfluenceMath.DistanceOfNormalized | app/src/main/java/com/example/mood/util/InfluenceMath.kt:19-25 | normalising both angles first does not change their distance |
| InfluenceMath.DistanceOfNormalizedIsFolded | app/src/main/java/com/example/mood/util/InfluenceMath.kt:19-25 | the distance of two normalised angles is the folded difference of the raw ones |
| InfluenceMath.SignedDeltaOfCanonical | app/src/main/java/com/example/mood/physics/SealPhysicsEngine.kt:40-41 | for angles in [0, 360) the engine's signed delta lies in [-180, 180), is b - a modulo a turn, and has the angular distance as magnitude |
| InfluenceMath.SignedDeltaOfShift | app/src/main/java/com/example/mood/physics/SealPhysicsEngine.kt:41 | moving an angle by x in [-180, 180) and normalising is seen as a signed delta of exactly x |
| InfluenceMath.IndexedDeltas | app/src/main/java/com/example/mood/util/InfluenceMath.kt:12 | `mapIndexed` pairs every index with its entry's delta |
| InfluenceMath.ByDeltaDescendingIsWeakOrder | app/src/main/java/com/example/mood/util/InfluenceMath.kt:14 | `compareByDescending` on the delta is a strict weak order |
| InfluenceMath.ImpactOrderIsStableDescending | app/src/main/java/com/example/mood/util/InfluenceMath.kt:8-17 | `impactOrderIndices` is a permutation of 0..n-1, the deltas it lists never increase, and equal deltas keep ascending index order |
| InfluenceMath.ImpactOrderIndices | app/src/main/java/com/example/mood/util/InfluenceMath.kt:8-17 | one index per entry; `ImpactOrderIsStableDescending` states the order |
| InfluenceMath.Fold | app/src/main/java/com/example/mood/util/InfluenceMath.kt:21 | a remainder in [0, 360) folds onto [0, 180], and one up to 180 is kept |
| InfluenceMath.SignedDelta | app/src/main/java/com/example/mood/physics/SealPhysicsEngine.kt:40-41 | for any two angles less than one and a half turns apart the delta lies in [-180, 180) |
| QuarterSnap.RoundHalfEven | app/src/main/java/com/example/mood/util/snapToQuarter.kt:5 | `kotlin.math.round` gives an integer within one half of its argument, and the even one at a tie |
| QuarterSnap.RoundUnique | app/src/main/java/com/example/mood/util/snapToQuarter.kt:5 | away from a tie the nearest integer is the only possible result |
| QuarterSnap.RoundOfInteger | app/src/main/java/com/example/mood/util/snapToQuarter.kt:5 | an integer rounds to itself |
| QuarterSnap.RoundMonotone | app/src/main/java/com/example/mood/util/snapToQuarter.kt:5 | rounding never reverses order |
| QuarterSnap.SnapToQuarter | app/src/main/java/com/example/mood/util/snapToQuarter.kt:3-12 | the result lies in [-2, 2] and is a whole number of quarters |
| QuarterSnap.SnapIsNearest | app/src/main/java/com/example/mood/util/snapToQuarter.kt:5 | inside [-2, 2] a value moves by at most 0.125 |
| QuarterSnap.SnapNearZero | app/src/main/java/com/example/mood/util/snapToQuarter.kt:5-7 | every value within 0.125 of zero, both ties included, becomes exactly 0 |
| QuarterSnap.SnapClamps | app/src/main/java/com/example/mood/util/snapToQuarter.kt:8-9 | values at or beyond 2 or -2 stick to that end |
| QuarterSnap.SnapIdempotent | app/src/main/java/com/example/mood/util/snapToQuarter.kt:3-12 | a snapped value is a fixed point |
| QuarterSnap.SnapMonotone | app/src/main/java/com/example/mood/util/snapToQuarter.kt:3-12 | a larger input never snaps lower |
| Model.TagStats.Average | app/src/main/java/com/example/mood/model/TagStats.kt:13-14 | 0 without a count; otherwise average times count is the total, with the total's sign; a single entry averages its own delta |
| Model.SumDeltasAppend | app/src/main/java/com/example/mood/MainActivity.kt:357 | the fold of the deltas over two lists adds up |
| Model.SumDeltasPermutation | app/src/main/java/com/example/mood/MainActivity.kt:357 | the event total does not depend on the order of the entries |
| Model.SumDeltas | app/src/main/java/com/example/mood/MainActivity.kt:357 | the event total of entries that all raise the mood is non-negative, and of entries that all lower it non-positive |
| Model.DayScore | app/src/main/java/com/example/mood/data/LedgerStore.kt:272-281 | a day's score is the baseline plus the deltas, plus the reflection's drift when one exists |
| Model.Mean | app/src/main/java/com/example/mood/WeeklyMoodBarChart.kt:362-363 | `average()` of a non-empty list: the mean times the count is the sum |
| Model.Scores | app/src/main/java/com/example/mood/WeeklyMoodBarChart.kt:426 | `map { it.score }` keeps one score per point, in order |
| Model.MeanBounds | app/src/main/java/com/example/mood/WeeklyMoodBarChart.kt:424-428 | a mean lies between the least and the greatest value averaged |
| Text.TrimStart | app/src/main/java/com/example/mood/ui/AddEntrySheet.kt:263 | drops exactly the leading whitespace |
| Text.TrimEnd | app/src/main/java/com/example/mood/ui/AddEntrySheet.kt:263 | drops exactly the trailing whitespace |
| Text.Trim | app/src/main/java/com/example/mood/ui/AddEntrySheet.kt:263 | the trimmed text has no whitespace at either end and is empty exactly when the input is blank |
| Text.TrimIsSlice | app/src/main/java/com/example/mood/ui/AddEntrySheet.kt:279 | `trim` keeps one contiguous piece of its input and drops only whitespace |
| Text.TrimIdempotent | app/src/main/java/com/example/mood/ui/AddEntrySheet.kt:279 | trimming twice is trimming once |
| Text.Lower | app/src/main/java/com/example/mood/MainActivity.kt:265 | an ASCII capital becomes its small letter, every other character is kept |
| Text.LowerStr | app/src/main/java/com/example/mood/MainActivity.kt:265 | `lowercase()` keeps the length and lowers each character |
| Text.LowerIdempotent | app/src/main/java/com/example/mood/MainActivity.kt:265 | lowering twice is lowering once |
| Text.ContainsIffOccurs | app/src/main/java/com/example/mood/ui/AddEntrySheet.kt:303 | `contains` holds exactly when the query occurs at some position |
| Text.LexLessIrreflexive | app/src/main/java/com/example/mood/ui/AddEntrySheet.kt:305 | no string sorts before itself |
| Text.LexLessTransitive | app/src/main/java/com/example/mood/ui/AddEntrySheet.kt:305 | string order is transitive |
| Text.LexLessTotal | app/src/main/java/com/example/mood/ui/AddEntrySheet.kt:305 | two different strings are always ordered |
| Text.LexLessIsStrictWeakOrder | app/src/main/java/com/example/mood/ui/AddEntrySheet.kt:305 | the natural string order is one `sorted()` can use |
| Text.LexLess | app/src/main/java/com/example/mood/ui/AddEntrySheet.kt:305 | a string never sorts before itself, and a proper prefix sorts before the longer string |
| Text.EqualsIgnoreCase | app/src/main/java/com/example/mood/ui/InfluenceCardBuilder.kt:71 | equal strings match, and matching strings have the same length |
| Text.ContainsIgnoreCase | app/src/main/java/com/example/mood/ui/AddEntrySheet.kt:303 | the empty query is contained everywhere, and a contained query is no longer than the text |
| Sorting.Insert | app/src/main/java/com/example/mood/util/InfluenceMath.kt:13-15 | one insertion step adds exactly the inserted element |
| Sorting.SortBy | app/src/main/java/com/example/mood/util/InfluenceMath.kt:13-15 | `sortedWith` returns a permutation of its input |
| Sorting.InsertStable | app/src/main/java/com/example/mood/util/InfluenceMath.kt:13-15 | inserting an element that comes first by position keeps the list stably sorted |
| Sorting.SortByIsStable | app/src/main/java/com/example/mood/util/InfluenceMath.kt:13-15 | the sort orders by the comparator and keeps tied elements in input order |
| Sorting.StablySortedIsSorted | app/src/main/java/com/example/mood/util/InfluenceMath.kt:13-15 | a stably sorted list is sorted |
| Sorting.SortByIsSorted | app/src/main/java/com/example/mood/util/InfluenceMath.kt:13-15 | no later element of the result goes strictly before an earlier one |
| Sorting.KeyOrder | app/src/main/java/com/example/mood/util/InfluenceMath.kt:14 | a comparator on a key inherits the key order's strict weak order |
| Sorting.Range | app/src/main/java/com/example/mood/util/InfluenceMath.kt:12 | the indices 0..n-1, in order |
| Sorting.Firsts | app/src/main/java/com/example/mood/util/InfluenceMath.kt:16 | `map { it.first }` keeps one first component per pair, in order |
| Sorting.FirstsAppend | app/src/main/java/com/example/mood/util/InfluenceMath.kt:16 | projecting first components distributes over concatenation |
| Sorting.MapFirstOfPermutation | app/src/main/java/com/example/mood/util/InfluenceMath.kt:16 | projecting two permutations of each other gives permutations of each other |
| LedgerStore.SaveEntriesForDay | app/src/main/java/com/example/mood/data/LedgerStore.kt:86-104 | loading the day gives the saved list back, every other day reads as before, and nothing else in the store changes |
| LedgerStore.LoadDaysWithEntries | app/src/main/java/com/example/mood/data/LedgerStore.kt:71-83 | exactly the days whose entry list is non-empty |
| LedgerStore.LoadEntriesForDay | app/src/main/java/com/example/mood/data/LedgerStore.kt:58-69 | a day not stored reads as no entries, a stored one as its list |
| LedgerStore.LoadDailyReflection | app/src/main/java/com/example/mood/data/LedgerStore.kt:108-119 | a day has a reflection exactly when one is stored under its key |
| LedgerStore.LoadTagStats | app/src/main/java/com/example/mood/data/LedgerStore.kt:141-147 | a store never written to has no tag stats |
| LedgerStore.ApplyEntry | app/src/main/java/com/example/mood/data/LedgerStore.kt:158-201 | every count stored after a save is positive |
| LedgerStore.RemoveEntry | app/src/main/java/com/example/mood/data/LedgerStore.kt:203-222 | every count stored after a delete is positive |
| LedgerStore.DaysWithEntriesAfterSave | app/src/main/java/com/example/mood/data/LedgerStore.kt:80-82 | saving an empty list takes the day out of the days with entries, a non-empty one puts it in, and other days are unaffected |
| LedgerStore.SaveDailyReflection | app/src/main/java/com/example/mood/data/LedgerStore.kt:121-138 | the reflection is read back under its date, other dates and the rest of the store are unchanged |
| LedgerStore.SaveWeeklyReflection | app/src/main/java/com/example/mood/data/LedgerStore.kt:238-253 | the reflection is read back under its week start, other weeks and the rest of the store are unchanged |
| LedgerStore.SaveMonthlyReflection | app/src/main/java/com/example/mood/data/LedgerStore.kt:344-359 | the reflection is read back under its month key, other months and the rest of the store are unchanged |
| LedgerStore.SaveBallLayout | app/src/main/java/com/example/mood/data/LedgerStore.kt:420-450 | `loadBallLayout` of the day returns the saved angles, other days and the rest of the store are unchanged |
| LedgerStore.SaveInfluenceOverride | app/src/main/java/com/example/mood/data/LedgerStore.kt:451-476 | the override is read back under its tag, replacing any earlier one; other tags and the rest of the store are unchanged |
| LedgerStore.SaveTagStats | app/src/main/java/com/example/mood/data/LedgerStore.kt:141-156 | `loadTagStats` returns the saved map and nothing else in the store changes |
| LedgerStore.DropNonPositive | app/src/main/java/com/example/mood/data/LedgerStore.kt:190-192 | keeps exactly the stats with a positive count, unchanged |
| LedgerStore.ApplyEntryToTagStats | app/src/main/java/com/example/mood/data/LedgerStore.kt:158-201 | the tag-by-tag loops store the previous entry taken out, the new one added and empty tags dropped; every stored count is positive |
| LedgerStore.RemoveEntryFromTagStats | app/src/main/java/com/example/mood/data/LedgerStore.kt:203-222 | the loop stores the entry taken out of its tags and empty tags dropped; every stored count is positive |
| LedgerStore.IncrementAllAt | app/src/main/java/com/example/mood/data/LedgerStore.kt:177-187 | a tag listed n times gains n entries of the delta, starting from nothing when it had no stats |
| LedgerStore.DecrementAllAt | app/src/main/java/com/example/mood/data/LedgerStore.kt:166-174 | a tag with stats listed n times loses n entries of the delta; a tag without stats is skipped, not created |
| LedgerStore.AddedTagAt | app/src/main/java/com/example/mood/data/LedgerStore.kt:177-192 | a new tag survives the clean-up with one count per occurrence |
| LedgerStore.NewTagStartsFresh | app/src/main/java/com/example/mood/data/LedgerStore.kt:177-181 | a tag of the new entry without stats is stored with one count per occurrence; listed once, it is `TagStats(tag, 1, delta)` |
| LedgerStore.MissingTagsNotCreated | app/src/main/java/com/example/mood/data/LedgerStore.kt:158-222 | a previous entry's tag without stats is skipped, not created, and removing an entry never creates a tag |
| LedgerStore.UntouchedTagsKept | app/src/main/java/com/example/mood/data/LedgerStore.kt:158-222 | tags neither version carries keep their positive-count stats unchanged |
| LedgerStore.ApplyThenRemoveRestores | app/src/main/java/com/example/mood/data/LedgerStore.kt:158-222 | applying a new entry and then removing it restores stats whose counts were all positive, repeated tags included |
| LedgerStore.LoadWeeklyMood | app/src/main/java/com/example/mood/data/LedgerStore.kt:256-288 | seven points for weekStart..weekStart + 6, each scored as baseline plus deltas plus any drift |
| LedgerStore.WeeklyMoodOfEmptyStore | app/src/main/java/com/example/mood/data/LedgerStore.kt:262-287 | a week with nothing stored scores the baseline every day |
| InfluenceCard.CountTier | app/src/main/java/com/example/mood/ui/InfluenceCardBuilder.kt:28-42 | a tier count is at most the number of entries, and 0 when no entry falls into the tier |
| InfluenceCard.CountNonZero | app/src/main/java/com/example/mood/ui/InfluenceCardBuilder.kt:28-42 | the entries with a non-zero delta are at most all the entries |
| InfluenceCard.TiersPartition | app/src/main/java/com/example/mood/ui/InfluenceCardBuilder.kt:28-42 | a zero delta falls into no tier, and a non-zero delta into exactly one |
| InfluenceCard.TierCountsSum | app/src/main/java/com/example/mood/ui/InfluenceCardBuilder.kt:28-42 | the four tier counts add up to the number of entries with a non-zero delta |
| InfluenceCard.RankOf | app/src/main/java/com/example/mood/ui/InfluenceCardBuilder.kt:48-54 | Common for 0..10, Uncommon for 11..25, Rare for 26..100, Legendary otherwise, negative counts included |
| InfluenceCard.RankMonotone | app/src/main/java/com/example/mood/ui/InfluenceCardBuilder.kt:48-54 | for non-negative counts the rank never drops as the count grows |
| InfluenceCard.BuildInfluenceCardModel | app/src/main/java/com/example/mood/ui/InfluenceCardBuilder.kt:17-96 | name and average are the tag's; green exactly when the average is non-negative; each tier count is the number of entries whose delta falls in that tier, and the four sum to the non-zero entries; the rank is the one the tag's entry count earns; the coding image exactly when the tag contains "code" and the coding text exactly when it equals "coding", ignoring case; empty type, no subtype, no image path |
| InfluenceCard.CodingTagKeepsDefaultImage | app/src/main/java/com/example/mood/ui/InfluenceCardBuilder.kt:57-78 | the tag "Coding" gets the coding description but the default image |
| InfluenceCard.CodingLacksCode | app/src/main/java/com/example/mood/ui/InfluenceCardBuilder.kt:59 | "code" does not occur in "Coding", in any case |
| InfluenceCard.CodeTagGetsCodingImage | app/src/main/java/com/example/mood/ui/InfluenceCardBuilder.kt:57-64 | any tag containing "CODE", in any case, shows the coding image |
| AddEntry.AverageOf | app/src/main/java/com/example/mood/ui/AddEntrySheet.kt:340 | a tag's average, or 0 without stats |
| AddEntry.TagColor | app/src/main/java/com/example/mood/ui/AddEntrySheet.kt:339-364 | the chip colour is the band of the tag's average, white for a tag without stats |
| AddEntry.ColorBands | app/src/main/java/com/example/mood/ui/AddEntrySheet.kt:342-363 | white exactly at 0; soft, medium, strong green split at 0.75 and 1.25; soft, medium, strong red split at -0.75 and -1.25 |
| AddEntry.ColorMonotone | app/src/main/java/com/example/mood/ui/AddEntrySheet.kt:342-363 | a larger average never gets a redder colour |
| AddEntry.CommitTag | app/src/main/java/com/example/mood/ui/AddEntrySheet.kt:263-264 | blank text adds nothing; other text is appended once, trimmed, without de-duplication |
| AddEntry.RemoveFirst | app/src/main/java/com/example/mood/ui/AddEntrySheet.kt:252 | `tags - tag` removes one occurrence when there is one and nothing otherwise |
| AddEntry.RemoveFirstOccurrence | app/src/main/java/com/example/mood/ui/AddEntrySheet.kt:252 | the removed occurrence is the first; later copies are kept |
| AddEntry.Matching | app/src/main/java/com/example/mood/ui/AddEntrySheet.kt:302-304 | exactly the keys containing the query, ignoring case, that are not selected |
| AddEntry.Suggestions | app/src/main/java/com/example/mood/ui/AddEntrySheet.kt:299-307 | at most five suggestions |
| AddEntry.SuggestionsSpec | app/src/main/java/com/example/mood/ui/AddEntrySheet.kt:299-307 | nothing for a blank query; only matching, unselected keys, in string order; all of them when fewer than five; and none left out sorts before one shown |
| AddEntry.SortedPrefix | app/src/main/java/com/example/mood/ui/AddEntrySheet.kt:305-306 | `take` of a sorted list holds only its elements, in order, and nothing left out sorts before them |
| AddEntry.EntrySheet.constructor | app/src/main/java/com/example/mood/ui/AddEntrySheet.kt:72-99 | every field starts from the edited entry, or empty |
| AddEntry.EntrySheet.OnDeltaChange | app/src/main/java/com/example/mood/ui/AddEntrySheet.kt:441 | the slider stores the snapped value, in [-2, 2]; nothing else changes |
| AddEntry.EntrySheet.OnTagsTextChange | app/src/main/java/com/example/mood/ui/AddEntrySheet.kt:260-270 | a trailing comma commits the text before it and clears the field; other input just becomes the text |
| AddEntry.EntrySheet.OnDone | app/src/main/java/com/example/mood/ui/AddEntrySheet.kt:278-282 | Done commits the current text and clears the field |
| AddEntry.EntrySheet.OnRemoveChip | app/src/main/java/com/example/mood/ui/AddEntrySheet.kt:252 | the chip's tag is removed once; nothing else changes |
| AddEntry.EntrySheet.OnTagSelected | app/src/main/java/com/example/mood/ui/AddEntrySheet.kt:541-544 | a picked suggestion is appended and the field cleared |
| AddEntry.EntrySheet.Save | app/src/main/java/com/example/mood/ui/AddEntrySheet.kt:138-150 | an edited entry keeps its id and timestamp, a new one takes the fresh id and the clock; the other fields are the sheet's |
| Today.FirstIndex | app/src/main/java/com/example/mood/MainActivity.kt:254 | the position of the first occurrence, or the length when there is none |
| Today.FirstIndexOfPrefix | app/src/main/java/com/example/mood/MainActivity.kt:254 | appending does not move a first occurrence |
| Today.Distinct | app/src/main/java/com/example/mood/MainActivity.kt:254 | `distinct()` keeps every element once, in order of first occurrence |
| Today.Scored | app/src/main/java/com/example/mood/MainActivity.kt:255-257 | each tag is paired with its average, 0 without stats |
| Today.OrderTagsByImpact | app/src/main/java/com/example/mood/MainActivity.kt:249-262 | one tag per distinct input tag |
| Today.OrderTagsByImpactSpec | app/src/main/java/com/example/mood/MainActivity.kt:253-261 | exactly the day's tags, each once, by average from high to low, ties in order of first occurrence |
| Today.SortedScoresAreAverages | app/src/main/java/com/example/mood/MainActivity.kt:255-260 | the sorted pairs still carry their tags' averages |
| Today.SortedScoresAreStable | app/src/main/java/com/example/mood/MainActivity.kt:258-260 | the sort orders by average and keeps ties in order of first occurrence |
| Today.SameTags | app/src/main/java/com/example/mood/MainActivity.kt:258-261 | sorting keeps the set of tags |
| Today.FeelingEmoji | app/src/main/java/com/example/mood/MainActivity.kt:264-278 | the neutral dot exactly for a feeling not listed, after lowering its case |
| Today.FeelingEmojiIgnoresCase | app/src/main/java/com/example/mood/MainActivity.kt:265 | feelings equal up to case get the same emoji |
| Today.FrustratedShowsNeutralDot | app/src/main/java/com/example/mood/MainActivity.kt:264-278 | "Frustrated" has no emoji of its own |
| Today.DeltaLabel | app/src/main/java/com/example/mood/MainActivity.kt:337-342 | an up arrow exactly for a positive delta and a down arrow exactly for a negative one, followed by the magnitude; zero shows "— 0.00" |
| Today.DeltaLabelMirror | app/src/main/java/com/example/mood/MainActivity.kt:339-340 | opposite deltas show the same number under different arrows |
| Today.Lerp | app/src/main/java/com/example/mood/MainActivity.kt:329-330 | `lerp` gives the start at 0, the end at 1, and stays between them |
| Today.ScaleBetween | app/src/main/java/com/example/mood/MainActivity.kt:282 | a fraction of a non-negative value stays between 0 and the value |
| Today.Clamp2 | app/src/main/java/com/example/mood/MainActivity.kt:281 | `coerceIn(-2, 2)` lies in [-2, 2], keeps values inside, and keeps the sign |
| Today.DeltaColor | app/src/main/java/com/example/mood/MainActivity.kt:280-300 | white at 0, pure green from 2 on, pure red from -2 down, between white and the target otherwise, always opaque |
| Today.TagImpactColor | app/src/main/java/com/example/mood/MainActivity.kt:301-326 | white at 0, the target colour at alpha 200 from magnitude 2 on, channels between white and the target otherwise |
| Today.MoodValueColor | app/src/main/java/com/example/mood/MainActivity.kt:744-750 | green, red or white by sign alone |
| Today.ColoursAgreeOnSign | app/src/main/java/com/example/mood/MainActivity.kt:280-326 | both colour functions give white for the same values |
| Today.ComputedScore | app/src/main/java/com/example/mood/MainActivity.kt:357-358 | the computed score is the baseline plus the deltas |
| Today.FinalScore | app/src/main/java/com/example/mood/MainActivity.kt:359 | the reflection score when there is one, the computed score otherwise |
| Today.Drift | app/src/main/java/com/example/mood/MainActivity.kt:360 | the drift is 0 without a reflection and always takes the computed score to the final one |
| Today.ReloadedScore | app/src/main/java/com/example/mood/MainActivity.kt:417-425 | a score exactly when a reflection is stored: the day score with its drift |
| Today.ReflectionRoundTrip | app/src/main/java/com/example/mood/MainActivity.kt:585-603 | saving a score as its drift from the computed score and reloading the day gives back exactly that score |
| Today.DriftFollowsEntries | app/src/main/java/com/example/mood/MainActivity.kt:417-425 | with a stored drift the reloaded score moves exactly as the entries' sum |
| Today.RemoveById | app/src/main/java/com/example/mood/MainActivity.kt:492 | `filterNot { it.id == id }` keeps exactly the entries with another id |
| Today.RemoveByIdCounts | app/src/main/java/com/example/mood/MainActivity.kt:492 | every other entry is kept as often as before |
| Today.Upsert | app/src/main/java/com/example/mood/MainActivity.kt:620-623 | one more entry than the others with a different id |
| Today.UpsertSpec | app/src/main/java/com/example/mood/MainActivity.kt:620-623 | the saved entry occurs once and is the only one with its id, every other entry is kept as often as before, and the list is ordered by timestamp |
| Today.DeleteSpec | app/src/main/java/com/example/mood/MainActivity.kt:491-493 | no entry with the id is left and every other entry is kept as often as before |
| Today.TodayScreen.constructor | app/src/main/java/com/example/mood/MainActivity.kt:375-425 | opening a day loads its entries, stats and reflection score, so the score shown is the one the store gives for the day |
| Today.TodayScreen.OnSaveEntry | app/src/main/java/com/example/mood/MainActivity.kt:616-642 | the entries are upserted and stored, the tag stats updated with the previous version and reloaded, all counts positive; the stored reflection is untouched, and when the entries changed and the day has a reflection the score is recomputed from the new entries and its drift, otherwise it stays; the score stays the stored one |
| Today.TodayScreen.ReloadScore | app/src/main/java/com/example/mood/MainActivity.kt:417-425 | when the entries differ from before and the day has a stored reflection the score becomes baseline plus the deltas plus the drift; otherwise the score and everything else stay |
| Today.TodayScreen.OnDelete | app/src/main/java/com/example/mood/MainActivity.kt:491-500 | the entry is removed by id and the day stored, the entry taken out of the tag stats, and the stats reloaded, all counts positive; when the entries changed and the day has a reflection the score is recomputed, otherwise it stays; the score stays the stored one |
| Today.TodayScreen.OnSaveReflection | app/src/main/java/com/example/mood/MainActivity.kt:585-603 | the score is shown as given and stored as its drift, so reloading the day gives it back and the score shown is the stored one |
| Today.TotalCells | app/src/main/java/com/example/mood/MainActivity.kt:834 | the cell count is a multiple of 7, covers the offset and every day, and has fewer than 7 cells to spare |
| Today.CalendarCells | app/src/main/java/com/example/mood/MainActivity.kt:834-846 | cell c shows day c - offset + 1 when that is a day of the month, and is blank otherwise |
| Today.EachDayInOneCell | app/src/main/java/com/example/mood/MainActivity.kt:842-846 | every day of the month lands in exactly one cell |
| Today.CanSelectDay | app/src/main/java/com/example/mood/MainActivity.kt:860 | a day can be picked only when it is not in the future, and today can always be picked |
| Today.NextMonth | app/src/main/java/com/example/mood/MainActivity.kt:806-812 | "next" moves on exactly while the month shown is before the current one |
| Today.NextNeverPassesCurrent | app/src/main/java/com/example/mood/MainActivity.kt:806-812 | no number of "next" clicks shows a month after the current one |
| Influences.DefaultAscending | app/src/main/java/com/example/mood/ui/Influences.kt:115-165 | a newly chosen chip sorts ascending only for A–Z; Count and Intensity start high to low |
| Influences.ClickChip | app/src/main/java/com/example/mood/ui/Influences.kt:115-165 | the clicked chip becomes active; clicking the active chip flips the direction, clicking another one resets it to that chip's default |
| Influences.ClickActiveTwice | app/src/main/java/com/example/mood/ui/Influences.kt:116-118 | clicking the active chip twice restores the state |
| Influences.SwitchingForgetsDirection | app/src/main/java/com/example/mood/ui/Influences.kt:115-165 | leaving a chip and coming back gives its default direction, whatever it was before |
| Influences.VisibleTags | app/src/main/java/com/example/mood/ui/Influences.kt:181-200 | the list shown has as many tags as there are |
| Influences.SortRelationIsOrder | app/src/main/java/com/example/mood/ui/Influences.kt:183-199 | each of the six orders the chips select is a strict weak order |
| Influences.VisibleTagsSpec | app/src/main/java/com/example/mood/ui/Influences.kt:181-200 | the list shown is a permutation of the tags, ordered by lowered name, count or absolute average, ascending or descending as chosen |
| Influences.InitialTags | app/src/main/java/com/example/mood/ui/Influences.kt:54-60 | the first list is the A–Z ascending order |
| Influences.InitialTagsSorted | app/src/main/java/com/example/mood/ui/Influences.kt:55-59 | the first list is a permutation of the stored stats, sorted by lowered name |
| Influences.WithTag | app/src/main/java/com/example/mood/ui/Influences.kt:74 | keeps exactly the entries carrying the tag, each as often as before |
| Influences.GatheredMembers | app/src/main/java/com/example/mood/ui/Influences.kt:70-75 | an entry is gathered exactly when it carries the tag and is stored under one of the listed days |
| Influences.CollectInfluenceEntries | app/src/main/java/com/example/mood/ui/Influences.kt:62-77 | the entries are those gathered, as a multiset, every entry of any day that carries the tag, newest first |
| Influences.GatherTagged | app/src/main/java/com/example/mood/ui/Influences.kt:68-75 | the loop over the days builds the concatenation of each day's tagged entries |
| Influences.GatheredFromAllDays | app/src/main/java/com/example/mood/ui/Influences.kt:65-75 | because the listed days are all days with entries, gathering misses no tagged entry in the store |
| Influences.ToggleExpanded | app/src/main/java/com/example/mood/ui/Influences.kt:310-313 | tapping an entry expands it unless it is the expanded one, which collapses |
| Influences.ToggleTwice | app/src/main/java/com/example/mood/ui/Influences.kt:311-312 | tapping the same entry twice restores the state |
| Influences.InfluencesScreen.constructor | app/src/main/java/com/example/mood/ui/Influences.kt:44-60 | the screen opens A–Z ascending on the stored stats, with nothing selected |
| Influences.InfluencesScreen.Visible | app/src/main/java/com/example/mood/ui/Influences.kt:181-200 | the list shown follows the screen's sort mode and direction |
| Influences.InfluencesScreen.OnChip | app/src/main/java/com/example/mood/ui/Influences.kt:114-175 | a chip click changes only the sort mode and direction, as ClickChip says |
| Influences.InfluencesScreen.OnSelect | app/src/main/java/com/example/mood/ui/Influences.kt:62-78 | selecting a tag loads every stored entry carrying it, newest first; the list order is unchanged |
| Influences.InfluencesScreen.OnDismiss | app/src/main/java/com/example/mood/ui/Influences.kt:266-269 | closing the sheet clears the selection, its entries and the expanded entry |
| Influences.InfluencesScreen.OnEntryClick | app/src/main/java/com/example/mood/ui/Influences.kt:310-313 | tapping an entry toggles its expansion and nothing else |
| Trends.SlotCount | app/src/main/java/com/example/mood/WeeklyMoodBarChart.kt:122-127 | 7 slots for a week, 5 for a month, 12 for a year |
| Trends.LastBarEndsAtWidth | app/src/main/java/com/example/mood/WeeklyMoodBarChart.kt:156-177 | a bar and its spacing take one slot's share of the width, and the last bar ends exactly at the right edge |
| Trends.TapIndex | app/src/main/java/com/example/mood/WeeklyMoodBarChart.kt:140-142 | the tapped index is an Int, saturated as Kotlin's `toInt` does |
| Trends.TapOnBarOrGap | app/src/main/java/com/example/mood/WeeklyMoodBarChart.kt:135-142 | a tap on bar k, or in the gap after it, selects slot k |
| Trends.TapLeftOfFirstBar | app/src/main/java/com/example/mood/WeeklyMoodBarChart.kt:135-142 | a tap in the margin before the first bar still selects slot 0, because `toInt` truncates toward zero |
| Trends.VisibleData | app/src/main/java/com/example/mood/WeeklyMoodBarChart.kt:119-120 | keeps exactly the points not after today |
| Trends.TapTargetSpec | app/src/main/java/com/example/mood/WeeklyMoodBarChart.kt:144-149 | a tap opens a day exactly when its index holds a visible point; the day is that point's and never after today |
| Trends.DailyScores | app/src/main/java/com/example/mood/WeeklyMoodBarChart.kt:336-360 | one score per day from start to end, each the day's stored score with its drift |
| Trends.ComputeDailyAverage | app/src/main/java/com/example/mood/WeeklyMoodBarChart.kt:329-368 | null for an empty range, otherwise the mean of the daily scores |
| Trends.QuietPeriodAveragesBaseline | app/src/main/java/com/example/mood/WeeklyMoodBarChart.kt:329-368 | a period without entries or reflections averages exactly the baseline |
| Trends.WeeklyAverage | app/src/main/java/com/example/mood/WeeklyMoodBarChart.kt:421-428 | the mean score of the days up to today, or 0 when none has come yet |
| Trends.WeeklyAverageSpec | app/src/main/java/com/example/mood/WeeklyMoodBarChart.kt:421-428 | the average lies between the lowest and highest score averaged, and points after today do not change it |
| Trends.VisibleOfFuture | app/src/main/java/com/example/mood/WeeklyMoodBarChart.kt:421-422 | appending future points does not change the visible points |
| Trends.VisibleOfFutureOnly | app/src/main/java/com/example/mood/WeeklyMoodBarChart.kt:421-422 | only future points leave nothing visible |
| Trends.WeeklyNote | app/src/main/java/com/example/mood/WeeklyMoodBarChart.kt:490-496 | the weekly reflection's note, or empty text when none is stored |
| Trends.MonthlyNote | app/src/main/java/com/example/mood/WeeklyMoodBarChart.kt:499-507 | the monthly reflection's note, or empty text when none is stored |
| Trends.TrendsScreen.DataFor | app/src/main/java/com/example/mood/WeeklyMoodBarChart.kt:479-488 | the week's bars are the store's seven scores from the week start; the month's and the year's are their loads |
| Trends.TrendsScreen.constructor | app/src/main/java/com/example/mood/WeeklyMoodBarChart.kt:371-387 | the chart opens on the week view at the given week, with that week's bars and weekly reflection loaded and no monthly reflection |
| Trends.TrendsScreen.Reload | app/src/main/java/com/example/mood/WeeklyMoodBarChart.kt:479-510 | the bars of the range and position shown are loaded; the weekly reflection is reloaded in the week view, the monthly one in the month view, and the other is kept |
| Trends.TrendsScreen.OnRangeChange | app/src/main/java/com/example/mood/WeeklyMoodBarChart.kt:391-410 | choosing the range already shown changes nothing; another range resets the month or the year to the current one and loads the bars and reflection of the new period |
| Trends.TrendsScreen.OnPreviousWeek | app/src/main/java/com/example/mood/WeeklyMoodBarChart.kt:574 | the week moves back 7 days and its bars and weekly reflection are loaded; the range, month and year stay |
| Trends.TrendsScreen.OnNextWeek | app/src/main/java/com/example/mood/WeeklyMoodBarChart.kt:583 | the week moves on 7 days, even into the future, and its bars and weekly reflection are loaded |
| Trends.TrendsScreen.OnPreviousMonth | app/src/main/java/com/example/mood/WeeklyMoodBarChart.kt:594-596 | the month moves back one and its bars and monthly reflection are loaded |
| Trends.TrendsScreen.OnNextMonth | app/src/main/java/com/example/mood/WeeklyMoodBarChart.kt:607-612 | the month moves on only up to the current month, which it never passes, and then its bars are loaded; at the current month nothing changes |
| Trends.TrendsScreen.OnPreviousYear | app/src/main/java/com/example/mood/WeeklyMoodBarChart.kt:624-626 | the year moves back one and its bars are loaded |
| Trends.TrendsScreen.OnNextYear | app/src/main/java/com/example/mood/WeeklyMoodBarChart.kt:635-639 | the year moves on only while it is before the current year, which it never passes, and then its bars are loaded; otherwise nothing changes |
| Trends.TapTarget | app/src/main/java/com/example/mood/WeeklyMoodBarChart.kt:135-149 | a tap opens at most a day of the data, never one after today |
| SealDrawing.SumAbs | app/src/main/java/com/example/mood/ui/draw/MoodSealDrawers.kt:32-34 | the sum of the deltas' magnitudes is non-negative |
| SealDrawing.TotalAbs | app/src/main/java/com/example/mood/ui/draw/MoodSealDrawers.kt:32-35 | the total is at least 0.01 and equals the sum whenever the sum reaches 0.01 |
| SealDrawing.ThicknessBounds | app/src/main/java/com/example/mood/ui/draw/MoodSealDrawers.kt:46-49 | a band is between the base and the base plus the extra thickness, full from magnitude 2 on, and thicker for larger magnitudes |
| SealDrawing.Thickness | app/src/main/java/com/example/mood/ui/draw/MoodSealDrawers.kt:46-49 | a band is between the base and the base plus the extra thickness, and exactly the base for a zero delta |
| SealDrawing.InfluenceBands | app/src/main/java/com/example/mood/ui/draw/MoodSealDrawers.kt:23-77 | one band per entry, none for no entries, the first at -160 degrees, each starting where the previous ends |
| SealDrawing.DrawBand | app/src/main/java/com/example/mood/ui/draw/MoodSealDrawers.kt:41-76 | a band's sweep is its share of 320 degrees, its thickness and colour follow its delta |
| SealDrawing.BandStartStep | app/src/main/java/com/example/mood/ui/draw/MoodSealDrawers.kt:76 | each band starts where the previous one ends |
| SealDrawing.BandsFillTheArc | app/src/main/java/com/example/mood/ui/draw/MoodSealDrawers.kt:32-44 | the bands cover exactly 320 degrees when the magnitudes sum to 0.01 or more, proportionally less otherwise |
| SealDrawing.SweepsProportional | app/src/main/java/com/example/mood/ui/draw/MoodSealDrawers.kt:41-44 | the sweeps are proportional to the deltas' magnitudes |
| SealDrawing.EntryDots | app/src/main/java/com/example/mood/ui/draw/MoodSealDrawers.kt:118-128 | no dots when there are no entries or too few angles; otherwise one dot per entry at its angle |
| SealDrawing.NormalizedBaseStart | app/src/main/java/com/example/mood/ui/draw/MoodSealDrawers.kt:203-204 | the label ring's start is -160 degrees plus the rotation, brought into [0, 360) |
| SealDrawing.BaseStartPeriodic | app/src/main/java/com/example/mood/ui/draw/MoodSealDrawers.kt:203-204 | whole turns of rotation do not move the start |
| SealDrawing.TagSweep | app/src/main/java/com/example/mood/ui/draw/MoodSealDrawers.kt:217-222 | a label's arc is its measured arc, at least the minimum, plus the padding |
| SealDrawing.TagSweeps | app/src/main/java/com/example/mood/ui/draw/MoodSealDrawers.kt:217-222 | one arc per label |
| SealDrawing.SweepScale | app/src/main/java/com/example/mood/ui/draw/MoodSealDrawers.kt:224-226 | the scale factor lies in (0, 1] |
| SealDrawing.Scaled | app/src/main/java/com/example/mood/ui/draw/MoodSealDrawers.kt:232 | every arc is multiplied by the factor |
| SealDrawing.ScaledSweeps | app/src/main/java/com/example/mood/ui/draw/MoodSealDrawers.kt:224-232 | one scaled arc per label |
| SealDrawing.SumScaled | app/src/main/java/com/example/mood/ui/draw/MoodSealDrawers.kt:224-232 | scaling every arc scales their sum |
| SealDrawing.ScaledSweepsSpec | app/src/main/java/com/example/mood/ui/draw/MoodSealDrawers.kt:217-232 | arcs fitting in 282 degrees are kept; otherwise they are shrunk to fill exactly 282; each stays positive |
| SealDrawing.ActiveIffWithinSweep | app/src/main/java/com/example/mood/ui/draw/MoodSealDrawers.kt:241-246 | a touch activates a label exactly when it lies within the label's sweep from its start, across 0 degrees included |
| SealDrawing.ActiveIndices | app/src/main/java/com/example/mood/ui/draw/MoodSealDrawers.kt:241-248 | exactly the indices of the active labels, in increasing order |
| SealDrawing.ActiveStep | app/src/main/java/com/example/mood/ui/draw/MoodSealDrawers.kt:248 | one more label adds its index exactly when it is active |
| SealDrawing.ArcAt | app/src/main/java/com/example/mood/ui/draw/MoodSealDrawers.kt:236-239 | a label's start and end lie in [0, 360) and the end is the start plus the sweep, modulo 360 |
| SealDrawing.ArcsAreContiguous | app/src/main/java/com/example/mood/ui/draw/MoodSealDrawers.kt:228-310 | the first label starts at the base and each one starts where the previous one ends |
| SealDrawing.TagArcs | app/src/main/java/com/example/mood/ui/draw/MoodSealDrawers.kt:231-321 | the loop computes every label's arc and the indices of the active labels |
| SealDrawing.LabelArc | app/src/main/java/com/example/mood/ui/draw/MoodSealDrawers.kt:236-239 | the arc computed from the running offset is the label's arc |
| SealDrawing.ArcStep | app/src/main/java/com/example/mood/ui/draw/MoodSealDrawers.kt:236-239 | Kotlin's truncated remainder agrees with the canonical angle for the non-negative offsets the loop produces |
| ObsidianExport.DigitChar | app/src/main/java/com/example/mood/export/ObsidianExport.kt:52 | a digit's character |
| ObsidianExport.NatToString | app/src/main/java/com/example/mood/export/ObsidianExport.kt:52 | decimal digits without a leading zero |
| ObsidianExport.IntToString | app/src/main/java/com/example/mood/export/ObsidianExport.kt:52 | a minus sign exactly for negative numbers |
| ObsidianExport.NatToStringRoundTrip | app/src/main/java/com/example/mood/export/ObsidianExport.kt:52 | reading the digits back gives the number |
| ObsidianExport.NatDigitsInjective | app/src/main/java/com/example/mood/export/ObsidianExport.kt:52 | different numbers give different digits |
| ObsidianExport.IntToStringInjective | app/src/main/java/com/example/mood/export/ObsidianExport.kt:52 | different Ints print differently |
| ObsidianExport.PercentBounds | app/src/main/java/com/example/mood/export/ObsidianExport.kt:38-39 | a score in [0, 10] gives a width in [0, 100], the score times ten truncated |
| ObsidianExport.Percent | app/src/main/java/com/example/mood/export/ObsidianExport.kt:38-39 | a score in [0, 10] gives a width in [0, 100] |
| ObsidianExport.DayBlock | app/src/main/java/com/example/mood/export/ObsidianExport.kt:33-57 | a day's block is one row element: it starts with the row's opening line and ends with its closing tag |
| ObsidianExport.WeeklyDocument | app/src/main/java/com/example/mood/export/ObsidianExport.kt:65-86 | the weekly note ends with a line feed; `WeeklyStartsWithFrontMatter` and `WeeklyEndsWithReflection` state how it starts and ends |
| ObsidianExport.BarColor | app/src/main/java/com/example/mood/export/ObsidianExport.kt:41-45 | green exactly from the baseline 5 up, red below it |
| ObsidianExport.AppendBlocksPrefix | app/src/main/java/com/example/mood/export/ObsidianExport.kt:32-58 | appending day blocks only extends the text, one day at a time |
| ObsidianExport.AppendDayBlocks | app/src/main/java/com/example/mood/export/ObsidianExport.kt:32-58 | the loop appends one block per day, in order |
| ObsidianExport.AppendBlocksStep | app/src/main/java/com/example/mood/export/ObsidianExport.kt:47-57 | each step appends exactly the next day's block |
| ObsidianExport.BuildVibesSection | app/src/main/java/com/example/mood/export/ObsidianExport.kt:28-63 | the builder produces the heading, the day blocks, and the average line |
| ObsidianExport.VibesSectionBlocks | app/src/main/java/com/example/mood/export/ObsidianExport.kt:28-63 | the section starts with its heading, and the blocks of the first k days follow it in order |
| ObsidianExport.WeeklyAverage | app/src/main/java/com/example/mood/export/ObsidianExport.kt:22-26 | the average times the number of days is the scores' sum, and 0 for no days |
| ObsidianExport.WeeklyAverageOfLoadedWeek | app/src/main/java/com/example/mood/export/ObsidianExport.kt:18-26 | the loaded week always has seven days, so the average is their sum over seven |
| ObsidianExport.ReflectionBody | app/src/main/java/com/example/mood/export/ObsidianExport.kt:80-85 | a blank reflection becomes the placeholder; any other is kept verbatim |
| ObsidianExport.ExportWeeklyReflection | app/src/main/java/com/example/mood/export/ObsidianExport.kt:9-94 | the file is weekly-<start>.md and the note is the document of the loaded week and the reflection |
| ObsidianExport.WeeklyStartsWithFrontMatter | app/src/main/java/com/example/mood/export/ObsidianExport.kt:65-69 | the note starts with its front matter |
| ObsidianExport.WeeklyEndsWithReflection | app/src/main/java/com/example/mood/export/ObsidianExport.kt:80-85 | the note ends with the reflection, or the placeholder, and a newline |
| ObsidianExport.WeeklyFileName | app/src/main/java/com/example/mood/export/ObsidianExport.kt:91 | the weekly file name is weekly- with the week's start date and .md |
| ObsidianExport.NameOf | app/src/main/java/com/example/mood/export/ObsidianExport.kt:91 | a file name is the prefix, the key and .md, each recoverable from it |
| ObsidianExport.MonthlyExport | app/src/main/java/com/example/mood/export/ObsidianExport.kt:98-121 | the monthly file is monthly-<key>.md |
| ObsidianExport.MonthlyContentRecoverable | app/src/main/java/com/example/mood/export/ObsidianExport.kt:112-119 | the monthly note is its heading followed by the reflection verbatim |
| ObsidianExport.FileNamesDistinct | app/src/main/java/com/example/mood/export/ObsidianExport.kt:91-110 | different weeks, and different months, give different file names |

## Left out

- DataStore access, JSON (de)serialisation and the coroutine plumbing of `LedgerStore` are not modelled. The store is the value `Prefs`, and each `load*` function is a plain map lookup that returns the default for a missing key. The save round-trips state what a load reads back.
- `Json.decodeFromString` throws when a stored value cannot be decoded (LedgerStore.kt lines 66, 78, 116, 146, 233, 339, 428, 456). That exception is not modelled: every stored value is taken to decode.
- `loadMonthlyMood` and `loadYearlyMood` are not modelled. They depend on `java.time` month and year arithmetic and the clock. The Trends screen takes them as the parameters `monthlyMood` and `yearlyMood`.
- The Trends screen's `visibleValue` (WeeklyMoodBarChart.kt lines 438-473) is not modelled. `Trends.ComputeDailyAverage` and `Trends.WeeklyAverage` model the values it is set to.
- The Trends screen is modelled in its settled state after each action. The moment after a range change when the bars are cleared but not yet reloaded is not modelled, nor is the order in which the two effects run.
- `writeMarkdownFile` and the `DocumentFile`/`contentResolver` writes are file I/O. The model stops at the file name and the text.
- Compose layout and all Canvas calls (`drawArc`, `drawCircle`, `drawTextOnPath`, paints, colours of strokes) are left out. Text widths from `measureText` are inputs (`raw` label arcs), and so is π.
- `LocalDate.now`, `System.currentTimeMillis` and `UUID.randomUUID` are parameters (`today`, `currentMonth`, `now`, `freshId`). Months and years are counted as integers.
- `DateTimeFormatter`, `LocalDate.toString` and `dayOfWeek.name` are parameters (`iso`, `dayName`, the monthly `key` and `title`). `"%.2f".format` is the parameter `fmt2`; only the surrounding text and the sign prefix are modelled.
- Kotlin `Float` is `real`: IEEE-754 rounding, NaN and infinities are not modelled. `Int` and `Long` are unbounded except for `Float.toInt()`, whose saturation is modelled.
- `lowercase`, `equals(ignoreCase)` and `contains(ignoreCase)` fold ASCII letters only.
- `onImpact` is modelled as a ghost sequence of reported strengths. The drag controller, haptic rate limiting and re-seeding of the ring are not in the modelled files.
- The `Log.d` call in `applyEntryToTagStats` is output only.
- The private `snapToQuarter` copy in `AddEntrySheet.kt` is textually identical to the one in `snapToQuarter.kt`. Both are modelled by `QuarterSnap.SnapToQuarter`.
- Colours between the end points of `deltaColor` and `tagImpactColor` are bounded channel by channel, not computed exactly. Only the end points and the ranges are stated.
- The month calendar's `firstDayOffset` and `daysInMonth` come from `java.time` and are inputs.
- UI-only files (reflection sheets, theme, test card, date keys, build scripts) and the data-only records beyond their fields are not modelled.
- Today.OrderTagsByImpact: its own contract states only the length; the set, uniqueness and order are stated by `Today.OrderTagsByImpactSpec`.
- Influences.VisibleTags: its own contract states only the length; the permutation and the order are stated by `Influences.VisibleTagsSpec`.
- AddEntry.Suggestions: its own contract states only the bound of five; the rest is stated by `AddEntry.SuggestionsSpec`.
- SealDrawing.ScaledSweeps: its own contract states only the length; the 282-degree cap is stated by `SealDrawing.ScaledSweepsSpec`.
- Trends.TapTarget: its own contract states only that the day comes from the data and is not after today; `Trends.TapTargetSpec` states which taps open which day.
