# Sculpture generator core in Dafny

This project models the core of `SculptureGenerator.py`. That file turns a ranked list of emotion
classifications and a 50-sample audio waveform into a layered 3D sculpture. The model covers four
parts of it:

- **Layer planner** (`Planner`, `set_params`). A rule engine that maps the ranked
  `(class_name, confidence)` entries to at most three layer records, stacked from the base upward.
  - `Profile` stands for a type-1 layer: a re-extruded polygon.
  - `Satellite` stands for a type-2 layer: bosses or spikes around a ring, or one piece at the centre.
- **Ring builder** (`Ring`, `get_polygon_points`). It computes the points of a deviated regular
  polygon, optionally mirror-symmetric about the X axis, then moves them so that their centroid
  lies at `(-r, 0)`.
- **Satellite mirroring** (`Satellites`). The in-place loop of `gen_type2` that makes satellite
  heights and sizes symmetric.
- **Build state and retries** (`Builder`). The class `SculptureGenerator` with the fields
  `old_center`, `cur_h` and `recent_points`, and the methods that change them:
  - the base builder and the two layer builders;
  - `shape_top`;
  - `generate`, with its two retry ladders.

The methods keep the source's loops and branches. Each one is proved equal to a specification
function, or to a predicate over its result, and the lemmas state what those functions guarantee.
The build state is the value `BuildState`, and each builder is specified by a function from the
state before the call to its outcome and the state after it:

- `Type1Step` and `Type2Step` for one layer;
- `BuildFrom` and `TopOutcome` for `shape_top`;
- `BaseOutcome`, `FirstBase`, `TopTry` and `FirstTop` for `generate` and its retries.

The solid-modelling library is not modelled. Every call into it is a `Feature` record holding the
numeric arguments the generator passes (placement move, radius, base height, extrusion height,
fillet radius), and a solid is the list of records in the order they are issued. An operation
either returns `Built(solid)` or `Raised(error)`:

- `IndexError`: a list index out of range;
- `TypeError`: a missing layer record or radius;
- `ZeroDivisionError`: a ring without points;
- `ValueError`: no `satisfied` entry;
- `KernelError`: any failure of the geometry kernel.

Inputs that are not computed by the core are passed in as parameters:

- **Trigonometry.** The unit-circle position of ring point `n` of `P` comes from a function
  `trig: (int, int) -> Point`.
- **Random draws.**
  - `Draws` holds the three `randint` values of one planner iteration.
  - `LayerDraws` holds the deviations, heights, sizes and corner counts of one layer, and whether
    the kernel accepts it.
  - `RandomBase` holds the random audio array and the value of `random.random()`.
  - `Attempt` holds all the draws of one retry of `generate`.

Three behaviours of the source are kept as written:

- A random base rebinds the radius `r` to the `random.random()` value (line 51). Its radius is
  therefore in `[0, 1)`.
- The symmetric band is `±r/20` of the module radius `r = 60`, not of the ring's own radius.
- The straight branch of `gen_type1` reads the type of the previous layer at line 483 without
  checking that there is one. A first layer with `bot_fillet` set raises `TypeError` there; see
  Findings.

A profile layer's radius is not always at least `bot_limit = 0.19 r`. The guard at line 192 tests
the nominal radius `top_limit - 0.15 r i`. For a third sad or sympathetic layer, line 197 then
emits the radius `0.15 r`, which is below `bot_limit`. `Planner.ThirdProfileBelowBotLimit` exhibits
such a plan.

## Model

| member | source | states |
|---|---|---|
| Ring.InBandPrefixMaximal | SculptureGenerator.py:270-279 | the points the counter `c` lets into `polygon_pts` are the maximal prefix of the ring with `y >= -r/20`: all of them are in the band, and the point after them is below it |
| Ring.AboveBandMembers | SculptureGenerator.py:280-281 | `pts_tomap` holds exactly the scanned points with `y >= r/20`, and never more points than were scanned |
| Ring.LastInBandIsLast | SculptureGenerator.py:282-283 | `temp` is the last scanned point with `y >= -r/20`; it is unset exactly when no scanned point is in the band |
| Ring.ScanAllPrefix | SculptureGenerator.py:270-283 | after the first `n` ring points, the counter pass holds the in-band prefix seen so far and its points above the band; past the first point below the band, it also holds the last in-band point since |
| Ring.ScanAllRing | SculptureGenerator.py:270-283 | over the whole ring, `polygon_pts` is the maximal in-band prefix, `pts_tomap` is its points with `y >= r/20`, and `temp` is the last in-band point after the point that ended the prefix |
| Ring.ScanSymmetric | SculptureGenerator.py:265-283 | the loop with the counter `c` leaves `polygon_pts`, `pts_tomap` and `temp` equal to the counter pass run over the raw ring points |
| Ring.SymmetricRing | SculptureGenerator.py:264-292 | the symmetric branch emits exactly the three-part selection: prefix, reflected and reversed `pts_tomap`, then `temp` |
| Ring.SymmetricSelectionParts | SculptureGenerator.py:264-292 | the symmetric output, before the shift, has three parts: (1) the maximal in-band prefix; (2) that prefix's points with `y >= r/20`, last first, with `y` negated; (3) one more point, present exactly when an in-band point follows the point that ended the prefix, and then equal to the last such point |
| Ring.PlainRing | SculptureGenerator.py:294-300 | the plain branch emits every raw ring point, in index order |
| Ring.Recentred | SculptureGenerator.py:302-309 | the re-centring fails with a division by zero exactly when the list is empty, and otherwise keeps the number of points |
| Ring.RecentredKeepsDifferences | SculptureGenerator.py:306-309 | re-centring moves every point by one common vector, so every pairwise difference is kept |
| Ring.RecentredCentroid | SculptureGenerator.py:302-309 | after re-centring, the centroid is exactly `(-r, 0)` |
| Ring.PolygonPointsShape | SculptureGenerator.py:248-311 | without symmetry: the result has `polygon_p_num` points in index order, fails only for an empty ring, and keeps all pairwise differences. With symmetry: a first point in the band rules out the failure. In both modes the centroid is `(-r, 0)` |
| Ring.GetPolygonPoints | SculptureGenerator.py:248-311 | `get_polygon_points` returns the re-centred selection of the raw ring points. It returns `None` for the `ZeroDivisionError` of an empty selection |
| Planner.SatisfiedIndex | SculptureGenerator.py:105 | `.index('satisfied')` is the position of a satisfied entry with none before it |
| Planner.PyRound | SculptureGenerator.py:190 | Python's `round` gives an integer within 0.5 of its argument, and breaks a tie to the even neighbour |
| Planner.SadMultiplierIsOne | SculptureGenerator.py:189-190 | `1 + round(confidence/4)` is 1 for every confidence in `(0.5, 1]` |
| Planner.ProfileRadius | SculptureGenerator.py:197 | the sad and sympathetic radius condition comes down to `i < 2`: the radius is `top_limit - 0.15 r i` below index 2 and `0.15 r` from index 2 on |
| Planner.Substitute | SculptureGenerator.py:115-122 | a satisfied entry under symmetry ends planning exactly at `i == 2` and is otherwise replaced by `response[0]`; an entry more than 0.3 weaker than its predecessor, or weaker than 0.15, is replaced by `response[0]`; any other entry is kept |
| Planner.SubstituteEmotion | SculptureGenerator.py:115-122 | the guards as written compute `Substitute` |
| Planner.DispatchEmotion | SculptureGenerator.py:124-241 | the branch on the emotion, with the `bot_fillet` flag of lines 109-113, computes `Dispatch` as written |
| Planner.SetParams | SculptureGenerator.py:84-246 | the loop, with its flags, early returns and `break`, computes `Plan` |
| Planner.DispatchSatellite | SculptureGenerator.py:124-183 | a frustrated or excited entry appends one satellite layer. It has `polygon_range` `(3, 6)` exactly for frustration and `None` exactly for excitement, and `deviation_range` 0. Its count is 13/12/11/10 divided by `i+1` below index 2 and 1 from index 2 on. Its ring radius is `0.63 r - 0.27 r i` below index 2 and `None` from index 2 on. Planning ends exactly when the count is 1 |
| Planner.DispatchProfile | SculptureGenerator.py:185-238 | a sad, sympathetic or satisfied entry ends planning without a layer exactly when `top_limit - 0.15 r i` (`0.2 r i` for satisfaction) is below `0.19 r`. Otherwise it appends one profile layer with the drawn count less `2i` (`3i` for satisfaction) and the radius of its branch; only satisfaction turns symmetry on |
| Planner.IterateGrows | SculptureGenerator.py:107-243 | one iteration keeps the collected layers and adds at most one; a single-boss satellite is only added by an iteration that returns |
| Planner.PlanFromGrows | SculptureGenerator.py:107-246 | the rest of the loop keeps the collected layers, returns at most three, and leaves no single-boss satellite before the last layer |
| Planner.PlanAtMostThree | SculptureGenerator.py:243-246 | `set_params` returns at most three layers, and a single-boss satellite layer can only be the last one |
| Planner.DispatchFits | SculptureGenerator.py:124-241 | a handled emotion at iteration `i`, with `i` layers collected, adds layer `i` in its iteration's shape, or adds nothing |
| Planner.IterateFits | SculptureGenerator.py:107-241 | when all labels are handled, iteration `i` adds layer `i` in the shape of iteration `i`, or returns |
| Planner.PlanFromFits | SculptureGenerator.py:107-246 | the rest of the loop keeps every layer in the shape of its own iteration |
| Planner.PlanLayersFit | SculptureGenerator.py:107-246 | with handled labels, in-range confidences and in-range draws, layer `k` comes from iteration `k`. Satellite layers have their count and ring radius. Profile layers have at least six points and a radius of at least `0.19 r`, except for the `0.15 r` of a third layer. A first-layer profile never has `bot_fillet` set |
| Planner.FrustratedSadSatisfiedExample | SculptureGenerator.py:115-153 | for frustrated 0.9, sad 0.5, satisfied 0.95: the sad entry is replaced by the frustrated one, and the satisfied entry ends planning at the third pass. The result is two spiky rings of 13 and 6 satellites |
| Planner.ThirdProfileBelowBotLimit | SculptureGenerator.py:192-203 | for sad, satisfied, sad at diameter limit 0.5, the third layer gets radius `0.15 r` = 9, below `0.19 r` = 11.4 |
| Satellites.MirroredHalvesSymmetric | SculptureGenerator.py:522-526 | after mirroring, index `n < P//2` and its mirror `P-2-n` both carry the original value of `n`, and index `P-1` is unchanged. The first `P-1` entries read the same in both directions |
| Satellites.MirroredHalvesIdempotent | SculptureGenerator.py:522-526 | mirroring an already mirrored list changes nothing |
| Satellites.MirroredUpToHalf | SculptureGenerator.py:524-526 | after `P//2` passes the list is fully mirrored; for an even `P` the last pass copies the middle entry onto itself |
| Satellites.MirrorSatellites | SculptureGenerator.py:522-526 | the in-place loop leaves both arrays equal to the mirrored lists of their old contents |
| Builder.SkipFor | SculptureGenerator.py:52-57 | a random base skips no point when `u <= 1/3`, one point when `1/3 < u <= 2/3`, and two points otherwise |
| Builder.DropLast | SculptureGenerator.py:67-68 | `points[:-k]` drops the last `k` points; `[:-0]` and a `k` longer than the list give the empty list |
| Builder.BasePointOnCircle | SculptureGenerator.py:63-64 | an undeviated base point lies on the circle of radius `r` about `(-r, 0)` |
| Builder.BaseLadder | SculptureGenerator.py:646-653 | the first loop of `generate` builds a raw base at failure count 0, skips 1 or 2 points at counts 1 and 2, and builds a random base from 3 on |
| Builder.TopRebuildIsSlowedLadder | SculptureGenerator.py:666-671 | the second loop rebuilds nothing for its first seven attempts, and afterwards rebuilds with the first ladder's variant for `fail_count // 7` |
| Builder.DeviationArray | SculptureGenerator.py:419 | one deviation per ring point, all zero when the deviation range is 0 |
| Builder.Type1RiseBounds | SculptureGenerator.py:437-486 | a type-1 layer raises `cur_h` by at least `h/(6(i+1)) > 0`, and by at most `0.0001 + 1.25 h/(3(i+1))` when the confidence is at most 1 |
| Builder.ExtrusionBottomFilletAgrees | SculptureGenerator.py:462 | the straight branch's bottom-fillet test as written (line 483) fails exactly for a filleted layer without a previous layer. Wherever it answers, it agrees with the guarded test of line 462 |
| Builder.UnhandledFirstLabelRaisesTypeError | SculptureGenerator.py:483 | for an unhandled label, then sad, then satisfied, the plan is one straight profile layer with `bot_fillet` set, so line 483 reads the type of a missing layer |
| Builder.UnhandledFirstLabelNeverBuilds | SculptureGenerator.py:593-626 | for that response, `shape_top` raises on every attempt, whatever the draws |
| Builder.UnhandledFirstLabelNeverGenerates | SculptureGenerator.py:657-682 | for that response, the second loop of `generate` never returns a sculpture, however many attempts it is given |
| Builder.HandledPlanNeverReadsMissingLayer | SculptureGenerator.py:483 | when every label is one of the five handled ones, the test of line 483 answers for each profile layer `k` of the plan, so the `TypeError` needs an unhandled label |
| Builder.BossesLandOnPoints | SculptureGenerator.py:339-346 | the relative moves add up: starting from the old centre, boss `m` lands exactly on ring point `m` |
| Builder.SpikeOutline | SculptureGenerator.py:376-377 | a spike outline has exactly `corners` points, and fails with a division by zero exactly when `corners <= 0` |
| Builder.SpikeOutlineCentred | SculptureGenerator.py:377 | a spike outline, moved right by `r`, has its centroid at the origin, the point the spike is placed at |
| Builder.DrawSpikeOutline | SculptureGenerator.py:376-377 | the list comprehension over `get_polygon_points` computes `SpikeOutline` |
| Builder.BossesPlaced | SculptureGenerator.py:331-333 | a circular ring stops short of its last point exactly when it has more points than sizes or heights |
| Builder.FirstSpikeFault | SculptureGenerator.py:372-377 | the first spike that cannot be built lies between the start and the end, and within the sizes and heights unless it is the start |
| Builder.FirstSpikeFaultIsFirst | SculptureGenerator.py:372-377 | every spike before the first fault has a size, a height and at least one corner; the fault, if any, lacks a size or height, or has no corners |
| Builder.SpikeErrorCases | SculptureGenerator.py:372-377 | a spiky ring raises nothing exactly when every spike has a size, a height and at least one corner. `IndexError` means more points than sizes or heights; `ZeroDivisionError` means a spike within range has no corners |
| Builder.CircularOutcomeCentre | SculptureGenerator.py:331-352 | a built circular ring adds a boss per ring point and leaves `old_center` on the last ring point |
| Builder.SpikyOutcomeCentre | SculptureGenerator.py:372-402 | a built spiky ring adds a spike per ring point and leaves `old_center` on the last ring point |
| Builder.RingOutcomeCentre | SculptureGenerator.py:516-536 | a built ring is non-empty, extends the solid by at least one record per point, and leaves `old_center` on its last point (lines 346 and 400). A missing ring radius or a kernel failure leaves `old_center` where it was |
| Builder.StackRisePositive | SculptureGenerator.py:613-622 | a stack of layers never lowers `cur_h`, and raises it strictly once it holds a type-1 layer |
| Builder.Type1StepOutcome | SculptureGenerator.py:404-498 | a type-1 layer fails exactly for an empty ring, a kernel failure, or a straight layer with `bot_fillet` and no previous layer, and then leaves the state unchanged. Built, it extends the solid, raises `cur_h` by its positive rise, resets `old_center` to `(0, 0)` and stores its ring in `recent_points` |
| Builder.Type2StepOutcome | SculptureGenerator.py:500-591 | a type-2 layer never changes `cur_h` or `recent_points`; a centre piece leaves the whole state unchanged; a built layer extends the solid |
| Builder.LayerStepRise | SculptureGenerator.py:613-622 | one layer of `shape_top`, built, extends the solid and raises `cur_h` by its own rise: the type-1 rise with the last-layer flag set for the final index only, and 0 for a type-2 layer |
| Builder.BuildFromRise | SculptureGenerator.py:613-624 | building the layers from index `i` on, each with the previous layer and the last-layer flag, extends the solid and raises `cur_h` by exactly the stack rise from `i` |
| Builder.TopOutcomeRise | SculptureGenerator.py:593-626 | a built top needs a satisfied entry, extends `bot`, and raises `cur_h` by exactly the rise of the plan for `diameter_limit` 0.5, never lowering it |
| Builder.LadderBases | SculptureGenerator.py:644-655 | the base of each rung is built exactly when the kernel accepts it and, for the audio rungs, the array has 50 samples. Rung 0 is the full 50-point outline on radius `r`; rungs 1 and 2 are that outline less its last 1 or 2 points; from rung 3 on, the outline of the random audio on the radius `u` in `[0, 1)`, less the points `SkipFor(u)` drops |
| Builder.FirstBaseIsFirst | SculptureGenerator.py:644-655 | the first loop ends with the base of the first attempt that builds one, and fails only when every attempt fails |
| Builder.FirstTopBase | SculptureGenerator.py:657-682 | a sculpture from the second loop stands on the base the first loop built or on a base rebuilt by one of its attempts |
| Builder.SculptureGenerator.constructor | SculptureGenerator.py:15-29 | the state starts at centre `(0, 0)`, height 0 and no recent points |
| Builder.SculptureGenerator.GenWaveformBase | SculptureGenerator.py:31-82 | the base is the spline through the deviated circle points with the last `skip_p` dropped. A random base takes its audio, its radius and `skip_p` from the draws. A short audio array raises `IndexError`. Only a built base sets `cur_h` to `h/2` |
| Builder.SculptureGenerator.LayerPoints | SculptureGenerator.py:419-420 | the deviations and ring of a layer are `LayerRing` |
| Builder.SculptureGenerator.GenType1 | SculptureGenerator.py:404-498 | the outcome and the new state are `Type1Step` of the old state: an empty ring raises `ZeroDivisionError`, and the straight branch raises `TypeError` at line 483 for a filleted layer without a previous layer. A built layer appends the features of its branch, raises `cur_h` by `Type1Rise`, resets `old_center` to `(0, 0)` and stores the ring in `recent_points`. An exception leaves the state unchanged |
| Builder.SculptureGenerator.ExtrudeLofted | SculptureGenerator.py:437-465 | the lofted branch appends the prism, the top fillet and, when the guard allows, the bottom fillet; it raises `cur_h` by `0.0001 + ex_h` |
| Builder.SculptureGenerator.ExtrudeStraight | SculptureGenerator.py:468-493 | the straight branch appends the prism, the bottom fillet when line 483 finds a previous layer that is not type 2, and the edge fillet, and raises `cur_h` by `ex_h`. With `bot_fillet` set and no previous layer it raises `TypeError` before `cur_h` moves |
| Builder.SculptureGenerator.GenCircularType2Layer | SculptureGenerator.py:313-352 | a boss on every ring point, then the smoothing fillet when line 349 allows it. Too few sizes or heights raise `IndexError`. `old_center` ends at the last placed point and `cur_h` is unchanged; together these are `CircularOutcome` |
| Builder.SculptureGenerator.GenSpikyType2Layer | SculptureGenerator.py:354-402 | a spike on every ring point, or the `IndexError`/`ZeroDivisionError` of the first spike that cannot be built. `old_center` ends at the last placed spike and `cur_h` is unchanged; together these are `SpikyOutcome` |
| Builder.SculptureGenerator.GenType2 | SculptureGenerator.py:500-591 | the outcome and the new state are `Type2Step` of the old state: the ring outcome, with `old_center` moved to the point the ring ends on, for more than one point, and the centre piece with the state unchanged otherwise |
| Builder.SculptureGenerator.GenSatelliteRing | SculptureGenerator.py:516-536 | the outcome and the final `old_center` are `RingOutcome`: heights and sizes drawn and mirrored, then the circular or spiky ring. A missing radius raises `TypeError` and an empty ring `ZeroDivisionError`, both leaving `old_center` unchanged; otherwise `old_center` ends on the last satellite placed |
| Builder.SculptureGenerator.DrawSatellites | SculptureGenerator.py:518-526 | the drawn height and size lists, mirrored when the layer is symmetric |
| Builder.SculptureGenerator.GenCentrePiece | SculptureGenerator.py:539-589 | one boss, sized by the draws on the base and fixed otherwise, or one spike; either is moved to `(-r, 0)`. A spike without corners raises `ZeroDivisionError` |
| Builder.SculptureGenerator.BuildLayer | SculptureGenerator.py:613-624 | one pass of the loop: layer `i` goes to `gen_type1` or `gen_type2` with the previous layer and the last-layer flag, as `LayerStep` says |
| Builder.SculptureGenerator.BuildLayers | SculptureGenerator.py:613-624 | the loop of `shape_top` computes `BuildFrom` from layer 0 and the old state: the layers in order, each after the previous one, until the first exception |
| Builder.SculptureGenerator.ShapeTop | SculptureGenerator.py:593-626 | the outcome and the new state are `TopOutcome` of the old state: every layer is built in order with the layer before it, and the final one with the last-layer flag. No satisfied entry raises `ValueError` with the state unchanged. A built top extends the base and raises `cur_h` by exactly the plan's stack rise, never lowering it |
| Builder.SculptureGenerator.GenBase | SculptureGenerator.py:646-653 | the base is `BaseOutcome` of its variant: raw audio, the same less its last `k` points, or the random draw's audio, radius and skip. A raw or skipping base is built exactly when the audio array has at least 50 samples and the kernel accepts it; a random base exactly when the kernel accepts it. A built base is one waveform record |
| Builder.SculptureGenerator.FirstBuiltBase | SculptureGenerator.py:644-655 | the first loop ends with `FirstBase`; only a built base changes the state, setting `cur_h` to `h/2` |
| Builder.SculptureGenerator.TryTop | SculptureGenerator.py:663-672 | one attempt of the second loop is `TopTry`: the base is rebuilt when the ladder says so, and the top is built on it |
| Builder.SculptureGenerator.RetryTop | SculptureGenerator.py:657-682 | the second loop computes `FirstTop`: each failed attempt resets `old_center`, `cur_h` and `recent_points` (lines 674-676) before the next. A sculpture stands on a waveform base, and its height is `h/2` plus the stack rise of one attempt's plan |
| Builder.SculptureGenerator.Generate | SculptureGenerator.py:628-682 | the result and the final state are those of `FirstBase` and then `FirstTop`, the second loop starting with `cur_h` at `h/2`. No sculpture without a satisfied entry. A sculpture stands on a waveform base, and its height is `h/2` plus the stack rise of one attempt's plan |

## Left out

- Solid modelling. Each call into the geometry kernel becomes a `Feature` record of its numeric
  arguments. Face selection, the fillet and loft geometry, and the export are not modelled.
- Kernel failures. Whether the kernel accepts a base or a layer is an input flag, checked before
  the layer's first record. A failure midway through a ring, after some satellites moved
  `old_center`, is not modelled. `generate` resets that state after every failure anyway.
- Trigonometry and floating point. `cos`/`sin` are supplied by `trig`, and arithmetic is on exact
  reals. Float rounding, including the `b_h == h/2` comparison, is not modelled.
- Random draws. They are parameters. The `randint` ranges are preconditions of the planner. The
  `uniform` ranges, the rounding to 4 places of heights, and the corner-count range `(3, 6)` are not
  constrained, so the model also covers corner counts of 0 or below.
- Retry termination. `generate` retries forever; here each loop runs over a finite list of
  attempts and returns `None` when they are used up.
- Output and collaborators. The `print` calls and the never-read `response` field (line 29) are
  left out. `WaveProcessor.py`, `EmotionExtractor.py` and `app.py` are not part of this model.
- Planner.SetParams: requires a satisfied entry. The `ValueError` that line 105 raises otherwise is
  modelled by `ShapeTop`, which checks for the entry before planning.
- Ring size under symmetry. With the real `cos`/`sin`, every layer `set_params` emits gives a
  symmetric selection of exactly `points_num` points, so a ring never has more points than
  satellite sizes. With `trig` abstract the model cannot show this, so it keeps the `IndexError`
  that lines 332-333 and 373-374 would raise for a longer ring.

## Findings

| source | as written | input that shows it | evidently intended | confidence | as-written member | corrected member |
|---|---|---|---|---|---|---|
| SculptureGenerator.py:483 | the straight branch reads `prev_layer['type']` whenever `bot_fillet` is set, with no check that a previous layer exists (line 462 has that check) | response `[polite 0.9, sad 0.8, satisfied 0.7]`: the plan is one straight sad layer with `bot_fillet` set, built as layer 0 with no previous layer. Every attempt raises `TypeError`, and `generate` never returns | the guarded test of line 462: fillet onto the base unless the previous layer is type 2 | medium, needs a label outside the five handled ones; not executed | Builder.ExtrusionBottomFilletAsWritten, Builder.UnhandledFirstLabelRaisesTypeError, Builder.UnhandledFirstLabelNeverGenerates | Builder.GuardedBottomFillet, Builder.ExtrusionBottomFilletAgrees |
