/** The build state of `SculptureGenerator` (SculptureGenerator.py lines 10-28) and the operations
    that grow the sculpture layer by layer. CadQuery is not modelled: every call into it is kept as
    a `Feature` record holding the numeric arguments the generator passes, and the solid is the list
    of those records in the order they are issued. */
module Builder {
  import opened Common
  import opened Ring
  import opened Planner
  import opened Satellites

  /** One solid-modelling operation and its arguments. Heights are the `z` coordinates the face
      selectors aim at; `move` is the workplane shift `.center(dx, dy)`. */
  datatype Feature =
    /** The base (lines 71-78): a spline through `outline`, lofted `loftOffset` up to a circle of
        radius `circleRadius` centred at `(-circleRadius, 0)`, its top edge filleted. */
    | WaveformBase(outline: seq<Point>, tolerance: real, loftOffset: real, circleRadius: real, topFillet: real)
    /** A type-1 polygon placed on the face at height `base`, extruded by `height`, or extruded by
        0.0001 and lofted `height` up to a circle of radius `loftRadius` (lines 444-459, 475-481). */
    | Prism(outline: seq<Point>, vertexFillet: Option<real>, move: Point, base: real, height: real, loftRadius: Option<real>)
    /** An edge fillet of the top face selected near `(-r, 0, height)`. */
    | TopFillet(height: real, radius: real)
    /** An edge fillet of the face selected near `(-r, 0, height)`, smoothing a layer onto the one below. */
    | BottomFillet(height: real, radius: real)
    /** A round boss: a circle of `radius` extruded by `extrusion` from the face at `h/2`, its top
        filleted by `radius` (lines 336-344, 551-559). */
    | Boss(move: Point, radius: real, extrusion: real)
    /** A spike: the polygon `outline` extruded 0.0001 from the face at `base` and lofted `height` up
        to a point (lines 384-398, 575-589). */
    | Spike(move: Point, outline: seq<Point>, base: real, height: real)

  /** The exceptions the generator raises and `generate` catches (line 673). `KernelError` stands
      for any failure of the geometry kernel. */
  datatype Error = IndexError | TypeError | ZeroDivisionError | ValueError | KernelError

  /** What a building operation returns: the grown solid, or the exception it raised. */
  datatype Outcome = Built(solid: seq<Feature>) | Raised(error: Error)

  // ---------------------------------------------------------------------------------------------
  // The waveform base

  /** The draws of a random base (lines 49-57): 50 rounded `uniform(-0.04, 0.04)` deviations and the
      `random.random()` value `u` that line 51 binds to the name `r`. */
  datatype RandomBase = RandomBase(audio: seq<real>, u: real)

  predicate RandomBaseInRange(d: RandomBase)
  {
    |d.audio| == BasePointCount && 0.0 <= d.u < 1.0
  }

  /** The `skip_p` chosen by `u` for a random base (lines 52-57). */
  function SkipFor(u: real): (skip: Option<nat>)
    ensures skip.None? <==> u <= 1.0 / 3.0
    ensures skip.Some? ==> (skip.value == 1 <==> u <= 2.0 / 3.0) && (skip.value == 1 || skip.value == 2)
  {
    if u <= 1.0 / 3.0 then None
    else if u <= 2.0 / 3.0 then Some(1)
    else Some(2)
  }

  /** `points[:-k]` when `k` is given (lines 67-68): the last `k` points are dropped; `[:-0]` is empty. */
  function DropLast(points: seq<Point>, skip: Option<nat>): (kept: seq<Point>)
    ensures skip.None? ==> kept == points
    ensures skip.Some? && 0 < skip.value <= |points| ==> |kept| == |points| - skip.value && kept == points[..|kept|]
    ensures skip.Some? && (skip.value == 0 || skip.value > |points|) ==> kept == []
  {
    match skip
    case None => points
    case Some(k) => if k == 0 || k > |points| then [] else points[..|points| - k]
  }

  /** Base point `n` of `p` (lines 63-64): the waveform deviation scales the radius, and the circle
      is centred at `(-radius, 0)`. */
  function BasePoint(p: nat, n: nat, radius: real, deviation: real, trig: Trig): Point
  {
    Point((1.0 + deviation) * radius * trig(p, n).x - radius, (1.0 + deviation) * radius * trig(p, n).y)
  }

  function BaseOutline(p: nat, radius: real, audio: seq<real>, trig: Trig): (outline: seq<Point>)
    requires |audio| >= p
    ensures |outline| == p
  {
    seq(p, n requires 0 <= n < p => BasePoint(p, n, radius, audio[n], trig))
  }

  /** A base point with no deviation lies on the circle of the given radius about `(-radius, 0)`
      whenever the trigonometry gives a unit vector. */
  lemma BasePointOnCircle(p: nat, n: nat, radius: real, trig: Trig)
    requires trig(p, n).x * trig(p, n).x + trig(p, n).y * trig(p, n).y == 1.0
    ensures var q := BasePoint(p, n, radius, 0.0, trig);
            (q.x + radius) * (q.x + radius) + q.y * q.y == radius * radius
  {
    var u := trig(p, n);
    calc {
      (radius * u.x) * (radius * u.x) + (radius * u.y) * (radius * u.y);
      radius * radius * (u.x * u.x + u.y * u.y);
    }
  }

  /** The variant of `gen_waveform_base` a retry asks for. */
  datatype BaseVariant = Raw | Skip(count: nat) | RandomBaseVariant

  /** The base built on attempt `failCount` of the first loop of `generate` (lines 644-655). */
  function BaseLadder(failCount: nat): (v: BaseVariant)
    ensures failCount == 0 <==> v == Raw
    ensures 1 <= failCount <= 2 <==> v == Skip(failCount)
    ensures failCount >= 3 <==> v == RandomBaseVariant
  {
    if failCount == 1 then Skip(1)
    else if failCount == 2 then Skip(2)
    else if failCount >= 3 then RandomBaseVariant
    else Raw
  }

  /** The base rebuilt before attempt `failCount` of the second loop of `generate` (lines 666-671):
      none for the first seven attempts. */
  function TopRebuild(failCount: nat): Option<BaseVariant>
  {
    if failCount >= 7 && failCount < 14 then Some(Skip(1))
    else if failCount >= 14 && failCount < 21 then Some(Skip(2))
    else if failCount >= 21 then Some(RandomBaseVariant)
    else None
  }

  /** The second ladder is the first one slowed down sevenfold: after every seven failed attempts
      the base is rebuilt with the next variant. */
  lemma TopRebuildIsSlowedLadder(failCount: nat)
    ensures failCount < 7 ==> TopRebuild(failCount).None?
    ensures failCount >= 7 ==> TopRebuild(failCount) == Some(BaseLadder(failCount / 7))
  {
  }

  // ---------------------------------------------------------------------------------------------
  // Type-1 layers

  /** The random draws and the kernel verdict for building one layer: `uniform(0, 0.3 d)` deviations
      (lines 419, 528), satellite heights and sizes (lines 518-519), the corner counts of spikes
      (lines 376, 566), and the size, height and corner count of a centred boss (lines 544-545,
      563-566). `kernelOk` is false when the geometry kernel rejects one of the layer's operations. */
  datatype LayerDraws = LayerDraws(kernelOk: bool, deviation: nat -> real, height: nat -> real, size: nat -> real,
                                   corners: nat -> int, centreSize: real, centreHeight: real, centreCorners: int)

  /** `deviation_arr` (lines 419 and 528): drawn deviations, or zeros when the range is 0. */
  function DeviationArray(deviationRange: real, deviation: nat -> real, p: int): (devs: seq<real>)
    ensures |devs| == Count(p)
    ensures deviationRange == 0.0 ==> forall n :: 0 <= n < |devs| ==> devs[n] == 0.0
  {
    seq(Count(p), n requires 0 <= n < Count(p) => if deviationRange != 0.0 then deviation(n) else 0.0)
  }

  /** The extrusion takes the lofted, smoothed branch (line 437). */
  predicate Lofted(layer: Layer, lastLayer: bool)
    requires layer.Profile?
  {
    lastLayer && layer.edgeFillet != 0.0
  }

  /** `ex_h` of a type-1 layer (lines 439-442 and 470-473). */
  function Type1Height(layer: Layer, i: nat, lastLayer: bool): real
    requires layer.Profile?
  {
    (if Lofted(layer, lastLayer) then TotalHeight / (3.0 * (i + 1) as real) else TotalHeight / (6.0 * (i + 1) as real))
    * (if layer.confidence > 0.5 then 1.0 + layer.confidence / 4.0 else 1.0)
  }

  /** How much a type-1 layer raises `cur_h` (lines 465 and 486). */
  function Type1Rise(layer: Layer, i: nat, lastLayer: bool): real
    requires layer.Profile?
  {
    (if Lofted(layer, lastLayer) then 0.0001 else 0.0) + Type1Height(layer, i, lastLayer)
  }

  /** Every type-1 layer raises `cur_h` by a positive amount, at most `h/(3(i+1))` times 1.25 plus
      0.0001 when the confidence is at most 1, and a higher layer index gives a lower layer. */
  lemma Type1RiseBounds(layer: Layer, i: nat, lastLayer: bool)
    requires layer.Profile?
    ensures Type1Rise(layer, i, lastLayer) >= TotalHeight / (6.0 * (i + 1) as real) > 0.0
    ensures layer.confidence <= 1.0 ==>
              Type1Rise(layer, i, lastLayer) <= 0.0001 + TotalHeight / (3.0 * (i + 1) as real) * 1.25
  {
    var k := (i + 1) as real;
    assert TotalHeight / (3.0 * k) == 2.0 * (TotalHeight / (6.0 * k));
    var m := if layer.confidence > 0.5 then 1.0 + layer.confidence / 4.0 else 1.0;
    assert 1.0 <= m;
    var base := if Lofted(layer, lastLayer) then TotalHeight / (3.0 * k) else TotalHeight / (6.0 * k);
    assert base >= TotalHeight / (6.0 * k) > 0.0;
    assert base * m >= base * 1.0;
    if layer.confidence <= 1.0 {
      assert m <= 1.25;
      assert base <= TotalHeight / (3.0 * k);
      assert base * m <= TotalHeight / (3.0 * k) * m <= TotalHeight / (3.0 * k) * 1.25;
    }
  }

  /** The guarded bottom-fillet test of the lofted branch (line 462): fillet the bottom edge unless
      the layer below is a satellite layer; a missing layer below counts as not a satellite layer. */
  predicate GuardedBottomFillet(layer: Layer, prevLayer: Option<Layer>)
    requires layer.Profile?
  {
    layer.botFillet && !(prevLayer.Some? && prevLayer.value.Satellite?)
  }

  /** The bottom-fillet test of the straight branch as written (line 483): `prev_layer['type']` is
      read whenever `bot_fillet` holds, so a missing previous layer raises a `TypeError` (`None`). */
  function ExtrusionBottomFilletAsWritten(layer: Layer, prevLayer: Option<Layer>): (r: Option<bool>)
    requires layer.Profile?
  {
    if !layer.botFillet then Some(false)
    else if prevLayer.None? then None
    else Some(!prevLayer.value.Satellite?)
  }

  /** The test as written fails exactly for a filleted first layer; wherever it answers, the guarded
      test of line 462 gives the same answer, so the guarded test is the evidently intended one. */
  lemma ExtrusionBottomFilletAgrees(layer: Layer, prevLayer: Option<Layer>)
    requires layer.Profile?
    ensures ExtrusionBottomFilletAsWritten(layer, prevLayer).None? <==> layer.botFillet && prevLayer.None?
    ensures ExtrusionBottomFilletAsWritten(layer, prevLayer).Some? ==>
              ExtrusionBottomFilletAsWritten(layer, prevLayer).value == GuardedBottomFillet(layer, prevLayer)
    ensures GuardedBottomFillet(layer, prevLayer) ==> layer.botFillet
  {
  }

  /** A first-ranked label the planner does not handle, followed by sadness and satisfaction, gives
      a one-layer plan whose only layer is a straight type-1 layer with `bot_fillet` set, so line 483
      reads the type of a missing previous layer on every attempt. */
  lemma UnhandledFirstLabelRaisesTypeError(draws: seq<Draws>)
    requires |draws| == 3 && AllDrawsInRange(draws)
    ensures var response := [Emotion(Unhandled("polite"), 0.9), Emotion(Sad, 0.8), Emotion(Satisfied, 0.7)];
            HasSatisfied(response) &&
            var plan := Plan(response, 0.5, draws);
            |plan| == 1 && plan[0].Profile? && !Lofted(plan[0], true) &&
            ExtrusionBottomFilletAsWritten(plan[0], None).None?
  {
    var response := [Emotion(Unhandled("polite"), 0.9), Emotion(Sad, 0.8), Emotion(Satisfied, 0.7)];
    assert response[2].className == Satisfied;
    assert SatisfiedIndex(response) == 2 by {
      assert SatisfiedIndex(response[1..]) == 1 + SatisfiedIndex(response[2..]);
    }
    SadMultiplierIsOne(0.8);
    var l0 := Profile(0.8, draws[1].sad - 2, 21.0, 0.0, 0.0, 1.0, false, true);
    var s1 := PlanState(Some(Emotion(Unhandled("polite"), 0.9)), false, []);
    var s2 := PlanState(Some(Emotion(Sad, 0.8)), false, [l0]);
    assert Iterate(response, 0.5, draws[0], 0, PlanState(None, false, [])) == Continue(s1);
    assert Iterate(response, 0.5, draws[1], 1, s1) == Continue(s2);
    assert Iterate(response, 0.5, draws[2], 2, s2) == Return([l0]);
  }

  /** With every label one of the five handled ones, the first layer of a plan never asks for a
      bottom fillet, so the test of line 483 answers for every layer of the plan and the
      `TypeError` needs an unhandled label. */
  lemma HandledPlanNeverReadsMissingLayer(response: seq<Emotion>, draws: seq<Draws>, k: nat)
    requires HasSatisfied(response) && |draws| == |response|
    requires AllHandled(response) && ConfidencesInRange(response) && AllDrawsInRange(draws)
    requires k < |Plan(response, 0.5, draws)| && Plan(response, 0.5, draws)[k].Profile?
    ensures var plan := Plan(response, 0.5, draws);
            ExtrusionBottomFilletAsWritten(plan[k], if k == 0 then None else Some(plan[k - 1])).Some?
  {
    PlanLayersFit(response, 0.5, draws);
    var plan := Plan(response, 0.5, draws);
    assert LayerFits(plan[k], k, 0.5);
  }

  /** The vertex fillet of a type-1 polygon, applied when non-zero (lines 428-434). */
  function VertexFillet(layer: Layer): Option<real>
    requires layer.Profile?
  {
    if layer.vertexFillet != 0.0 then Some(layer.vertexFillet) else None
  }

  /** The records of the lofted branch (lines 437-465), from height `baseHeight`. */
  function LoftedFeatures(layer: Layer, i: nat, prevLayer: Option<Layer>, ring: seq<Point>, move: Point,
                          baseHeight: real, exH: real): seq<Feature>
    requires layer.Profile?
  {
    var k := (i + 1) as real;
    [Prism(ring, VertexFillet(layer), move, baseHeight, exH, Some(layer.radius)),
     TopFillet(baseHeight + 0.0001 + exH, layer.radius * 1.0 / k)]
    + (if GuardedBottomFillet(layer, prevLayer) then [BottomFillet(baseHeight, TotalHeight / (20.0 * k))] else [])
  }

  /** The records of the straight branch (lines 468-493), from height `baseHeight`. */
  function StraightFeatures(layer: Layer, i: nat, prevLayer: Option<Layer>, ring: seq<Point>, move: Point,
                            baseHeight: real, exH: real): seq<Feature>
    requires layer.Profile?
  {
    var k := (i + 1) as real;
    [Prism(ring, VertexFillet(layer), move, baseHeight, exH, None)]
    + (if ExtrusionBottomFilletAsWritten(layer, prevLayer) == Some(true) then [BottomFillet(baseHeight, TotalHeight / (12.0 * k))] else [])
    + (if layer.edgeFillet != 0.0 then [TopFillet(baseHeight + exH + 0.0001, layer.edgeFillet / k)] else [])
  }

  /** The records `gen_type1` adds to the solid, for the ring `ring`, the centre `oldCenter` and the
      height `baseHeight` it starts from (lines 428-493). */
  function Type1Features(layer: Layer, i: nat, prevLayer: Option<Layer>, lastLayer: bool, ring: seq<Point>,
                         oldCenter: Point, baseHeight: real): seq<Feature>
    requires layer.Profile?
  {
    var move := Point(0.0 - oldCenter.x, 0.0 - oldCenter.y);
    if Lofted(layer, lastLayer) then LoftedFeatures(layer, i, prevLayer, ring, move, baseHeight, Type1Height(layer, i, lastLayer))
    else StraightFeatures(layer, i, prevLayer, ring, move, baseHeight, Type1Height(layer, i, lastLayer))
  }

  /** The ring a type-1 or type-2 layer is built on, `None` when it has no point. */
  function LayerRing(pointsNum: int, radius: real, deviationRange: real, symmetry: bool, draws: LayerDraws, trig: Trig)
    : Option<seq<Point>>
  {
    PolygonPoints(RawRing(pointsNum, radius, DeviationArray(deviationRange, draws.deviation, pointsNum), trig), symmetry)
  }

  /** Where the `m`-th boss or spike of a ring lands relative to the previous one: the workplane
      moves from the last placed point, the first time from `start` (lines 339, 388). */
  function MoveTo(points: seq<Point>, m: nat, start: Point): Point
    requires m < |points|
  {
    var from := if m == 0 then start else points[m - 1];
    Point(points[m].x - from.x, points[m].y - from.y)
  }

  /** The round bosses of a circular satellite ring (lines 331-346), from height `baseHeight`. */
  function CircularBosses(points: seq<Point>, sizes: seq<real>, heights: seq<real>, n: nat, baseHeight: real,
                          start: Point): seq<Feature>
    requires |points| <= |sizes| && |points| <= |heights|
  {
    seq(|points|, m requires 0 <= m < |points| =>
      Boss(MoveTo(points, m, start), sizes[m], (baseHeight - TotalHeight / 2.0) + (heights[m] + TotalHeight * n as real / 20.0)))
  }

  /** The sum of the workplane moves of a list of bosses and spikes. */
  function Travel(features: seq<Feature>): Point
  {
    if |features| == 0 then Point(0.0, 0.0)
    else
      var last := features[|features| - 1];
      var before := Travel(features[..|features| - 1]);
      var move := if last.Boss? || last.Spike? then last.move else Point(0.0, 0.0);
      Point(before.x + move.x, before.y + move.y)
  }

  /** The relative moves add up: starting from `start`, the `m`-th boss is placed exactly at the
      `m`-th ring point, which is why `old_center` must follow the last placed point. */
  lemma {:induction false} BossesLandOnPoints(points: seq<Point>, sizes: seq<real>, heights: seq<real>, n: nat,
                                              baseHeight: real, start: Point, m: nat)
    requires |points| <= |sizes| && |points| <= |heights| && m < |points|
    ensures var t := Travel(CircularBosses(points, sizes, heights, n, baseHeight, start)[..m + 1]);
            Point(start.x + t.x, start.y + t.y) == points[m]
  {
    var bosses := CircularBosses(points, sizes, heights, n, baseHeight, start);
    assert bosses[..m + 1][..m] == bosses[..m];
    if m > 0 {
      BossesLandOnPoints(points, sizes, heights, n, baseHeight, start, m - 1);
    }
  }

  /** The smoothing test of a circular ring (line 349): a previous layer exists, and it is neither a
      spiky ring nor a type-1 layer with an edge fillet. */
  predicate SmoothsRing(prevLayer: Option<Layer>)
  {
    prevLayer.Some? &&
    !(prevLayer.value.Satellite? && prevLayer.value.polygonRange != None) &&
    !(prevLayer.value.Profile? && prevLayer.value.edgeFillet != 0.0)
  }

  /** `[(x + r, y) for (x, y) in pts]` (lines 377 and 567). */
  function ShiftedRight(pts: seq<Point>): (moved: seq<Point>)
    ensures |moved| == |pts|
  {
    seq(|pts|, j requires 0 <= j < |pts| => Point(pts[j].x + BaseRadius, pts[j].y))
  }

  /** The zero deviations of a spike outline (lines 377 and 567). */
  function Zeros(p: int): (z: seq<real>)
    ensures |z| == Count(p)
  {
    seq(Count(p), _ => 0.0)
  }

  /** The outline of a spike with `corners` corners and circumradius `size`: a regular polygon
      centred at the origin (its centroid, moved from `(-r, 0)` by `+r`); `None` is the
      `ZeroDivisionError` of a polygon without corners (lines 376-377, 566-567). */
  function SpikeOutline(corners: int, size: real, trig: Trig): (outline: Option<seq<Point>>)
    ensures outline.None? <==> corners <= 0
    ensures outline.Some? ==> |outline.value| == corners
  {
    match PolygonPoints(RawRing(corners, size, Zeros(corners), trig), false)
    case None => None
    case Some(pts) => Some(ShiftedRight(pts))
  }

  /** A spike outline is centred on the point the spike is placed at. */
  lemma SpikeOutlineCentred(corners: int, size: real, trig: Trig)
    ensures SpikeOutline(corners, size, trig).Some? ==> Centroid(SpikeOutline(corners, size, trig).value) == Point(0.0, 0.0)
  {
    PolygonPointsShape(RawRing(corners, size, Zeros(corners), trig), false);
    match PolygonPoints(RawRing(corners, size, Zeros(corners), trig), false)
    case None =>
    case Some(pts) =>
      assert ShiftedRight(pts) == Translated(pts, BaseRadius, 0.0);
      SumTranslated(pts, BaseRadius, 0.0);
  }

  /** The outline of a spike that can be built. */
  function SpikeShape(corners: int, size: real, trig: Trig): seq<Point>
  {
    match SpikeOutline(corners, size, trig)
    case Some(outline) => outline
    case None => []
  }

  /** The outline of one spike (line 377): a regular polygon with `corners` corners,
      moved right by `r`. */
  method DrawSpikeOutline(corners: int, size: real, trig: Trig) returns (outline: Option<seq<Point>>)
    ensures outline == SpikeOutline(corners, size, trig)
  {
    var ring := GetPolygonPoints(corners, size, Zeros(corners), trig, false);
    if ring.None? {
      return None;
    }
    outline := Some(ShiftedRight(ring.value));
  }

  /** The spikes of a spiky satellite ring (lines 372-400), from height `baseHeight`: spike `m` has
      `corners(m)` corners and circumradius `sizes[m]`. */
  function Spikes(points: seq<Point>, sizes: seq<real>, heights: seq<real>, corners: nat -> int, n: nat,
                  baseHeight: real, start: Point, trig: Trig): seq<Feature>
    requires |points| <= |sizes| && |points| <= |heights|
  {
    seq(|points|, m requires 0 <= m < |points| =>
      Spike(MoveTo(points, m, start), SpikeShape(corners(m), sizes[m], trig), baseHeight,
            heights[m] + TotalHeight * n as real / 20.0))
  }

  function Min(a: nat, b: nat): nat
  {
    if a <= b then a else b
  }

  /** The number of bosses a circular ring places before it runs out of sizes or heights. */
  function BossesPlaced(points: seq<Point>, sizes: seq<real>, heights: seq<real>): (placed: nat)
    ensures placed <= |points|
    ensures placed < |points| <==> |points| > |sizes| || |points| > |heights|
  {
    Min(|points|, Min(|sizes|, |heights|))
  }

  /** The index of the first spike from `m` on that cannot be built: it has no size or height
      (`IndexError`), or no corners (`ZeroDivisionError`); `count` when every spike can be built. */
  function FirstSpikeFault(count: nat, fit: nat, corners: nat -> int, m: nat): (idx: nat)
    requires m <= count
    ensures m <= idx <= count
    ensures idx == m || idx <= fit
    decreases count - m
  {
    if m == count || m >= fit || corners(m) <= 0 then m else FirstSpikeFault(count, fit, corners, m + 1)
  }

  /** Every spike from `m` up to the fault can be built. */
  lemma {:induction false} BeforeFirstSpikeFault(count: nat, fit: nat, corners: nat -> int, m: nat, j: nat)
    requires m <= count && m <= j < FirstSpikeFault(count, fit, corners, m)
    ensures corners(j) > 0
    decreases count - m
  {
    if j > m {
      BeforeFirstSpikeFault(count, fit, corners, m + 1, j);
    }
  }

  /** The fault, if any, is a spike that cannot be built. */
  lemma {:induction false} AtFirstSpikeFault(count: nat, fit: nat, corners: nat -> int, m: nat)
    requires m <= count
    ensures var idx := FirstSpikeFault(count, fit, corners, m);
            idx < count ==> idx >= fit || corners(idx) <= 0
    decreases count - m
  {
    if !(m == count || m >= fit || corners(m) <= 0) {
      AtFirstSpikeFault(count, fit, corners, m + 1);
    }
  }

  /** Every spike before the fault can be built, and the fault, if any, is one that cannot. */
  lemma FirstSpikeFaultIsFirst(count: nat, fit: nat, corners: nat -> int)
    ensures var idx := FirstSpikeFault(count, fit, corners, 0);
            && idx <= fit
            && (forall j :: 0 <= j < idx ==> corners(j) > 0)
            && (idx < count ==> idx == fit || corners(idx) <= 0)
  {
    forall j | 0 <= j < FirstSpikeFault(count, fit, corners, 0)
      ensures corners(j) > 0
    {
      BeforeFirstSpikeFault(count, fit, corners, 0, j);
    }
    AtFirstSpikeFault(count, fit, corners, 0);
  }

  /** The exception a spiky ring raises, if any. */
  function SpikeError(count: nat, fit: nat, corners: nat -> int): Option<Error>
  {
    var idx := FirstSpikeFault(count, fit, corners, 0);
    if idx == count then None else if idx >= fit then Some(IndexError) else Some(ZeroDivisionError)
  }

  /** A spiky ring is built exactly when every spike has a size, a height and at least one corner;
      it runs out of sizes or heights only when it has more points than they have entries. */
  lemma SpikeErrorCases(count: nat, fit: nat, corners: nat -> int)
    ensures SpikeError(count, fit, corners).None? <==> count <= fit && forall m :: 0 <= m < count ==> corners(m) > 0
    ensures SpikeError(count, fit, corners) == Some(IndexError) ==> count > fit
    ensures SpikeError(count, fit, corners) == Some(ZeroDivisionError) ==>
              exists m :: 0 <= m < count && m < fit && corners(m) <= 0
  {
    FirstSpikeFaultIsFirst(count, fit, corners);
    var idx := FirstSpikeFault(count, fit, corners, 0);
    if idx < count && count <= fit {
      assert corners(idx) <= 0;
    }
  }

  /** Placing one more boss appends its record. */
  lemma CircularBossesSnoc(points: seq<Point>, sizes: seq<real>, heights: seq<real>, n: nat, baseHeight: real,
                           start: Point, m: nat)
    requires m < |points| && m < |sizes| && m < |heights|
    ensures CircularBosses(points[..m + 1], sizes, heights, n, baseHeight, start)
            == CircularBosses(points[..m], sizes, heights, n, baseHeight, start)
               + [Boss(MoveTo(points, m, start), sizes[m], (baseHeight - TotalHeight / 2.0) + (heights[m] + TotalHeight * n as real / 20.0))]
  {
    assert forall j :: 0 <= j <= m ==> MoveTo(points[..m + 1], j, start) == MoveTo(points, j, start);
    assert forall j :: 0 <= j < m ==> MoveTo(points[..m], j, start) == MoveTo(points, j, start);
  }

  /** Placing one more spike appends its record. */
  lemma SpikesSnoc(points: seq<Point>, sizes: seq<real>, heights: seq<real>, corners: nat -> int, n: nat,
                   baseHeight: real, start: Point, trig: Trig, m: nat)
    requires m < |points| && m < |sizes| && m < |heights|
    ensures Spikes(points[..m + 1], sizes, heights, corners, n, baseHeight, start, trig)
            == Spikes(points[..m], sizes, heights, corners, n, baseHeight, start, trig)
               + [Spike(MoveTo(points, m, start), SpikeShape(corners(m), sizes[m], trig), baseHeight,
                        heights[m] + TotalHeight * n as real / 20.0)]
  {
    assert forall j :: 0 <= j <= m ==> MoveTo(points[..m + 1], j, start) == MoveTo(points, j, start);
    assert forall j :: 0 <= j < m ==> MoveTo(points[..m], j, start) == MoveTo(points, j, start);
  }

  /** The first `p` values of a draw, as a list comprehension over `range(p)` makes them. */
  function Drawn(p: nat, draw: nat -> real): (values: seq<real>)
    ensures |values| == p
  {
    seq(p, j requires 0 <= j < p => draw(j))
  }

  /** The satellite heights or sizes of a ring of `p` satellites (lines 518-526): drawn, and
      mirrored when the layer is symmetric. */
  function SatelliteValues(p: nat, draw: nat -> real, symmetry: bool): (values: seq<real>)
    ensures |values| == p
  {
    if symmetry then MirroredHalves(Drawn(p, draw)) else Drawn(p, draw)
  }

  /** The workplane move to the centre `(-r, 0)` of the sculpture (lines 554, 579). */
  function ToCentre(oldCenter: Point): Point
  {
    Point(-oldCenter.x - BaseRadius, -oldCenter.y)
  }

  /** The size and height of the centred boss (lines 543-548): drawn when the layer stands on the
      base (`cur_h == h/2`), fixed otherwise. */
  function CentreBoss(draws: LayerDraws, baseHeight: real): (real, real)
  {
    if baseHeight == TotalHeight / 2.0 then (draws.centreSize, draws.centreHeight)
    else (BaseRadius * 0.12, TotalHeight * 0.2)
  }

  /** What a circular satellite ring produces (lines 331-352) from the centre `start` at height
      `baseHeight`: the outcome, and the point `old_center` ends on, the last boss placed (line 346). */
  function CircularOutcome(res: seq<Feature>, points: seq<Point>, sizes: seq<real>, heights: seq<real>, n: nat,
                           prevLayer: Option<Layer>, baseHeight: real, start: Point): (Outcome, Point)
  {
    var placed := BossesPlaced(points, sizes, heights);
    (if placed < |points| then Raised(IndexError)
     else Built(res + CircularBosses(points, sizes, heights, n, baseHeight, start)
                + (if SmoothsRing(prevLayer) then [BottomFillet(baseHeight, BaseRadius * 0.009)] else [])),
     if placed == 0 then start else points[placed - 1])
  }

  /** What a spiky satellite ring produces (lines 372-400) from the centre `start` at height
      `baseHeight`: the outcome, and the point `old_center` ends on, the last spike placed before
      the first fault (line 400). */
  function SpikyOutcome(res: seq<Feature>, points: seq<Point>, sizes: seq<real>, heights: seq<real>, n: nat,
                        corners: nat -> int, trig: Trig, baseHeight: real, start: Point): (Outcome, Point)
  {
    var placed := FirstSpikeFault(|points|, Min(|sizes|, |heights|), corners, 0);
    (match SpikeError(|points|, Min(|sizes|, |heights|), corners)
     case Some(e) => Raised(e)
     case None => Built(res + Spikes(points, sizes, heights, corners, n, baseHeight, start, trig)),
     if placed == 0 then start else points[placed - 1])
  }

  /** What the ring branch of `gen_type2` produces for a satellite layer of more than one point
      (lines 516-536), starting from the centre `start` at height `baseHeight`: the outcome, and
      the point `old_center` ends on. A missing ring radius raises `TypeError` and an empty ring
      `ZeroDivisionError` before anything is placed. */
  function RingOutcome(res: seq<Feature>, layer: Layer, i: nat, prevLayer: Option<Layer>, draws: LayerDraws,
                       trig: Trig, start: Point, baseHeight: real): (Outcome, Point)
    requires layer.Satellite? && layer.pointsNum > 1
  {
    var p := layer.pointsNum;
    var heights := SatelliteValues(p, draws.height, layer.symmetry);
    var sizes := SatelliteValues(p, draws.size, layer.symmetry);
    if layer.ringRadius.None? then (Raised(TypeError), start)
    else
      match LayerRing(p, layer.ringRadius.value, layer.deviationRange, layer.symmetry, draws, trig)
      case None => (Raised(ZeroDivisionError), start)
      case Some(ring) =>
        if !draws.kernelOk then (Raised(KernelError), start)
        else if layer.polygonRange.None? then CircularOutcome(res, ring, sizes, heights, i, prevLayer, baseHeight, start)
        else SpikyOutcome(res, ring, sizes, heights, i, draws.corners, trig, baseHeight, start)
  }

  /** What the centre branch of `gen_type2` produces for a satellite layer of at most one point
      (lines 539-589), with the workplane last centred on `oldCenter` and the top face at
      `baseHeight`. */
  function CentreOutcome(res: seq<Feature>, layer: Layer, draws: LayerDraws, trig: Trig, oldCenter: Point,
                         baseHeight: real): Outcome
    requires layer.Satellite?
  {
    if layer.polygonRange.None? then
      var (size, height) := CentreBoss(draws, baseHeight);
      if !draws.kernelOk then Raised(KernelError)
      else Built(res + [Boss(ToCentre(oldCenter), size, (baseHeight - TotalHeight / 2.0) + height)])
    else
      match SpikeOutline(draws.centreCorners, draws.centreSize, trig)
      case None => Raised(ZeroDivisionError)
      case Some(outline) =>
        if !draws.kernelOk then Raised(KernelError)
        else Built(res + [Spike(ToCentre(oldCenter), outline, baseHeight, draws.centreHeight)])
  }

  /** A built circular ring extends the solid by a boss per point and leaves `old_center` on its
      last point. */
  lemma CircularOutcomeCentre(res: seq<Feature>, points: seq<Point>, sizes: seq<real>, heights: seq<real>, n: nat,
                              prevLayer: Option<Layer>, baseHeight: real, start: Point)
    ensures var r := CircularOutcome(res, points, sizes, heights, n, prevLayer, baseHeight, start);
            var out, centre := r.0, r.1;
            out.Built? ==>
              && res <= out.solid && |out.solid| >= |res| + |points|
              && (|points| > 0 ==> centre == points[|points| - 1])
  {
  }

  /** A built spiky ring extends the solid by a spike per point and leaves `old_center` on its
      last point. */
  lemma SpikyOutcomeCentre(res: seq<Feature>, points: seq<Point>, sizes: seq<real>, heights: seq<real>, n: nat,
                           corners: nat -> int, trig: Trig, baseHeight: real, start: Point)
    ensures var r := SpikyOutcome(res, points, sizes, heights, n, corners, trig, baseHeight, start);
            var out, centre := r.0, r.1;
            out.Built? ==>
              && res <= out.solid && |out.solid| >= |res| + |points|
              && (|points| > 0 ==> centre == points[|points| - 1])
  {
  }

  /** A built ring has a boss or spike on every one of its points, in order, so `old_center` ends
      on the last ring point; a ring that raises before placing anything leaves it where it was. */
  lemma RingOutcomeCentre(res: seq<Feature>, layer: Layer, i: nat, prevLayer: Option<Layer>, draws: LayerDraws,
                          trig: Trig, start: Point, baseHeight: real)
    requires layer.Satellite? && layer.pointsNum > 1
    ensures var r := RingOutcome(res, layer, i, prevLayer, draws, trig, start, baseHeight);
            var out, centre := r.0, r.1;
            && (out.Built? ==>
                  && layer.ringRadius.Some?
                  && var ring := LayerRing(layer.pointsNum, layer.ringRadius.value, layer.deviationRange, layer.symmetry,
                                           draws, trig);
                  && ring.Some? && |ring.value| > 0
                  && |out.solid| >= |res| + |ring.value|
                  && res <= out.solid
                  && centre == ring.value[|ring.value| - 1])
            && (out.Raised? && (layer.ringRadius.None? || !draws.kernelOk) ==> centre == start)
  {
    var p := layer.pointsNum;
    var heights := SatelliteValues(p, draws.height, layer.symmetry);
    var sizes := SatelliteValues(p, draws.size, layer.symmetry);
    if layer.ringRadius.Some? {
      var ring := LayerRing(p, layer.ringRadius.value, layer.deviationRange, layer.symmetry, draws, trig);
      if ring.Some? && draws.kernelOk {
        assert |ring.value| > 0;
        if layer.polygonRange.None? {
          assert RingOutcome(res, layer, i, prevLayer, draws, trig, start, baseHeight)
                 == CircularOutcome(res, ring.value, sizes, heights, i, prevLayer, baseHeight, start);
          CircularOutcomeCentre(res, ring.value, sizes, heights, i, prevLayer, baseHeight, start);
        } else {
          assert RingOutcome(res, layer, i, prevLayer, draws, trig, start, baseHeight)
                 == SpikyOutcome(res, ring.value, sizes, heights, i, draws.corners, trig, baseHeight, start);
          SpikyOutcomeCentre(res, ring.value, sizes, heights, i, draws.corners, trig, baseHeight, start);
        }
      }
    }
  }

  // ---------------------------------------------------------------------------------------------
  // The rise of a stack of layers

  /** How much building `layers[j..]` raises `cur_h`: only type-1 layers rise, and only the final
      layer is built as the last one (lines 613-622). */
  function StackRise(layers: seq<Layer>, j: nat): real
    requires j <= |layers|
    decreases |layers| - j
  {
    if j == |layers| then 0.0
    else (if layers[j].Profile? then Type1Rise(layers[j], j, j == |layers| - 1) else 0.0) + StackRise(layers, j + 1)
  }

  /** A stack never lowers the sculpture, and rises strictly as soon as it holds a type-1 layer. */
  lemma {:induction false} StackRisePositive(layers: seq<Layer>, j: nat)
    requires j <= |layers|
    ensures StackRise(layers, j) >= 0.0
    ensures (exists k :: j <= k < |layers| && layers[k].Profile?) ==> StackRise(layers, j) > 0.0
    decreases |layers| - j
  {
    if j < |layers| {
      StackRisePositive(layers, j + 1);
      if layers[j].Profile? {
        Type1RiseBounds(layers[j], j, j == |layers| - 1);
      } else if exists k :: j <= k < |layers| && layers[k].Profile? {
        var k :| j <= k < |layers| && layers[k].Profile?;
        assert k != j;
      }
    }
  }

  /** The random draws and kernel verdicts of one attempt of a loop of `generate`: those of a
      rebuilt base, those of `set_params`, and those of each layer. */
  datatype Attempt = Attempt(base: RandomBase, baseKernelOk: bool, plan: seq<Draws>, layers: nat -> LayerDraws)

  predicate AttemptReady(a: Attempt, response: seq<Emotion>)
  {
    RandomBaseInRange(a.base) && |a.plan| == |response| && AllDrawsInRange(a.plan)
  }

  /** A solid that starts with a waveform base. */
  predicate OnBase(solid: seq<Feature>)
  {
    |solid| > 0 && solid[0].WaveformBase?
  }

  // ---------------------------------------------------------------------------------------------
  // The build of a stack of layers and the retries of `generate`

  /** The fields of `SculptureGenerator` as one value: `old_center`, `cur_h` and `recent_points`. */
  datatype BuildState = BuildState(oldCenter: Point, curH: real, recentPoints: seq<Point>)

  /** The state a retry of the top starts from after a failure (lines 674-676). */
  const ResetState: BuildState := BuildState(Point(0.0, 0.0), TotalHeight / 2.0, [])

  /** What `gen_type1` produces from the state `st` (lines 404-498): the outcome and the new state.
      The straight branch reads the type of the previous layer as line 483 does, after the
      extrusion, so a filleted layer without one raises `TypeError`. An exception leaves the state
      as it was. */
  function Type1Step(res: seq<Feature>, layer: Layer, i: nat, prevLayer: Option<Layer>, lastLayer: bool,
                     draws: LayerDraws, trig: Trig, st: BuildState): (Outcome, BuildState)
    requires layer.Profile?
  {
    match LayerRing(layer.pointsNum, layer.radius, layer.deviationRange, layer.symmetry, draws, trig)
    case None => (Raised(ZeroDivisionError), st)
    case Some(ring) =>
      if !draws.kernelOk then (Raised(KernelError), st)
      else if !Lofted(layer, lastLayer) && ExtrusionBottomFilletAsWritten(layer, prevLayer).None? then (Raised(TypeError), st)
      else (Built(res + Type1Features(layer, i, prevLayer, lastLayer, ring, st.oldCenter, st.curH)),
            BuildState(Point(0.0, 0.0), st.curH + Type1Rise(layer, i, lastLayer), ring))
  }

  /** A type-1 layer fails exactly for an empty ring, a kernel failure, or a straight layer with a
      bottom fillet and no layer below it, and then changes nothing. Built, it extends the solid,
      raises `cur_h` by its positive rise, moves `old_center` back to the origin and keeps its
      ring in `recent_points`. */
  lemma Type1StepOutcome(res: seq<Feature>, layer: Layer, i: nat, prevLayer: Option<Layer>, lastLayer: bool,
                         draws: LayerDraws, trig: Trig, st: BuildState)
    requires layer.Profile?
    ensures var r := Type1Step(res, layer, i, prevLayer, lastLayer, draws, trig, st);
            var out, next := r.0, r.1;
            var ring := LayerRing(layer.pointsNum, layer.radius, layer.deviationRange, layer.symmetry, draws, trig);
            && (out.Raised? <==>
                  ring.None? || !draws.kernelOk || (!Lofted(layer, lastLayer) && layer.botFillet && prevLayer.None?))
            && (out.Raised? ==> next == st)
            && (out.Built? ==>
                  && res <= out.solid
                  && next == BuildState(Point(0.0, 0.0), st.curH + Type1Rise(layer, i, lastLayer), ring.value)
                  && next.curH > st.curH)
  {
    Type1RiseBounds(layer, i, lastLayer);
  }

  /** What `gen_type2` produces from the state `st` (lines 500-591): a ring for more than one
      satellite, which moves `old_center`, a centre piece otherwise, which does not. */
  function Type2Step(res: seq<Feature>, layer: Layer, i: nat, prevLayer: Option<Layer>, draws: LayerDraws,
                     trig: Trig, st: BuildState): (Outcome, BuildState)
    requires layer.Satellite?
  {
    if layer.pointsNum > 1 then
      var r := RingOutcome(res, layer, i, prevLayer, draws, trig, st.oldCenter, st.curH);
      var out, centre := r.0, r.1;
      (out, st.(oldCenter := centre))
    else (CentreOutcome(res, layer, draws, trig, st.oldCenter, st.curH), st)
  }

  /** A type-2 layer never changes `cur_h` or `recent_points` and, built, extends the solid. */
  lemma Type2StepOutcome(res: seq<Feature>, layer: Layer, i: nat, prevLayer: Option<Layer>, draws: LayerDraws,
                         trig: Trig, st: BuildState)
    requires layer.Satellite?
    ensures var r := Type2Step(res, layer, i, prevLayer, draws, trig, st);
            var out, next := r.0, r.1;
            && next.curH == st.curH && next.recentPoints == st.recentPoints
            && (layer.pointsNum <= 1 ==> next == st)
            && (out.Built? ==> res <= out.solid)
  {
    if layer.pointsNum > 1 {
      RingOutcomeCentre(res, layer, i, prevLayer, draws, trig, st.oldCenter, st.curH);
    }
  }

  /** What `shape_top` does with layer `i` of `layers` (lines 613-624): `gen_type1` or `gen_type2`,
      given the layer before it and, for the final index only, the last-layer flag. */
  function LayerStep(res: seq<Feature>, layers: seq<Layer>, i: nat, draws: LayerDraws, trig: Trig, st: BuildState)
    : (Outcome, BuildState)
    requires i < |layers|
  {
    var prevLayer := if i == 0 then None else Some(layers[i - 1]);
    if layers[i].Profile? then Type1Step(res, layers[i], i, prevLayer, i == |layers| - 1, draws, trig, st)
    else Type2Step(res, layers[i], i, prevLayer, draws, trig, st)
  }

  /** Building `layers[i..]` on `res` from the state `st`, stopping at the first exception. */
  function BuildFrom(res: seq<Feature>, layers: seq<Layer>, i: nat, layerDraws: nat -> LayerDraws, trig: Trig,
                     st: BuildState): (Outcome, BuildState)
    requires i <= |layers|
    decreases |layers| - i
  {
    if i == |layers| then (Built(res), st)
    else
      var r := LayerStep(res, layers, i, layerDraws(i), trig, st);
      var out, next := r.0, r.1;
      if out.Raised? then (out, next) else BuildFrom(out.solid, layers, i + 1, layerDraws, trig, next)
  }

  /** `BuildFrom` one layer at a time: an exception of layer `i` ends the build, otherwise the build
      goes on from the grown solid and the new state. */
  lemma BuildFromStep(res: seq<Feature>, layers: seq<Layer>, i: nat, layerDraws: nat -> LayerDraws, trig: Trig,
                      st: BuildState)
    requires i < |layers|
    ensures var step := LayerStep(res, layers, i, layerDraws(i), trig, st);
            BuildFrom(res, layers, i, layerDraws, trig, st)
            == if step.0.Raised? then step else BuildFrom(step.0.solid, layers, i + 1, layerDraws, trig, step.1)
  {
  }

  /** A built layer extends the solid and raises `cur_h` by its own rise. */
  lemma LayerStepRise(res: seq<Feature>, layers: seq<Layer>, i: nat, draws: LayerDraws, trig: Trig, st: BuildState)
    requires i < |layers|
    ensures var r := LayerStep(res, layers, i, draws, trig, st);
            var out, next := r.0, r.1;
            out.Built? ==>
              && res <= out.solid
              && next.curH == st.curH + (if layers[i].Profile? then Type1Rise(layers[i], i, i == |layers| - 1) else 0.0)
  {
    var prevLayer := if i == 0 then None else Some(layers[i - 1]);
    if layers[i].Profile? {
      Type1StepOutcome(res, layers[i], i, prevLayer, i == |layers| - 1, draws, trig, st);
    } else {
      Type2StepOutcome(res, layers[i], i, prevLayer, draws, trig, st);
    }
  }

  /** A built stack extends the solid it started on and raises `cur_h` by exactly its rise. */
  lemma {:induction false} BuildFromRise(res: seq<Feature>, layers: seq<Layer>, i: nat, layerDraws: nat -> LayerDraws,
                                         trig: Trig, st: BuildState)
    requires i <= |layers|
    ensures var built := BuildFrom(res, layers, i, layerDraws, trig, st);
            built.0.Built? ==> res <= built.0.solid && built.1.curH == st.curH + StackRise(layers, i)
    decreases |layers| - i
  {
    if i < |layers| {
      var step := LayerStep(res, layers, i, layerDraws(i), trig, st);
      LayerStepRise(res, layers, i, layerDraws(i), trig, st);
      if step.0.Built? {
        BuildFromRise(step.0.solid, layers, i + 1, layerDraws, trig, step.1);
        assert BuildFrom(res, layers, i, layerDraws, trig, st) == BuildFrom(step.0.solid, layers, i + 1, layerDraws, trig, step.1);
      }
    }
  }

  /** What `shape_top(bot, response)` produces from the state `st` (lines 593-626): `ValueError`
      without a satisfied entry, otherwise the build of the plan for a `diameter_limit` of 0.5. */
  function TopOutcome(bot: seq<Feature>, response: seq<Emotion>, planDraws: seq<Draws>, layerDraws: nat -> LayerDraws,
                      trig: Trig, st: BuildState): (Outcome, BuildState)
    requires |planDraws| == |response|
  {
    if !HasSatisfied(response) then (Raised(ValueError), st)
    else BuildFrom(bot, Plan(response, 0.5, planDraws), 0, layerDraws, trig, st)
  }

  /** A built top needs a satisfied entry, extends `bot` and raises `cur_h` by the rise of its plan. */
  lemma TopOutcomeRise(bot: seq<Feature>, response: seq<Emotion>, planDraws: seq<Draws>, layerDraws: nat -> LayerDraws,
                       trig: Trig, st: BuildState)
    requires |planDraws| == |response|
    ensures var r := TopOutcome(bot, response, planDraws, layerDraws, trig, st);
            var out, next := r.0, r.1;
            out.Built? ==>
              && HasSatisfied(response)
              && bot <= out.solid
              && next.curH == st.curH + StackRise(Plan(response, 0.5, planDraws), 0)
              && next.curH >= st.curH
  {
    if HasSatisfied(response) {
      BuildFromRise(bot, Plan(response, 0.5, planDraws), 0, layerDraws, trig, st);
      StackRisePositive(Plan(response, 0.5, planDraws), 0);
    }
  }

  /** What one call of `gen_waveform_base` with the module's `p_num`, `r` and `h` produces in the
      variant a retry asks for (lines 646-653 and 666-671): the raw audio on radius `r`, the same
      less its last `k` points, or a random base whose deviations, radius and skip come from `draw`. */
  function BaseOutcome(variant: BaseVariant, audio: seq<real>, draw: RandomBase, kernelOk: bool, trig: Trig): Outcome
  {
    var samples := if variant == RandomBaseVariant then draw.audio else audio;
    var radius := if variant == RandomBaseVariant then draw.u else BaseRadius;
    var skip := match variant case Raw => None case Skip(k) => Some(k) case RandomBaseVariant => SkipFor(draw.u);
    if |samples| < BasePointCount then Raised(IndexError)
    else if !kernelOk then Raised(KernelError)
    else Built([WaveformBase(DropLast(BaseOutline(BasePointCount, radius, samples, trig), skip),
                             radius * 0.005, TotalHeight / 2.0, radius, radius * 0.2)])
  }

  /** The base each rung of the retry ladder builds: at failure count 0 the full outline of the
      audio on radius `r`, at counts 1 and 2 that outline less its last one or two points, and from
      3 on a random outline on the radius `u` in [0, 1), less the points `SkipFor(u)` drops. */
  lemma LadderBases(failCount: nat, audio: seq<real>, draw: RandomBase, kernelOk: bool, trig: Trig)
    requires RandomBaseInRange(draw)
    ensures var out := BaseOutcome(BaseLadder(failCount), audio, draw, kernelOk, trig);
            && (out.Built? <==> kernelOk && (failCount >= 3 || |audio| >= BasePointCount))
            && (out.Built? ==>
                  && |out.solid| == 1 && out.solid[0].WaveformBase?
                  && (failCount < 3 ==>
                        && out.solid[0].circleRadius == BaseRadius
                        && out.solid[0].outline == BaseOutline(BasePointCount, BaseRadius, audio, trig)[..BasePointCount - failCount])
                  && (failCount >= 3 ==>
                        && 0.0 <= out.solid[0].circleRadius < 1.0
                        && var full := BaseOutline(BasePointCount, draw.u, draw.audio, trig);
                        out.solid[0].outline == if SkipFor(draw.u).None? then full else full[..BasePointCount - SkipFor(draw.u).value]))
  {
  }

  /** The base attempt `j` of the first loop of `generate` builds (lines 646-653). */
  function LadderBase(audio: seq<real>, tries: seq<Attempt>, j: nat, trig: Trig): Outcome
    requires j < |tries|
  {
    BaseOutcome(BaseLadder(j), audio, tries[j].base, tries[j].baseKernelOk, trig)
  }

  /** The base the first loop of `generate` ends with (lines 644-655): that of the first attempt
      from `k` on whose base is built, or `None` when all of them raise. */
  function FirstBase(audio: seq<real>, tries: seq<Attempt>, k: nat, trig: Trig): Option<seq<Feature>>
    requires k <= |tries|
    decreases |tries| - k
  {
    if k == |tries| then None
    else match LadderBase(audio, tries, k, trig)
      case Built(solid) => Some(solid)
      case Raised(_) => FirstBase(audio, tries, k + 1, trig)
  }

  /** The first loop stops at the first base built, and only fails when every attempt fails. */
  lemma {:induction false} FirstBaseIsFirst(audio: seq<real>, tries: seq<Attempt>, k: nat, trig: Trig)
    requires k <= |tries|
    ensures var b := FirstBase(audio, tries, k, trig);
            && (b.None? <==> forall j :: k <= j < |tries| ==> LadderBase(audio, tries, j, trig).Raised?)
            && (b.Some? ==>
                  exists j :: k <= j < |tries| && LadderBase(audio, tries, j, trig) == Built(b.value)
                    && forall l :: k <= l < j ==> LadderBase(audio, tries, l, trig).Raised?)
    decreases |tries| - k
  {
    if k < |tries| {
      FirstBaseIsFirst(audio, tries, k + 1, trig);
      var b := FirstBase(audio, tries, k + 1, trig);
      if LadderBase(audio, tries, k, trig).Built? {
        assert LadderBase(audio, tries, k, trig) == Built(FirstBase(audio, tries, k, trig).value);
      } else if b.Some? {
        var j :| k + 1 <= j < |tries| && LadderBase(audio, tries, j, trig) == Built(b.value)
                 && forall l :: k + 1 <= l < j ==> LadderBase(audio, tries, l, trig).Raised?;
        assert forall l :: k <= l < j ==> LadderBase(audio, tries, l, trig).Raised?;
      }
    }
  }

  /** One attempt `k` of the second loop of `generate` (lines 663-672) on the base `bot` from the
      state `st`: the base is rebuilt when `TopRebuild` says so, and the top is built when the base
      is there. The result is the outcome, the base the next attempt uses and the new state. */
  function TopTry(response: seq<Emotion>, audio: seq<real>, bot: seq<Feature>, a: Attempt, k: nat, st: BuildState,
                  trig: Trig): (Outcome, seq<Feature>, BuildState)
    requires AttemptReady(a, response)
  {
    var rebuilt := match TopRebuild(k)
                   case None => Built(bot)
                   case Some(v) => BaseOutcome(v, audio, a.base, a.baseKernelOk, trig);
    var ready := if TopRebuild(k).Some? && rebuilt.Built? then st.(curH := TotalHeight / 2.0) else st;
    if rebuilt.Raised? then (rebuilt, bot, ready)
    else
      var attempt := TopOutcome(rebuilt.solid, response, a.plan, a.layers, trig, ready);
      var top, next := attempt.0, attempt.1;
      (top, rebuilt.solid, next)
  }

  /** The second loop of `generate` from attempt `k` (lines 657-682), on the base `bot` and from the
      state `st`. The first top built is the result; every failure resets the state to
      `ResetState` and tries again, on the last base built. */
  function FirstTop(response: seq<Emotion>, audio: seq<real>, bot: seq<Feature>, tries: seq<Attempt>, k: nat,
                    st: BuildState, trig: Trig): (Option<seq<Feature>>, BuildState)
    requires k <= |tries| && forall j :: 0 <= j < |tries| ==> AttemptReady(tries[j], response)
    decreases |tries| - k
  {
    if k == |tries| then (None, st)
    else
      var t := TopTry(response, audio, bot, tries[k], k, st, trig);
      var top, base, next := t.0, t.1, t.2;
      if top.Built? then (Some(top.solid), next)
      else FirstTop(response, audio, base, tries, k + 1, ResetState, trig)
  }

  /** A sculpture the second loop returns stands on the base it was given or on a base rebuilt by
      one of its attempts. */
  lemma {:induction false} FirstTopBase(response: seq<Emotion>, audio: seq<real>, bot: seq<Feature>, tries: seq<Attempt>,
                                        k: nat, st: BuildState, trig: Trig)
    requires k <= |tries| && forall j :: 0 <= j < |tries| ==> AttemptReady(tries[j], response)
    requires |bot| > 0
    ensures var result := FirstTop(response, audio, bot, tries, k, st, trig).0;
            result.Some? ==>
              && |result.value| > 0
              && (|| result.value[0] == bot[0]
                  || exists j :: k <= j < |tries| && TopRebuild(j).Some? &&
                       BaseOutcome(TopRebuild(j).value, audio, tries[j].base, tries[j].baseKernelOk, trig) == Built([result.value[0]]))
    decreases |tries| - k
  {
    if k < |tries| {
      var a := tries[k];
      var rebuilt := match TopRebuild(k)
                     case None => Built(bot)
                     case Some(v) => BaseOutcome(v, audio, a.base, a.baseKernelOk, trig);
      var ready := if TopRebuild(k).Some? && rebuilt.Built? then st.(curH := TotalHeight / 2.0) else st;
      if rebuilt.Built? {
        TopOutcomeRise(rebuilt.solid, response, a.plan, a.layers, trig, ready);
      }
      var t := TopTry(response, audio, bot, a, k, st, trig);
      var top, base, next := t.0, t.1, t.2;
      assert |base| > 0;
      FirstTopBase(response, audio, base, tries, k + 1, ResetState, trig);
    }
  }

  /** For an unhandled first label, then sadness and satisfaction, `shape_top` raises on every
      attempt: the only layer is a straight first layer with `bot_fillet` set, which fails at the
      latest at line 483. */
  lemma UnhandledFirstLabelNeverBuilds(bot: seq<Feature>, planDraws: seq<Draws>, layerDraws: nat -> LayerDraws,
                                       trig: Trig, st: BuildState)
    requires |planDraws| == 3 && AllDrawsInRange(planDraws)
    ensures var response := [Emotion(Unhandled("polite"), 0.9), Emotion(Sad, 0.8), Emotion(Satisfied, 0.7)];
            TopOutcome(bot, response, planDraws, layerDraws, trig, st).0.Raised?
  {
    UnhandledFirstLabelRaisesTypeError(planDraws);
    var response := [Emotion(Unhandled("polite"), 0.9), Emotion(Sad, 0.8), Emotion(Satisfied, 0.7)];
    var plan := Plan(response, 0.5, planDraws);
    Type1StepOutcome(bot, plan[0], 0, None, true, layerDraws(0), trig, st);
    assert LayerStep(bot, plan, 0, layerDraws(0), trig, st).0.Raised?;
  }

  /** Hence the second loop of `generate` never returns a sculpture for that response, however many
      attempts it is given. */
  lemma {:induction false} UnhandledFirstLabelNeverGenerates(audio: seq<real>, bot: seq<Feature>, tries: seq<Attempt>,
                                                             k: nat, st: BuildState, trig: Trig)
    requires var response := [Emotion(Unhandled("polite"), 0.9), Emotion(Sad, 0.8), Emotion(Satisfied, 0.7)];
             k <= |tries| && forall j :: 0 <= j < |tries| ==> AttemptReady(tries[j], response)
    ensures var response := [Emotion(Unhandled("polite"), 0.9), Emotion(Sad, 0.8), Emotion(Satisfied, 0.7)];
            FirstTop(response, audio, bot, tries, k, st, trig).0.None?
    decreases |tries| - k
  {
    var response := [Emotion(Unhandled("polite"), 0.9), Emotion(Sad, 0.8), Emotion(Satisfied, 0.7)];
    if k < |tries| {
      var a := tries[k];
      assert AttemptReady(a, response);
      var rebuilt := match TopRebuild(k)
                     case None => Built(bot)
                     case Some(v) => BaseOutcome(v, audio, a.base, a.baseKernelOk, trig);
      var ready := if TopRebuild(k).Some? && rebuilt.Built? then st.(curH := TotalHeight / 2.0) else st;
      if rebuilt.Built? {
        UnhandledFirstLabelNeverBuilds(rebuilt.solid, a.plan, a.layers, trig, ready);
      }
      var t := TopTry(response, audio, bot, a, k, st, trig);
      UnhandledFirstLabelNeverGenerates(audio, t.1, tries, k + 1, ResetState, trig);
    }
  }

  // ---------------------------------------------------------------------------------------------
  // The generator and its build state

  class SculptureGenerator {
    /** The point the workplane was last centred on. */
    var oldCenter: Point
    /** The height of the top face built so far. */
    var curH: real
    /** The ring of the last type-1 layer. */
    var recentPoints: seq<Point>

    constructor ()
      ensures oldCenter == Point(0.0, 0.0) && curH == 0.0 && recentPoints == []
    {
      oldCenter := Point(0.0, 0.0);
      curH := 0.0;
      recentPoints := [];
    }

    /** The fields as one value. */
    function State(): BuildState
      reads this
    {
      BuildState(oldCenter, curH, recentPoints)
    }

    /** `gen_waveform_base` (lines 31-82). The audio deviations scale a circle of `p` points; with
        `randBase` the deviations, the radius and `skip_p` all come from `draw`, the radius being
        the `u` in [0, 1) that line 51 binds to `r`. Too short an audio array raises `IndexError`.
        Only a built base sets `cur_h` to `h/2`. */
    method GenWaveformBase(p: nat, r: real, h: real, audioArray: seq<real>, randBase: bool, skipP: Option<nat>,
                           draw: RandomBase, trig: Trig, kernelOk: bool) returns (bot: Outcome)
      requires randBase ==> |draw.audio| == p && 0.0 <= draw.u < 1.0
      modifies this
      ensures var audio := if randBase then draw.audio else audioArray;
              var radius := if randBase then draw.u else r;
              var skip := if randBase then SkipFor(draw.u) else skipP;
              && (|audio| < p ==> bot == Raised(IndexError))
              && (|audio| >= p && !kernelOk ==> bot == Raised(KernelError))
              && (|audio| >= p && kernelOk ==>
                    bot == Built([WaveformBase(DropLast(BaseOutline(p, radius, audio, trig), skip),
                                               radius * 0.005, h / 2.0, radius, radius * 0.2)]))
      ensures curH == if bot.Built? then h / 2.0 else old(curH)
      ensures oldCenter == old(oldCenter) && recentPoints == old(recentPoints)
    {
      var audio := audioArray;
      var radius := r;
      var skip := skipP;
      if randBase {
        audio := draw.audio;
        radius := draw.u;
        if radius <= 1.0 / 3.0 {
          skip := None;
        } else if radius <= 2.0 / 3.0 {
          skip := Some(1);
        } else {
          skip := Some(2);
        }
      }
      var points: seq<Point> := [];
      var n := 0;
      while n < p
        invariant 0 <= n <= p && n <= |audio|
        invariant |points| == n && forall j :: 0 <= j < n ==> points[j] == BasePoint(p, j, radius, audio[j], trig)
      {
        if n >= |audio| {
          return Raised(IndexError);
        }
        var deviation := audio[n];
        var newPoint := BasePoint(p, n, radius, deviation, trig);
        points := points + [newPoint];
        n := n + 1;
      }
      assert points == BaseOutline(p, radius, audio, trig);
      if skip.Some? {
        points := if skip.value == 0 || skip.value > |points| then [] else points[..|points| - skip.value];
      }
      if !kernelOk {
        return Raised(KernelError);
      }
      bot := Built([WaveformBase(points, radius * 0.005, h / 2.0, radius, radius * 0.2)]);
      curH := h / 2.0;
    }

    /** The deviations and the ring of a layer (lines 419-420 and 528-529): a deviation drawn from
        `uniform(0, 0.3 d)` per ring point, or zero when the layer's range `d` is 0, passed with
        the ring radius and the symmetry flag to `get_polygon_points`. */
    method LayerPoints(pointsNum: int, radius: real, deviationRange: real, symmetry: bool, draws: LayerDraws, trig: Trig)
      returns (ring: Option<seq<Point>>)
      ensures ring == LayerRing(pointsNum, radius, deviationRange, symmetry, draws, trig)
    {
      var deviationArr := DeviationArray(deviationRange, draws.deviation, pointsNum);
      ring := GetPolygonPoints(pointsNum, radius, deviationArr, trig, symmetry);
    }

    /** `gen_type1` (lines 404-498): the ring of the layer, extruded straight or, for the last
        layer with an edge fillet, lofted to a circle; `cur_h` rises by `Type1Rise`, the workplane
        returns to the origin and the ring becomes `recent_points`, as `Type1Step` says. */
    method GenType1(res: seq<Feature>, layer: Layer, i: nat, prevLayer: Option<Layer>, lastLayer: bool,
                    draws: LayerDraws, trig: Trig) returns (out: Outcome)
      requires layer.Profile?
      modifies this
      ensures (out, State()) == Type1Step(res, layer, i, prevLayer, lastLayer, draws, trig, old(State()))
    {
      var ring := LayerPoints(layer.pointsNum, layer.radius, layer.deviationRange, layer.symmetry, draws, trig);
      if ring.None? {
        return Raised(ZeroDivisionError);
      }
      var polygonPts := ring.value;
      if !draws.kernelOk {
        return Raised(KernelError);
      }
      var solid;
      if lastLayer && layer.edgeFillet != 0.0 {
        solid := ExtrudeLofted(res, layer, i, prevLayer, polygonPts);
      } else {
        var straight := ExtrudeStraight(res, layer, i, prevLayer, polygonPts);
        if straight.Raised? {
          return straight;
        }
        solid := straight.solid;
        assert Type1Height(layer, i, lastLayer) == Type1Height(layer, i, false);
      }
      oldCenter := Point(0.0, 0.0);
      recentPoints := polygonPts;
      out := Built(solid);
    }

    /** The lofted branch of `gen_type1` (lines 437-465). */
    method ExtrudeLofted(res: seq<Feature>, layer: Layer, i: nat, prevLayer: Option<Layer>, polygonPts: seq<Point>)
      returns (solid: seq<Feature>)
      requires layer.Profile? && layer.edgeFillet != 0.0
      modifies this
      ensures solid == res + Type1Features(layer, i, prevLayer, true, polygonPts, oldCenter, old(curH))
      ensures curH == old(curH) + Type1Rise(layer, i, true)
      ensures oldCenter == old(oldCenter) && recentPoints == old(recentPoints)
    {
      var k := (i + 1) as real;
      var exH := TotalHeight / (3.0 * k);
      if layer.confidence > 0.5 {
        exH := exH * (1.0 + layer.confidence / 4.0);
      }
      assert exH == Type1Height(layer, i, true);
      var vertexFillet: Option<real> := None;
      if layer.vertexFillet != 0.0 {
        vertexFillet := Some(layer.vertexFillet);
      }
      var move := Point(0.0 - oldCenter.x, 0.0 - oldCenter.y);
      solid := res + [Prism(polygonPts, vertexFillet, move, curH, exH, Some(layer.radius)),
                      TopFillet(curH + 0.0001 + exH, layer.radius * 1.0 / k)];
      if layer.botFillet && !(prevLayer.Some? && prevLayer.value.Satellite?) {
        solid := solid + [BottomFillet(curH, TotalHeight / (20.0 * k))];
      }
      curH := curH + 0.0001 + exH;
    }

    /** The straight branch of `gen_type1` (lines 468-493). The bottom-fillet test of line 483 reads
        the type of the previous layer whenever the layer asks for a bottom fillet, so a layer
        without one raises `TypeError` after the extrusion and before `cur_h` moves. */
    method ExtrudeStraight(res: seq<Feature>, layer: Layer, i: nat, prevLayer: Option<Layer>, polygonPts: seq<Point>)
      returns (out: Outcome)
      requires layer.Profile?
      modifies this
      ensures ExtrusionBottomFilletAsWritten(layer, prevLayer).None? ==> out == Raised(TypeError) && curH == old(curH)
      ensures ExtrusionBottomFilletAsWritten(layer, prevLayer).Some? ==>
                && out == Built(res + StraightFeatures(layer, i, prevLayer, polygonPts, Point(0.0 - oldCenter.x, 0.0 - oldCenter.y),
                                                       old(curH), Type1Height(layer, i, false)))
                && curH == old(curH) + Type1Height(layer, i, false)
      ensures oldCenter == old(oldCenter) && recentPoints == old(recentPoints)
    {
      var k := (i + 1) as real;
      var exH := TotalHeight / (6.0 * k);
      if layer.confidence > 0.5 {
        exH := exH * (1.0 + layer.confidence / 4.0);
      }
      assert exH == Type1Height(layer, i, false);
      var vertexFillet: Option<real> := None;
      if layer.vertexFillet != 0.0 {
        vertexFillet := Some(layer.vertexFillet);
      }
      var move := Point(0.0 - oldCenter.x, 0.0 - oldCenter.y);
      var solid := res + [Prism(polygonPts, vertexFillet, move, curH, exH, None)];
      if layer.botFillet {
        if prevLayer.None? {
          return Raised(TypeError);
        }
        if !prevLayer.value.Satellite? {
          solid := solid + [BottomFillet(curH, TotalHeight / (12.0 * k))];
        }
      }
      ghost var baseHeight := curH;
      curH := curH + exH;
      if layer.edgeFillet != 0.0 {
        solid := solid + [TopFillet(curH + 0.0001, layer.edgeFillet / k)];
      }
      assert solid == res + StraightFeatures(layer, i, prevLayer, polygonPts, move, baseHeight, exH);
      out := Built(solid);
    }

    /** `gen_circular_type2_layer` (lines 313-352): a filleted round boss on every ring point,
        standing on the face at `h/2` and reaching `h n/20` plus its drawn height above `cur_h`,
        then a smoothing fillet onto a previous layer that allows one. Running out of sizes or
        heights raises `IndexError` after the bosses before it were placed. `old_center` follows
        the last placed boss; `cur_h` does not change. */
    method GenCircularType2Layer(res: seq<Feature>, points: seq<Point>, sizes: seq<real>, heights: seq<real>, n: nat,
                                 prevLayer: Option<Layer>) returns (out: Outcome)
      modifies this
      ensures |points| > |sizes| || |points| > |heights| ==> out == Raised(IndexError)
      ensures |points| <= |sizes| && |points| <= |heights| ==>
                out == Built(res + CircularBosses(points, sizes, heights, n, curH, old(oldCenter))
                             + (if SmoothsRing(prevLayer) then [BottomFillet(curH, BaseRadius * 0.009)] else []))
      ensures var placed := BossesPlaced(points, sizes, heights);
              oldCenter == if placed == 0 then old(oldCenter) else points[placed - 1]
      ensures (out, oldCenter) == CircularOutcome(res, points, sizes, heights, n, prevLayer, curH, old(oldCenter))
      ensures curH == old(curH) && recentPoints == old(recentPoints)
    {
      var bH := curH;
      ghost var start := oldCenter;
      var solid := res;
      var m := 0;
      while m < |points|
        invariant 0 <= m <= |points| && m <= |sizes| && m <= |heights|
        invariant solid == res + CircularBosses(points[..m], sizes, heights, n, bH, start)
        invariant oldCenter == if m == 0 then start else points[m - 1]
        invariant curH == bH && recentPoints == old(recentPoints)
      {
        if m >= |sizes| || m >= |heights| {
          return Raised(IndexError);
        }
        var circleR := sizes[m];
        var exH := heights[m] + TotalHeight * n as real / 20.0;
        CircularBossesSnoc(points, sizes, heights, n, bH, start, m);
        solid := solid + [Boss(Point(points[m].x - oldCenter.x, points[m].y - oldCenter.y), circleR, (bH - TotalHeight / 2.0) + exH)];
        oldCenter := points[m];
        m := m + 1;
      }
      assert points[..m] == points;
      if SmoothsRing(prevLayer) {
        solid := solid + [BottomFillet(curH, BaseRadius * 0.009)];
      }
      out := Built(solid);
    }

    /** `gen_spiky_type2_layer` (lines 354-402): on every ring point a spike, a polygon with a
        drawn number of corners and the drawn size as circumradius, lofted from the face at `cur_h`
        to a point `h n/20` plus its drawn height higher. A spike without a size or a height raises
        `IndexError`, one without corners `ZeroDivisionError`, after the spikes before it were
        placed. `old_center` follows the last placed spike; `cur_h` does not change. */
    method GenSpikyType2Layer(res: seq<Feature>, points: seq<Point>, sizes: seq<real>, heights: seq<real>, n: nat,
                              corners: nat -> int, trig: Trig) returns (out: Outcome)
      modifies this
      ensures var err := SpikeError(|points|, Min(|sizes|, |heights|), corners);
              && (err.Some? ==> out == Raised(err.value))
              && (err.None? ==> |points| <= |sizes| && |points| <= |heights| &&
                                out == Built(res + Spikes(points, sizes, heights, corners, n, curH, old(oldCenter), trig)))
      ensures var placed := FirstSpikeFault(|points|, Min(|sizes|, |heights|), corners, 0);
              oldCenter == if placed == 0 then old(oldCenter) else points[placed - 1]
      ensures (out, oldCenter) == SpikyOutcome(res, points, sizes, heights, n, corners, trig, curH, old(oldCenter))
      ensures curH == old(curH) && recentPoints == old(recentPoints)
    {
      ghost var fit := Min(|sizes|, |heights|);
      ghost var placed := FirstSpikeFault(|points|, fit, corners, 0);
      FirstSpikeFaultIsFirst(|points|, fit, corners);
      var bH := curH;
      ghost var start := oldCenter;
      var solid := res;
      var m := 0;
      while m < |points|
        invariant 0 <= m <= placed && m <= |sizes| && m <= |heights|
        invariant solid == res + Spikes(points[..m], sizes, heights, corners, n, bH, start, trig)
        invariant oldCenter == if m == 0 then start else points[m - 1]
        invariant curH == bH && recentPoints == old(recentPoints)
      {
        if m >= |sizes| || m >= |heights| {
          assert m == placed;
          return Raised(IndexError);
        }
        assert m < placed || corners(m) <= 0;
        var circleR := sizes[m];
        var exH := heights[m] + TotalHeight * n as real / 20.0;
        var outline := DrawSpikeOutline(corners(m), circleR, trig);
        if outline.None? {
          assert m == placed;
          return Raised(ZeroDivisionError);
        }
        var polygonPts := outline.value;
        SpikesSnoc(points, sizes, heights, corners, n, bH, start, trig, m);
        solid := solid + [Spike(Point(points[m].x - oldCenter.x, points[m].y - oldCenter.y), polygonPts, bH, exH)];
        oldCenter := points[m];
        m := m + 1;
      }
      assert points[..m] == points;
      out := Built(solid);
    }

    /** `gen_type2` (lines 500-591): a ring of satellites when the layer has more than one, one
        piece at the centre otherwise, as `Type2Step` says. `cur_h` never changes. */
    method GenType2(res: seq<Feature>, layer: Layer, i: nat, prevLayer: Option<Layer>, draws: LayerDraws, trig: Trig)
      returns (out: Outcome)
      requires layer.Satellite?
      modifies this
      ensures (out, State()) == Type2Step(res, layer, i, prevLayer, draws, trig, old(State()))
    {
      if layer.pointsNum > 1 {
        out := GenSatelliteRing(res, layer, i, prevLayer, draws, trig);
      } else {
        out := GenCentrePiece(res, layer, draws, trig);
      }
    }

    /** The branch of `gen_type2` for more than one satellite (lines 516-536): heights and sizes
        are drawn, mirrored when the layer is symmetric, and a boss or a spike goes on every point
        of the ring of `radius`; `old_center` ends on the last one placed (lines 346 and 400). A
        missing radius raises `TypeError`, an empty ring `ZeroDivisionError`. */
    method GenSatelliteRing(res: seq<Feature>, layer: Layer, i: nat, prevLayer: Option<Layer>, draws: LayerDraws,
                            trig: Trig) returns (out: Outcome)
      requires layer.Satellite? && layer.pointsNum > 1
      modifies this
      ensures (out, oldCenter) == RingOutcome(res, layer, i, prevLayer, draws, trig, old(oldCenter), curH)
      ensures curH == old(curH) && recentPoints == old(recentPoints)
    {
      var p := layer.pointsNum;
      var heights, sizes := DrawSatellites(p, draws, layer.symmetry);
      if layer.ringRadius.None? {
        return Raised(TypeError);
      }
      var points := LayerPoints(p, layer.ringRadius.value, layer.deviationRange, layer.symmetry, draws, trig);
      if points.None? {
        return Raised(ZeroDivisionError);
      }
      if !draws.kernelOk {
        return Raised(KernelError);
      }
      if layer.polygonRange.None? {
        out := GenCircularType2Layer(res, points.value, sizes, heights, i, prevLayer);
      } else {
        out := GenSpikyType2Layer(res, points.value, sizes, heights, i, draws.corners, trig);
      }
    }

    /** The heights and sizes of a ring of `p` satellites (lines 518-526): drawn into two lists,
        which the loop of `MirrorSatellites` makes symmetric when the layer asks for it. */
    method DrawSatellites(p: nat, draws: LayerDraws, symmetry: bool) returns (heights: seq<real>, sizes: seq<real>)
      ensures heights == SatelliteValues(p, draws.height, symmetry)
      ensures sizes == SatelliteValues(p, draws.size, symmetry)
    {
      var heightList := new real[p](j requires 0 <= j < p => draws.height(j));
      var sizeList := new real[p](j requires 0 <= j < p => draws.size(j));
      if symmetry {
        MirrorSatellites(heightList, sizeList);
      }
      heights, sizes := heightList[..], sizeList[..];
    }

    /** The branch of `gen_type2` for a single satellite (lines 539-589): one boss, or one spike
        with a drawn number of corners, at the centre `(-r, 0)`; `old_center` stays where it was. */
    method GenCentrePiece(res: seq<Feature>, layer: Layer, draws: LayerDraws, trig: Trig) returns (out: Outcome)
      requires layer.Satellite?
      ensures out == CentreOutcome(res, layer, draws, trig, oldCenter, curH)
    {
      var bH := curH;
      if layer.polygonRange.None? {
        var circleR, exH;
        if bH == TotalHeight / 2.0 {
          circleR := draws.centreSize;
          exH := draws.centreHeight;
        } else {
          circleR := BaseRadius * 0.12;
          exH := TotalHeight * 0.2;
        }
        if !draws.kernelOk {
          return Raised(KernelError);
        }
        out := Built(res + [Boss(Point(-oldCenter.x - BaseRadius, -oldCenter.y), circleR, (bH - TotalHeight / 2.0) + exH)]);
      } else {
        var circleR := draws.centreSize;
        var exH := draws.centreHeight;
        var polygonPtsNum := draws.centreCorners;
        var ring := GetPolygonPoints(polygonPtsNum, circleR, Zeros(polygonPtsNum), trig, false);
        if ring.None? {
          return Raised(ZeroDivisionError);
        }
        var polygonPts := ShiftedRight(ring.value);
        if !draws.kernelOk {
          return Raised(KernelError);
        }
        out := Built(res + [Spike(Point(-oldCenter.x - BaseRadius, -oldCenter.y), polygonPts, bH, exH)]);
      }
    }

    /** `shape_top` (lines 593-626): plan the layers with `set_params(response, 0.5)`, then build
        them in order on `bot`, type-1 layers with `gen_type1` (the final one as the last layer) and
        type-2 layers with `gen_type2`, each knowing the layer before it, as `TopOutcome` says. The
        first exception ends the build. A response without a satisfied entry raises `ValueError`
        (line 105) before anything changes. A built top extends `bot` and raises `cur_h` by the
        rise of the plan. */
    method ShapeTop(bot: seq<Feature>, response: seq<Emotion>, planDraws: seq<Draws>, layerDraws: nat -> LayerDraws,
                    trig: Trig) returns (out: Outcome)
      requires |planDraws| == |response| && AllDrawsInRange(planDraws)
      modifies this
      ensures (out, State()) == TopOutcome(bot, response, planDraws, layerDraws, trig, old(State()))
      ensures !HasSatisfied(response) ==> out == Raised(ValueError) && State() == old(State())
      ensures out.Built? ==>
                && HasSatisfied(response)
                && bot <= out.solid
                && curH == old(curH) + StackRise(Plan(response, 0.5, planDraws), 0)
                && curH >= old(curH)
    {
      TopOutcomeRise(bot, response, planDraws, layerDraws, trig, State());
      if !HasSatisfied(response) {
        return Raised(ValueError);
      }
      var layerList := SetParams(response, 0.5, planDraws);
      out := BuildLayers(bot, layerList, layerDraws, trig);
    }

    /** The loop of `shape_top` (lines 613-624): the layers in order, each with the layer before it,
        the final one with the last-layer flag, until the first exception. */
    method BuildLayers(bot: seq<Feature>, layerList: seq<Layer>, layerDraws: nat -> LayerDraws, trig: Trig)
      returns (out: Outcome)
      modifies this
      ensures (out, State()) == BuildFrom(bot, layerList, 0, layerDraws, trig, old(State()))
    {
      var res := bot;
      var lastLayer := false;
      var prevLayer: Option<Layer> := None;
      var i := 0;
      while i < |layerList|
        invariant 0 <= i <= |layerList|
        invariant BuildFrom(res, layerList, i, layerDraws, trig, State()) == BuildFrom(bot, layerList, 0, layerDraws, trig, old(State()))
        invariant prevLayer == if i == 0 then None else Some(layerList[i - 1])
        invariant !lastLayer
      {
        var layer := layerList[i];
        if i == |layerList| - 1 {
          lastLayer := true;
        }
        ghost var before := State();
        var step := BuildLayer(res, layerList, i, prevLayer, lastLayer, layerDraws(i), trig);
        BuildFromStep(res, layerList, i, layerDraws, trig, before);
        if step.Raised? {
          return step;
        }
        res := step.solid;
        prevLayer := Some(layer);
        i := i + 1;
        lastLayer := false;
      }
      out := Built(res);
    }

    /** One pass of the loop of `shape_top` (lines 614-622): layer `i` goes to `gen_type1` or
        `gen_type2` with the layer before it and the last-layer flag. */
    method BuildLayer(res: seq<Feature>, layers: seq<Layer>, i: nat, prevLayer: Option<Layer>, lastLayer: bool,
                      draws: LayerDraws, trig: Trig) returns (step: Outcome)
      requires i < |layers| && prevLayer == (if i == 0 then None else Some(layers[i - 1]))
      requires lastLayer == (i == |layers| - 1)
      modifies this
      ensures (step, State()) == LayerStep(res, layers, i, draws, trig, old(State()))
    {
      var layer := layers[i];
      if layer.Profile? {
        step := GenType1(res, layer, i, prevLayer, lastLayer, draws, trig);
      } else {
        step := GenType2(res, layer, i, prevLayer, draws, trig);
      }
    }

    /** One call of `gen_waveform_base` with the module's `p_num`, `r` and `h` in the variant a
        retry asks for (lines 646-653 and 666-671), as `BaseOutcome` says. */
    method GenBase(variant: BaseVariant, audioArray: seq<real>, draw: RandomBase, kernelOk: bool, trig: Trig)
      returns (bot: Outcome)
      requires RandomBaseInRange(draw)
      modifies this
      ensures bot == BaseOutcome(variant, audioArray, draw, kernelOk, trig)
      ensures bot.Built? ==> |bot.solid| == 1 && OnBase(bot.solid)
      ensures variant != RandomBaseVariant ==>
                (bot.Built? <==> |audioArray| >= BasePointCount && kernelOk)
      ensures variant == RandomBaseVariant ==> (bot.Built? <==> kernelOk)
      ensures curH == if bot.Built? then TotalHeight / 2.0 else old(curH)
      ensures oldCenter == old(oldCenter) && recentPoints == old(recentPoints)
    {
      match variant
      case Raw =>
        bot := GenWaveformBase(BasePointCount, BaseRadius, TotalHeight, audioArray, false, None, draw, trig, kernelOk);
      case Skip(k) =>
        bot := GenWaveformBase(BasePointCount, BaseRadius, TotalHeight, audioArray, false, Some(k), draw, trig, kernelOk);
      case RandomBaseVariant =>
        bot := GenWaveformBase(BasePointCount, BaseRadius, TotalHeight, audioArray, true, None, draw, trig, kernelOk);
    }

    /** `generate` (lines 628-682). The first loop builds a base, retrying with the variants of
        `BaseLadder`; the second builds the top, rebuilding the base as `TopRebuild` says and
        resetting the build state after every failure. The source retries forever; here attempt
        `k` of each loop uses the draws of `baseTries[k]` or `topTries[k]`, and `None` means that
        every attempt given failed. The result and the final state are those `FirstBase` and
        `FirstTop` describe. A sculpture stands on a waveform base and has a plan of its own (so
        the response names a satisfied emotion), and its height is `h/2` plus that plan's rise. */
    method Generate(response: seq<Emotion>, audioArray: seq<real>, baseTries: seq<Attempt>, topTries: seq<Attempt>,
                    trig: Trig) returns (result: Option<seq<Feature>>)
      requires forall k :: 0 <= k < |baseTries| ==> RandomBaseInRange(baseTries[k].base)
      requires forall k :: 0 <= k < |topTries| ==> AttemptReady(topTries[k], response)
      modifies this
      ensures var base := FirstBase(audioArray, baseTries, 0, trig);
              && (base.None? ==> result.None? && State() == old(State()))
              && (base.Some? ==>
                    (result, State()) == FirstTop(response, audioArray, base.value, topTries, 0,
                                                  old(State()).(curH := TotalHeight / 2.0), trig))
      ensures !HasSatisfied(response) ==> result.None?
      ensures result.Some? ==>
                && HasSatisfied(response)
                && OnBase(result.value)
                && curH >= TotalHeight / 2.0
                && exists k :: 0 <= k < |topTries| && AttemptReady(topTries[k], response) &&
                     curH == TotalHeight / 2.0 + StackRise(Plan(response, 0.5, topTries[k].plan), 0)
    {
      var base := FirstBuiltBase(audioArray, baseTries, trig);
      if base.None? {
        return None;
      }
      result := RetryTop(response, audioArray, base.value, topTries, trig);
    }

    /** The first loop of `generate` (lines 644-655): build a base, and on failure retry with the
        next variant of `BaseLadder`. */
    method FirstBuiltBase(audioArray: seq<real>, baseTries: seq<Attempt>, trig: Trig) returns (base: Option<seq<Feature>>)
      requires forall k :: 0 <= k < |baseTries| ==> RandomBaseInRange(baseTries[k].base)
      modifies this
      ensures base == FirstBase(audioArray, baseTries, 0, trig)
      ensures base.Some? ==> OnBase(base.value) && State() == old(State()).(curH := TotalHeight / 2.0)
      ensures base.None? ==> State() == old(State())
    {
      var failCount := 0;
      base := None;
      while base.None? && failCount < |baseTries|
        invariant 0 <= failCount <= |baseTries|
        invariant base.None? ==> FirstBase(audioArray, baseTries, failCount, trig) == FirstBase(audioArray, baseTries, 0, trig)
        invariant base.None? ==> State() == old(State())
        invariant base.Some? ==> base == FirstBase(audioArray, baseTries, 0, trig)
        invariant base.Some? ==> OnBase(base.value) && State() == old(State()).(curH := TotalHeight / 2.0)
        decreases |baseTries| - failCount, if base.None? then 1 else 0
      {
        var attempt := baseTries[failCount];
        var built := GenBase(BaseLadder(failCount), audioArray, attempt.base, attempt.baseKernelOk, trig);
        if built.Built? {
          base := Some(built.solid);
        } else {
          failCount := failCount + 1;
        }
      }
    }

    /** The second loop of `generate` (lines 657-682), on the base `bot` built by the first. */
    method RetryTop(response: seq<Emotion>, audioArray: seq<real>, bot: seq<Feature>, topTries: seq<Attempt>, trig: Trig)
      returns (result: Option<seq<Feature>>)
      requires OnBase(bot) && curH == TotalHeight / 2.0
      requires forall k :: 0 <= k < |topTries| ==> AttemptReady(topTries[k], response)
      modifies this
      ensures (result, State()) == FirstTop(response, audioArray, bot, topTries, 0, old(State()), trig)
      ensures !HasSatisfied(response) ==> result.None?
      ensures result.Some? ==>
                && HasSatisfied(response)
                && OnBase(result.value)
                && curH >= TotalHeight / 2.0
                && exists k :: 0 <= k < |topTries| && AttemptReady(topTries[k], response) &&
                     curH == TotalHeight / 2.0 + StackRise(Plan(response, 0.5, topTries[k].plan), 0)
    {
      var base := bot;
      var failCount := 0;
      while failCount < |topTries|
        invariant 0 <= failCount <= |topTries|
        invariant OnBase(base) && curH == TotalHeight / 2.0
        invariant FirstTop(response, audioArray, base, topTries, failCount, State(), trig)
                  == FirstTop(response, audioArray, bot, topTries, 0, old(State()), trig)
      {
        var top;
        top, base := TryTop(response, audioArray, base, topTries[failCount], failCount, trig);
        if top.Built? {
          return Some(top.solid);
        }
        oldCenter := Point(0.0, 0.0);
        curH := TotalHeight / 2.0;
        recentPoints := [];
        failCount := failCount + 1;
      }
      result := None;
    }

    /** One attempt of the second loop of `generate` (lines 663-672): rebuild the base when the
        ladder says so, then build the top on the base, as `TopTry` says. */
    method TryTop(response: seq<Emotion>, audioArray: seq<real>, bot: seq<Feature>, attempt: Attempt, failCount: nat,
                  trig: Trig) returns (top: Outcome, base: seq<Feature>)
      requires OnBase(bot) && curH == TotalHeight / 2.0 && AttemptReady(attempt, response)
      modifies this
      ensures (top, base, State()) == TopTry(response, audioArray, bot, attempt, failCount, old(State()), trig)
      ensures OnBase(base)
      ensures top.Built? ==>
                && HasSatisfied(response)
                && OnBase(top.solid)
                && curH == TotalHeight / 2.0 + StackRise(Plan(response, 0.5, attempt.plan), 0)
                && curH >= TotalHeight / 2.0
    {
      base := bot;
      var rebuild := TopRebuild(failCount);
      if rebuild.Some? {
        var built := GenBase(rebuild.value, audioArray, attempt.base, attempt.baseKernelOk, trig);
        if built.Raised? {
          return built, bot;
        }
        base := built.solid;
      }
      top := ShapeTop(base, response, attempt.plan, attempt.layers, trig);
      if top.Built? {
        assert base[0] == top.solid[0];
      }
    }
  }
}
