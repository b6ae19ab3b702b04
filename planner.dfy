/** The layer planner `set_params` (SculptureGenerator.py lines 84-246): a rule engine that turns
    the ranked emotion list into at most three layer records, stacked from the base upward. */
module Planner {
  import opened Common

  /** The classifier's labels. The five the planner dispatches on, and any other label (the tone
      classifier also reports labels such as "polite"), which no branch handles. */
  datatype Label = Frustrated | Excited | Sad | Sympathetic | Satisfied | Unhandled(name: string)

  /** One `{'class_name': ..., 'confidence': ...}` entry of the response. */
  datatype Emotion = Emotion(className: Label, confidence: real)

  /** A layer record. `Profile` is `"type": 1` (a re-extruded polygon), `Satellite` is `"type": 2`
      (bosses around a ring, or one centred boss when `pointsNum` is 1). */
  datatype Layer =
    | Profile(confidence: real, pointsNum: int, radius: real, edgeFillet: real, vertexFillet: real,
              deviationRange: real, symmetry: bool, botFillet: bool)
    | Satellite(confidence: real, pointsNum: int, ringRadius: Option<real>, polygonRange: Option<(int, int)>,
                deviationRange: real, symmetry: bool)

  /** The `random.randint` draws available to one iteration: `randint(17, 35)` for sadness (line 188),
      `randint(10, 25)` for sympathy (line 208), `randint(12, 15)` for satisfaction (line 226).
      An iteration uses at most the one of its branch. */
  datatype Draws = Draws(sad: int, sympathetic: int, satisfied: int)

  predicate DrawsInRange(d: Draws)
  {
    17 <= d.sad <= 35 && 10 <= d.sympathetic <= 25 && 12 <= d.satisfied <= 15
  }

  predicate AllDrawsInRange(draws: seq<Draws>)
  {
    forall j :: 0 <= j < |draws| ==> DrawsInRange(draws[j])
  }

  /** `bot_limit` (line 96): the smallest radius a profile layer's guard admits. */
  const BotLimit: real := BaseRadius * 0.19

  /** `top_limit` (line 97). */
  function TopLimit(diameterLimit: real): real
  {
    BaseRadius * diameterLimit
  }

  predicate HasSatisfied(response: seq<Emotion>)
  {
    exists j :: 0 <= j < |response| && response[j].className == Satisfied
  }

  predicate AllHandled(response: seq<Emotion>)
  {
    forall j :: 0 <= j < |response| ==> !response[j].className.Unhandled?
  }

  /** `[el['class_name'] for el in response].index('satisfied')` (lines 105, 158): the position of
      the first satisfied entry. */
  function SatisfiedIndex(response: seq<Emotion>): (k: nat)
    requires HasSatisfied(response)
    ensures k < |response| && response[k].className == Satisfied
    ensures forall j :: 0 <= j < k ==> response[j].className != Satisfied
  {
    if response[0].className == Satisfied then 0
    else
      assert HasSatisfied(response[1..]) by {
        var j :| 0 <= j < |response| && response[j].className == Satisfied;
        assert response[1..][j - 1] == response[j];
      }
      1 + SatisfiedIndex(response[1..])
  }

  /** The test shared by lines 110, 127 and 159: satisfaction ranks among the first three and is
      more than marginal. */
  predicate SatisfiedProminent(response: seq<Emotion>)
    requires HasSatisfied(response)
  {
    SatisfiedIndex(response) < 3 && response[SatisfiedIndex(response)].confidence > 0.15
  }

  /** `bot_fillet` as recomputed at the top of every iteration (lines 110-113). */
  predicate BotFilletFlag(response: seq<Emotion>, prev: Option<Emotion>)
    requires HasSatisfied(response)
  {
    SatisfiedProminent(response) && prev.Some? && prev.value.className != Frustrated
  }

  /** Python's `round(x)`: the nearest integer, a tie going to the even neighbour. */
  function PyRound(x: real): (n: int)
    ensures -0.5 <= n as real - x <= 0.5
    ensures (n as real - x == 0.5 || x - n as real == 0.5) ==> n % 2 == 0
  {
    var f := x.Floor;
    var frac := x - f as real;
    if frac < 0.5 then f
    else if frac > 0.5 then f + 1
    else if f % 2 == 0 then f else f + 1
  }

  /** The sadness multiplier `1 + round(confidence/4)` of line 190 is 1 for every confidence in
      (0.5, 1]: the multiplication never changes the drawn point count. */
  lemma SadMultiplierIsOne(confidence: real)
    requires 0.5 < confidence <= 1.0
    ensures 1 + PyRound(confidence / 4.0) == 1
  {
    var n := PyRound(confidence / 4.0);
    assert -0.5 <= n as real - confidence / 4.0 <= 0.5;
  }

  /** The number of satellites for a confidence (lines 134-141 and 164-171). */
  function PointsBucket(confidence: real): int
  {
    if confidence >= 0.8 then 13
    else if confidence >= 0.65 then 12
    else if confidence >= 0.5 then 11
    else 10
  }

  /** The radius of a sad or sympathetic layer (lines 197 and 214). The condition as written,
      `(i < 2) or (... and (i < 2))`, comes down to `i < 2`. */
  function ProfileRadius(diameterLimit: real, i: nat, prev: Option<Emotion>): (radius: real)
    ensures radius == if i < 2 then TopLimit(diameterLimit) - BaseRadius * i as real * 0.15 else BaseRadius * 0.15
  {
    if (i < 2) || ((prev.None? || !(prev.value.className.Excited? || prev.value.className.Frustrated?)) && (i < 2))
    then TopLimit(diameterLimit) - BaseRadius * i as real * 0.15
    else BaseRadius * 0.15
  }

  /** The two substitution guards (lines 115-122). `None` is the early return at line 117. */
  function Substitute(response: seq<Emotion>, i: nat, prev: Option<Emotion>, symmetry: bool): (e: Option<Emotion>)
    requires i < |response|
    requires i > 0 ==> prev.Some?
    ensures e.None? <==> response[i].className == Satisfied && symmetry && i == 2
    ensures e.Some? ==> e.value == response[i] || e.value == response[0]
    ensures e.Some? && response[i].className == Satisfied && symmetry ==> e.value == response[0]
    ensures e.Some? && i > 0 && (prev.value.confidence - response[i].confidence > 0.3 || response[i].confidence < 0.15)
            ==> e.value == response[0]
    ensures !(response[i].className == Satisfied && symmetry) &&
            (i == 0 || (prev.value.confidence - response[i].confidence <= 0.3 && response[i].confidence >= 0.15))
            ==> e == Some(response[i])
  {
    var emotion := response[i];
    if emotion.className == Satisfied && symmetry && i == 2 then None
    else
      var emotion := if emotion.className == Satisfied && symmetry then response[0] else emotion;
      if i != 0 && (prev.value.confidence - emotion.confidence > 0.3 || emotion.confidence < 0.15)
      then Some(response[0])
      else Some(emotion)
  }

  /** The satellite record of lines 143-151 and 173-181. */
  function SatelliteLayer(e: Emotion, i: nat, symmetry: bool): Layer
  {
    Satellite(e.confidence,
              if i < 2 then PointsBucket(e.confidence) / (i + 1) else 1,
              if i < 2 then Some(BaseRadius * 0.63 - BaseRadius * i as real * 0.27) else None,
              if e.className == Frustrated then Some((3, 6)) else None,
              0.0, symmetry)
  }

  /** The loop's carried variables: `prev_emotion`, `t2_symmetry` and `layer_list`. */
  datatype PlanState = PlanState(prev: Option<Emotion>, symmetry: bool, layers: seq<Layer>)

  /** What one iteration does: go on with new carried variables, or return a list. */
  datatype Step = Continue(next: PlanState) | Return(result: seq<Layer>)

  predicate StepReady(response: seq<Emotion>, i: nat, st: PlanState)
  {
    HasSatisfied(response) && i < |response| && (i > 0 ==> st.prev.Some?)
  }

  /** One iteration of the loop at line 107, up to and including `prev_emotion = emotion`. */
  function Iterate(response: seq<Emotion>, diameterLimit: real, d: Draws, i: nat, st: PlanState): Step
    requires StepReady(response, i, st)
  {
    match Substitute(response, i, st.prev, st.symmetry)
    case None => Return(st.layers)
    case Some(e) => Dispatch(response, diameterLimit, d, i, st, e)
  }

  /** The branch on the (possibly substituted) emotion `e` (lines 124-241). */
  function Dispatch(response: seq<Emotion>, diameterLimit: real, d: Draws, i: nat, st: PlanState, e: Emotion): Step
    requires HasSatisfied(response)
  {
    match e.className
    case Frustrated | Excited =>
      var symmetry := st.symmetry || SatisfiedProminent(response);
      var layer := SatelliteLayer(e, i, symmetry);
      if layer.pointsNum == 1 then Return(st.layers + [layer])
      else Continue(PlanState(Some(e), symmetry, st.layers + [layer]))
    case Sad =>
      var pointsNum := if e.confidence > 0.5 then d.sad * (1 + PyRound(e.confidence / 4.0)) else d.sad;
      if TopLimit(diameterLimit) - BaseRadius * i as real * 0.15 < BotLimit then Return(st.layers)
      else
        var layer := Profile(e.confidence, pointsNum - i * 2, ProfileRadius(diameterLimit, i, st.prev),
                             0.0, 0.0, 1.0, false, if i > 0 then BotFilletFlag(response, st.prev) else false);
        Continue(PlanState(Some(e), st.symmetry, st.layers + [layer]))
    case Sympathetic =>
      if TopLimit(diameterLimit) - BaseRadius * i as real * 0.15 < BotLimit then Return(st.layers)
      else
        var layer := Profile(e.confidence, d.sympathetic - i * 2, ProfileRadius(diameterLimit, i, st.prev),
                             BaseRadius * 0.1, BaseRadius * 0.1, 1.0, false, BotFilletFlag(response, st.prev));
        Continue(PlanState(Some(e), st.symmetry, st.layers + [layer]))
    case Satisfied =>
      if TopLimit(diameterLimit) - BaseRadius * i as real * 0.2 < BotLimit then Return(st.layers)
      else
        var layer := Profile(e.confidence, d.satisfied - i * 3, TopLimit(diameterLimit) - BaseRadius * i as real * 0.2,
                             BaseRadius * 0.1, BaseRadius * 0.2, 2.2, true, BotFilletFlag(response, st.prev));
        Continue(PlanState(Some(e), true, st.layers + [layer]))
    case Unhandled(_) =>
      Continue(PlanState(Some(e), st.symmetry, st.layers))
  }

  predicate PlanReady(response: seq<Emotion>, draws: seq<Draws>, i: nat, st: PlanState)
  {
    HasSatisfied(response) && |draws| == |response| && i <= |response| && (i > 0 ==> st.prev.Some?)
  }

  /** The list `set_params` returns when its loop is entered at iteration `i` with carried
      variables `st`; the loop stops once three layers are collected (line 243). */
  function PlanFrom(response: seq<Emotion>, diameterLimit: real, draws: seq<Draws>, i: nat, st: PlanState): seq<Layer>
    requires PlanReady(response, draws, i, st)
    decreases |response| - i
  {
    if i == |response| then st.layers
    else
      match Iterate(response, diameterLimit, draws[i], i, st)
      case Return(result) => result
      case Continue(next) =>
        if |next.layers| == 3 then next.layers else PlanFrom(response, diameterLimit, draws, i + 1, next)
  }

  /** The list `set_params(response, diameter_limit)` returns when iteration `i` may use `draws[i]`. */
  function Plan(response: seq<Emotion>, diameterLimit: real, draws: seq<Draws>): seq<Layer>
    requires HasSatisfied(response) && |draws| == |response|
  {
    PlanFrom(response, diameterLimit, draws, 0, PlanState(None, false, []))
  }

  /** The guards at the top of each pass of the loop (lines 115-122): the satisfied entry met again
      under symmetry is swapped for the strongest emotion (or ends the plan at the third pass), and
      so is an emotion much weaker than its predecessor or weak outright. */
  method SubstituteEmotion(response: seq<Emotion>, i: nat, prevEmotion: Option<Emotion>, t2Symmetry: bool)
    returns (chosen: Option<Emotion>)
    requires i < |response| && (i > 0 ==> prevEmotion.Some?)
    ensures chosen == Substitute(response, i, prevEmotion, t2Symmetry)
  {
    var emotion := response[i];
    if emotion.className == Satisfied && t2Symmetry {
      if i == 2 {
        return None;
      }
      emotion := response[0];
    }
    if i != 0 && (prevEmotion.value.confidence - emotion.confidence > 0.3 || emotion.confidence < 0.15) {
      emotion := response[0];
    }
    return Some(emotion);
  }

  /** The branch on the emotion of one pass (lines 124-241), with `bot_fillet` computed as at
      lines 110-113 and `prev_emotion = emotion` at the end. `Return` is one of the early `return`s. */
  method DispatchEmotion(response: seq<Emotion>, diameterLimit: real, d: Draws, i: nat,
                         prevEmotion: Option<Emotion>, t2Symmetry: bool, layerList: seq<Layer>, emotion: Emotion)
    returns (step: Step)
    requires HasSatisfied(response)
    ensures step == Dispatch(response, diameterLimit, d, i, PlanState(prevEmotion, t2Symmetry, layerList), emotion)
  {
    var botLimit := BaseRadius * 0.19;
    var topLimit := BaseRadius * diameterLimit;
    var satisfiedIndex := SatisfiedIndex(response);
    var botFillet := false;
    if satisfiedIndex < 3 && response[satisfiedIndex].confidence > 0.15 && prevEmotion.Some? &&
       prevEmotion.value.className != Frustrated {
      botFillet := true;
    }
    var symmetry := t2Symmetry;
    var layers := layerList;
    match emotion.className {
      case Frustrated =>
        if satisfiedIndex < 3 && response[satisfiedIndex].confidence > 0.15 {
          symmetry := true;
        }
        var radius := BaseRadius * 0.63;
        var polygonRange := (3, 6);
        var pointsNum := PointsBucket(emotion.confidence);
        layers := layers + [Satellite(emotion.confidence,
                                      if i < 2 then pointsNum / (i + 1) else 1,
                                      if i < 2 then Some(radius - BaseRadius * i as real * 0.27) else None,
                                      Some(polygonRange), 0.0, symmetry)];
        if layers[|layers| - 1].pointsNum == 1 {
          return Return(layers);
        }
      case Excited =>
        satisfiedIndex := SatisfiedIndex(response);
        if satisfiedIndex < 3 && response[satisfiedIndex].confidence > 0.15 {
          symmetry := true;
        }
        var radius := BaseRadius * 0.63;
        var pointsNum := PointsBucket(emotion.confidence);
        layers := layers + [Satellite(emotion.confidence,
                                      if i < 2 then pointsNum / (i + 1) else 1,
                                      if i < 2 then Some(radius - BaseRadius * i as real * 0.27) else None,
                                      None, 0.0, symmetry)];
        if layers[|layers| - 1].pointsNum == 1 {
          return Return(layers);
        }
      case Sad =>
        var polyPointsNum := d.sad;
        if emotion.confidence > 0.5 {
          polyPointsNum := polyPointsNum * (1 + PyRound(emotion.confidence / 4.0));
        }
        if topLimit - BaseRadius * i as real * 0.15 < botLimit {
          return Return(layers);
        }
        layers := layers + [Profile(emotion.confidence, polyPointsNum - i * 2,
                                    ProfileRadius(diameterLimit, i, prevEmotion),
                                    0.0, 0.0, 1.0, false, if i > 0 then botFillet else false)];
      case Sympathetic =>
        var polyPointsNum := d.sympathetic;
        if topLimit - BaseRadius * i as real * 0.15 < botLimit {
          return Return(layers);
        }
        layers := layers + [Profile(emotion.confidence, polyPointsNum - i * 2,
                                    ProfileRadius(diameterLimit, i, prevEmotion),
                                    BaseRadius * 0.1, BaseRadius * 0.1, 1.0, false, botFillet)];
      case Satisfied =>
        if topLimit - BaseRadius * i as real * 0.2 < botLimit {
          return Return(layers);
        }
        var polyPointsNum := d.satisfied;
        layers := layers + [Profile(emotion.confidence, polyPointsNum - i * 3,
                                    topLimit - BaseRadius * i as real * 0.2,
                                    BaseRadius * 0.1, BaseRadius * 0.2, 2.2, true, botFillet)];
        symmetry := true;
      case Unhandled(_) =>
    }
    step := Continue(PlanState(Some(emotion), symmetry, layers));
  }

  /** `set_params` (lines 84-246): the loop over the response, stopping at an early return or once
      three layers are collected (line 243). A response without a satisfied entry makes line 105
      raise; it is excluded by the precondition. */
  method SetParams(response: seq<Emotion>, diameterLimit: real, draws: seq<Draws>) returns (layerList: seq<Layer>)
    requires HasSatisfied(response) && |draws| == |response| && AllDrawsInRange(draws)
    ensures layerList == Plan(response, diameterLimit, draws)
  {
    layerList := [];
    var prevEmotion: Option<Emotion> := None;
    var t2Symmetry := false;
    var i := 0;
    while i < |response|
      invariant 0 <= i <= |response|
      invariant i > 0 ==> prevEmotion.Some?
      invariant PlanFrom(response, diameterLimit, draws, i, PlanState(prevEmotion, t2Symmetry, layerList))
                == Plan(response, diameterLimit, draws)
    {
      var chosen := SubstituteEmotion(response, i, prevEmotion, t2Symmetry);
      if chosen.None? {
        return;
      }
      var step := DispatchEmotion(response, diameterLimit, draws[i], i, prevEmotion, t2Symmetry, layerList, chosen.value);
      match step {
        case Return(result) =>
          return result;
        case Continue(next) =>
          prevEmotion, t2Symmetry, layerList := next.prev, next.symmetry, next.layers;
      }
      if |layerList| == 3 {
        break;
      }
      i := i + 1;
    }
  }

  // ---------------------------------------------------------------------------------------------
  // Properties of the plan

  /** The classifier reports confidences in [0, 1]. */
  predicate ConfidencesInRange(response: seq<Emotion>)
  {
    forall j :: 0 <= j < |response| ==> 0.0 <= response[j].confidence <= 1.0
  }

  /** A satellite layer record that ends planning: one centred boss (lines 153 and 183). */
  predicate IsUnitSatellite(layer: Layer)
  {
    layer.Satellite? && layer.pointsNum == 1
  }

  /** What layer `k` of a plan looks like when it was made by iteration `k`. */
  predicate LayerFits(layer: Layer, k: nat, diameterLimit: real)
  {
    match layer
    case Satellite(confidence, pointsNum, ringRadius, polygonRange, deviationRange, _) =>
      deviationRange == 0.0 && (polygonRange == Some((3, 6)) || polygonRange == None) &&
      if k < 2 then
        pointsNum == PointsBucket(confidence) / (k + 1) &&
        ringRadius == Some(BaseRadius * 0.63 - BaseRadius * k as real * 0.27)
      else
        pointsNum == 1 && ringRadius == None
    case Profile(_, pointsNum, radius, _, _, _, _, botFillet) =>
      (k == 0 ==> !botFillet) && pointsNum >= 6 &&
      (radius >= BotLimit || (k >= 2 && radius == BaseRadius * 0.15))
  }

  /** One iteration keeps the layers collected so far and adds at most one; a unit satellite is
      added only by the iteration that then returns. */
  lemma IterateGrows(response: seq<Emotion>, diameterLimit: real, d: Draws, i: nat, st: PlanState)
    requires StepReady(response, i, st)
    ensures match Iterate(response, diameterLimit, d, i, st)
            case Return(result) =>
              result == st.layers || (|result| == |st.layers| + 1 && result[..|st.layers|] == st.layers)
            case Continue(next) =>
              next.prev.Some? &&
              (next.layers == st.layers ||
               (|next.layers| == |st.layers| + 1 && next.layers[..|st.layers|] == st.layers &&
                !IsUnitSatellite(next.layers[|st.layers|])))
  {
    match Substitute(response, i, st.prev, st.symmetry)
    case None =>
    case Some(e) =>
      var layers := st.layers;
      match e.className
      case Frustrated =>
        assert (layers + [SatelliteLayer(e, i, true)])[..|layers|] == layers;
        assert (layers + [SatelliteLayer(e, i, false)])[..|layers|] == layers;
      case Excited =>
        assert (layers + [SatelliteLayer(e, i, true)])[..|layers|] == layers;
        assert (layers + [SatelliteLayer(e, i, false)])[..|layers|] == layers;
      case Sad =>
      case Sympathetic =>
      case Satisfied =>
      case Unhandled(_) =>
  }

  lemma {:induction false} PlanFromGrows(response: seq<Emotion>, diameterLimit: real, draws: seq<Draws>, i: nat, st: PlanState)
    requires PlanReady(response, draws, i, st) && |st.layers| < 3
    requires forall k :: 0 <= k < |st.layers| ==> !IsUnitSatellite(st.layers[k])
    ensures var r := PlanFrom(response, diameterLimit, draws, i, st);
            |r| <= 3 && |st.layers| <= |r| && r[..|st.layers|] == st.layers &&
            forall k :: 0 <= k < |r| - 1 ==> !IsUnitSatellite(r[k])
    decreases |response| - i
  {
    if i < |response| {
      IterateGrows(response, diameterLimit, draws[i], i, st);
      match Iterate(response, diameterLimit, draws[i], i, st)
      case Return(result) =>
      case Continue(next) =>
        if |next.layers| < 3 {
          PlanFromGrows(response, diameterLimit, draws, i + 1, next);
          var r := PlanFrom(response, diameterLimit, draws, i + 1, next);
          assert r[..|st.layers|] == r[..|next.layers|][..|st.layers|];
        }
    }
  }

  /** `set_params` never returns more than three layers (the `break` at line 243, with at most one
      append per iteration), and a one-boss satellite layer can only be the last one. */
  lemma PlanAtMostThree(response: seq<Emotion>, diameterLimit: real, draws: seq<Draws>)
    requires HasSatisfied(response) && |draws| == |response|
    ensures |Plan(response, diameterLimit, draws)| <= 3
    ensures var r := Plan(response, diameterLimit, draws);
            forall k :: 0 <= k < |r| && IsUnitSatellite(r[k]) ==> k == |r| - 1
  {
    PlanFromGrows(response, diameterLimit, draws, 0, PlanState(None, false, []));
  }

  /** The branch on a handled emotion of confidence in [0, 1], at iteration `i` with `i` layers
      collected, adds layer `i` in the shape `LayerFits` describes, or returns without adding. */
  lemma DispatchFits(response: seq<Emotion>, diameterLimit: real, d: Draws, i: nat, st: PlanState, e: Emotion)
    requires HasSatisfied(response) && (i == 0 <==> st.prev.None?)
    requires !e.className.Unhandled? && 0.0 <= e.confidence <= 1.0
    requires DrawsInRange(d) && |st.layers| == i && i < 3
    ensures match Dispatch(response, diameterLimit, d, i, st, e)
            case Return(result) =>
              result == st.layers || (result == st.layers + [result[i]] && LayerFits(result[i], i, diameterLimit))
            case Continue(next) =>
              next.layers == st.layers + [next.layers[i]] && LayerFits(next.layers[i], i, diameterLimit)
  {
    match e.className
    case Frustrated =>
    case Excited =>
    case Sad =>
      if e.confidence > 0.5 {
        SadMultiplierIsOne(e.confidence);
        assert d.sad * (1 + PyRound(e.confidence / 4.0)) == d.sad;
      }
    case Sympathetic =>
    case Satisfied =>
  }

  /** A frustrated or excited emotion appends one satellite layer: spiky (`polygon_range` (3, 6))
      for frustration and round for excitement, with the count and ring radius of its iteration and
      symmetry once satisfaction is prominent; planning ends exactly when that layer is a single
      centred boss. */
  lemma DispatchSatellite(response: seq<Emotion>, diameterLimit: real, d: Draws, i: nat, st: PlanState, e: Emotion)
    requires HasSatisfied(response) && (e.className == Frustrated || e.className == Excited)
    ensures var step := Dispatch(response, diameterLimit, d, i, st, e);
            var layers := if step.Return? then step.result else step.next.layers;
            && |layers| == |st.layers| + 1 && layers[..|st.layers|] == st.layers
            && layers[|st.layers|].Satellite?
            && layers[|st.layers|].confidence == e.confidence
            && layers[|st.layers|].deviationRange == 0.0
            && (layers[|st.layers|].polygonRange == Some((3, 6)) <==> e.className == Frustrated)
            && (layers[|st.layers|].polygonRange.None? <==> e.className == Excited)
            && layers[|st.layers|].pointsNum == (if i < 2 then PointsBucket(e.confidence) / (i + 1) else 1)
            && layers[|st.layers|].ringRadius == (if i < 2 then Some(BaseRadius * (0.63 - 0.27 * i as real)) else None)
            && layers[|st.layers|].symmetry == (st.symmetry || SatisfiedProminent(response))
            && (step.Return? <==> layers[|st.layers|].pointsNum == 1)
  {
  }

  /** A sad, sympathetic or satisfied emotion at iteration `i` ends planning without a layer exactly
      when its nominal radius `top_limit - 0.15 r i` (`0.2 r i` for satisfaction) is below
      `bot_limit`. Otherwise it appends one profile layer: its point count is the draw less `2 i`
      (`3 i` for satisfaction), its radius the nominal one for satisfaction and `ProfileRadius`
      otherwise, and only satisfaction makes it, and every later satellite layer, symmetric. */
  lemma DispatchProfile(response: seq<Emotion>, diameterLimit: real, d: Draws, i: nat, st: PlanState, e: Emotion)
    requires HasSatisfied(response) && (e.className == Sad || e.className == Sympathetic || e.className == Satisfied)
    requires 0.0 <= e.confidence <= 1.0
    ensures var step := Dispatch(response, diameterLimit, d, i, st, e);
            var nominal := TopLimit(diameterLimit) - BaseRadius * i as real * (if e.className == Satisfied then 0.2 else 0.15);
            && (step.Return? <==> nominal < BotLimit)
            && (step.Return? ==> step.result == st.layers)
            && (step.Continue? ==>
                  && |step.next.layers| == |st.layers| + 1 && step.next.layers[..|st.layers|] == st.layers
                  && step.next.prev == Some(e)
                  && step.next.symmetry == (st.symmetry || e.className == Satisfied)
                  && var l := step.next.layers[|st.layers|];
                     && l.Profile? && l.confidence == e.confidence
                     && l.pointsNum == (match e.className
                                        case Sad => d.sad - i * 2
                                        case Sympathetic => d.sympathetic - i * 2
                                        case _ => d.satisfied - i * 3)
                     && l.radius == (if e.className == Satisfied then nominal else ProfileRadius(diameterLimit, i, st.prev))
                     && (l.symmetry <==> e.className == Satisfied))
  {
  }

  /** Every layer of `layers` has the shape of the iteration with its index. */
  predicate LayersFit(layers: seq<Layer>, diameterLimit: real)
  {
    forall k :: 0 <= k < |layers| ==> LayerFits(layers[k], k, diameterLimit)
  }

  /** When every label is handled, iteration `i` with `i` well-shaped layers collected adds layer
      `i` (or returns without adding), and that layer has the shape `LayerFits` describes. */
  lemma IterateFits(response: seq<Emotion>, diameterLimit: real, d: Draws, i: nat, st: PlanState)
    requires StepReady(response, i, st) && AllHandled(response) && ConfidencesInRange(response)
    requires (i == 0 <==> st.prev.None?) && DrawsInRange(d) && |st.layers| == i && i < 3
    requires LayersFit(st.layers, diameterLimit)
    ensures match Iterate(response, diameterLimit, d, i, st)
            case Return(result) => LayersFit(result, diameterLimit)
            case Continue(next) => next.prev.Some? && |next.layers| == i + 1 && LayersFit(next.layers, diameterLimit)
  {
    match Substitute(response, i, st.prev, st.symmetry)
    case None =>
    case Some(e) =>
      DispatchFits(response, diameterLimit, d, i, st, e);
      var layers := match Dispatch(response, diameterLimit, d, i, st, e)
                    case Return(result) => result
                    case Continue(next) => next.layers;
      if layers != st.layers {
        forall k | 0 <= k < |layers|
          ensures LayerFits(layers[k], k, diameterLimit)
        {
          if k < i {
            assert layers[k] == st.layers[k];
          }
        }
      }
  }

  lemma {:induction false} PlanFromFits(response: seq<Emotion>, diameterLimit: real, draws: seq<Draws>, i: nat, st: PlanState)
    requires PlanReady(response, draws, i, st) && AllHandled(response) && ConfidencesInRange(response)
    requires AllDrawsInRange(draws) && (i == 0 <==> st.prev.None?) && |st.layers| == i && i < 3
    requires LayersFit(st.layers, diameterLimit)
    ensures LayersFit(PlanFrom(response, diameterLimit, draws, i, st), diameterLimit)
    decreases |response| - i
  {
    if i < |response| {
      IterateFits(response, diameterLimit, draws[i], i, st);
      match Iterate(response, diameterLimit, draws[i], i, st)
      case Return(result) =>
      case Continue(next) =>
        if |next.layers| < 3 {
          PlanFromFits(response, diameterLimit, draws, i + 1, next);
        }
    }
  }

  /** When every label is one of the five handled ones and the draws and confidences are in range,
      layer `k` of the plan comes from iteration `k`: a satellite layer has the count and ring
      radius of lines 134-151 and 164-181, and a profile layer has at least six points, a radius no
      smaller than `bot_limit` except for the `0.15 r` of a third sad or sympathetic layer, and no
      bottom fillet when it is the first layer. */
  lemma PlanLayersFit(response: seq<Emotion>, diameterLimit: real, draws: seq<Draws>)
    requires HasSatisfied(response) && |draws| == |response|
    requires AllHandled(response) && ConfidencesInRange(response) && AllDrawsInRange(draws)
    ensures LayersFit(Plan(response, diameterLimit, draws), diameterLimit)
  {
    PlanFromFits(response, diameterLimit, draws, 0, PlanState(None, false, []));
  }

  /** The example of a frustrated, a sad and a satisfied entry: the sad entry is more than 0.3 below
      its predecessor and is replaced by the frustrated one, and the satisfied entry, reached at the
      third pass with symmetry on, ends planning. Two spiky satellite rings result. */
  lemma FrustratedSadSatisfiedExample(diameterLimit: real, draws: seq<Draws>)
    requires |draws| == 3
    ensures var response := [Emotion(Frustrated, 0.9), Emotion(Sad, 0.5), Emotion(Satisfied, 0.95)];
            HasSatisfied(response) &&
            Plan(response, diameterLimit, draws) ==
              [Satellite(0.9, 13, Some(37.8), Some((3, 6)), 0.0, true),
               Satellite(0.9, 6, Some(21.6), Some((3, 6)), 0.0, true)]
  {
    var response := [Emotion(Frustrated, 0.9), Emotion(Sad, 0.5), Emotion(Satisfied, 0.95)];
    assert response[2].className == Satisfied;
    assert SatisfiedIndex(response) == 2 by {
      assert SatisfiedIndex(response[1..]) == 1 + SatisfiedIndex(response[2..]);
    }
    var s1 := PlanState(Some(Emotion(Frustrated, 0.9)), true, [Satellite(0.9, 13, Some(37.8), Some((3, 6)), 0.0, true)]);
    var s2 := PlanState(Some(Emotion(Frustrated, 0.9)), true, s1.layers + [Satellite(0.9, 6, Some(21.6), Some((3, 6)), 0.0, true)]);
    assert Iterate(response, diameterLimit, draws[0], 0, PlanState(None, false, [])) == Continue(s1);
    assert Iterate(response, diameterLimit, draws[1], 1, s1) == Continue(s2);
    assert Iterate(response, diameterLimit, draws[2], 2, s2) == Return(s2.layers);
  }

  /** With `diameter_limit` 0.5, a sad, a satisfied and a sad entry give a third profile layer of
      radius `0.15 r` = 9, below `bot_limit` = 11.4: the guard at line 192 tests `top_limit - 0.15 r i`,
      not the radius line 197 then chooses. */
  lemma ThirdProfileBelowBotLimit(draws: seq<Draws>)
    requires |draws| == 3 && AllDrawsInRange(draws)
    ensures var response := [Emotion(Sad, 0.9), Emotion(Satisfied, 0.8), Emotion(Sad, 0.7)];
            HasSatisfied(response) &&
            var r := Plan(response, 0.5, draws);
            |r| == 3 && r[2].Profile? && r[2].radius == 9.0 && r[2].radius < BotLimit
  {
    var response := [Emotion(Sad, 0.9), Emotion(Satisfied, 0.8), Emotion(Sad, 0.7)];
    assert response[1].className == Satisfied;
    assert SatisfiedIndex(response) == 1;
    SadMultiplierIsOne(0.9);
    SadMultiplierIsOne(0.7);
    var l0 := Profile(0.9, draws[0].sad, 30.0, 0.0, 0.0, 1.0, false, false);
    var l1 := Profile(0.8, draws[1].satisfied - 3, 18.0, 6.0, 12.0, 2.2, true, true);
    var l2 := Profile(0.7, draws[2].sad - 4, 9.0, 0.0, 0.0, 1.0, false, true);
    var s1 := PlanState(Some(Emotion(Sad, 0.9)), false, [l0]);
    var s2 := PlanState(Some(Emotion(Satisfied, 0.8)), true, [l0, l1]);
    var s3 := PlanState(Some(Emotion(Sad, 0.7)), true, [l0, l1, l2]);
    assert Iterate(response, 0.5, draws[0], 0, PlanState(None, false, [])) == Continue(s1);
    assert Iterate(response, 0.5, draws[1], 1, s1) == Continue(s2);
    assert Iterate(response, 0.5, draws[2], 2, s2) == Continue(s3);
  }
}
