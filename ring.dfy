/** The ring builder `get_polygon_points` (SculptureGenerator.py lines 248-311): the points of a
    deviated regular polygon, optionally made mirror-symmetric about the X axis, translated so that
    their centroid sits at `(-r, 0)`. */
module Ring {
  import opened Common

  /** Half-width of the band about the X axis used by the symmetric mode. It is `r/20` with the
      module radius `r`, not with the radius of the ring being built (lines 277, 280, 282). */
  const Band: real := BaseRadius / 20.0

  /** Ring point `n` before re-centring, for a deviation, a ring radius and the unit-circle position
      of the point (lines 272-273 and 298-299). */
  function RingPoint(deviation: real, radius: real, unit: Point): Point
  {
    Point((1.0 + deviation) * radius * unit.x - BaseRadius, (1.0 + deviation) * radius * unit.y)
  }

  /** `range(p)` is empty for a negative `p`. */
  function Count(p: int): nat
  {
    if p < 0 then 0 else p
  }

  /** The points the loops at lines 270-274 and 296-299 compute, in index order. */
  function RawRing(p: int, radius: real, deviations: seq<real>, trig: Trig): seq<Point>
    requires |deviations| >= Count(p)
  {
    seq(Count(p), n requires 0 <= n < Count(p) => RingPoint(deviations[n], radius, trig(Count(p), n)))
  }

  function Reflect(p: Point): Point
  {
    Point(p.x, -p.y)
  }

  function Reversed(s: seq<Point>): seq<Point>
  {
    seq(|s|, j requires 0 <= j < |s| => s[|s| - 1 - j])
  }

  function ReflectAll(s: seq<Point>): seq<Point>
  {
    seq(|s|, j requires 0 <= j < |s| => Reflect(s[j]))
  }

  /** Reflecting one more point of `s` appends its reflection. */
  lemma ReflectAllSnoc(s: seq<Point>, j: nat)
    requires j < |s|
    ensures ReflectAll(s[..j + 1]) == ReflectAll(s[..j]) + [Reflect(s[j])]
  {
  }

  /** The length of the longest prefix of `raw` whose points lie on or above `-Band`: the points the
      counter `c` lets through (lines 274-279). */
  function InBandPrefix(raw: seq<Point>): (k: nat)
    ensures k <= |raw|
  {
    if |raw| == 0 || raw[0].y < -Band then 0 else 1 + InBandPrefix(raw[1..])
  }

  /** The prefix is maximal: every point in it lies on or above `-Band`, and the point after it,
      if there is one, lies below. */
  lemma {:induction false} InBandPrefixMaximal(raw: seq<Point>)
    ensures forall j :: 0 <= j < InBandPrefix(raw) ==> raw[j].y >= -Band
    ensures InBandPrefix(raw) < |raw| ==> raw[InBandPrefix(raw)].y < -Band
  {
    if |raw| > 0 && raw[0].y >= -Band {
      InBandPrefixMaximal(raw[1..]);
    }
  }

  /** The points of `s` on or above `+Band`, in order (`pts_tomap`, lines 280-281). */
  function AboveBand(s: seq<Point>): seq<Point>
  {
    if |s| == 0 then []
    else AboveBand(s[..|s| - 1]) + (if s[|s| - 1].y >= Band then [s[|s| - 1]] else [])
  }

  /** `pts_tomap` holds exactly the points on or above `+Band`, and no more points than it scanned. */
  lemma {:induction false} AboveBandMembers(s: seq<Point>)
    ensures |AboveBand(s)| <= |s|
    ensures forall p :: p in AboveBand(s) <==> p in s && p.y >= Band
  {
    if |s| > 0 {
      AboveBandMembers(s[..|s| - 1]);
      assert s == s[..|s| - 1] + [s[|s| - 1]];
    }
  }

  /** The last point of `s` on or above `-Band`, if any (`temp`, lines 282-283). */
  function LastInBand(s: seq<Point>): Option<Point>
  {
    if |s| == 0 then None
    else if s[|s| - 1].y >= -Band then Some(s[|s| - 1])
    else LastInBand(s[..|s| - 1])
  }

  /** `temp` ends up as the last point on or above `-Band`, and is unset only when there is none. */
  lemma {:induction false} LastInBandIsLast(s: seq<Point>)
    ensures LastInBand(s).None? <==> forall j :: 0 <= j < |s| ==> s[j].y < -Band
    ensures LastInBand(s).Some? ==> exists j :: 0 <= j < |s| && s[j] == LastInBand(s).value && s[j].y >= -Band &&
                                                forall l :: j < l < |s| ==> s[l].y < -Band
  {
    if |s| > 0 && s[|s| - 1].y < -Band {
      LastInBandIsLast(s[..|s| - 1]);
      assert forall l :: 0 <= l < |s| - 1 ==> s[..|s| - 1][l] == s[l];
    }
  }

  /** Scanning one more point extends `pts_tomap` by that point when it is above the band. */
  lemma AboveBandSnoc(s: seq<Point>, p: Point)
    ensures AboveBand(s + [p]) == AboveBand(s) + (if p.y >= Band then [p] else [])
  {
    assert (s + [p])[..|s|] == s;
  }

  /** Scanning one more point replaces `temp` by that point when it is in the band. */
  lemma LastInBandSnoc(s: seq<Point>, p: Point)
    ensures LastInBand(s + [p]) == if p.y >= -Band then Some(p) else LastInBand(s)
  {
    assert (s + [p])[..|s|] == s;
  }

  /** What follows the mirrored half: `temp`, the last in-band point after the first point that
      broke the prefix (line 291-292). */
  function Straddler(raw: seq<Point>, k: nat): seq<Point>
    requires k <= |raw|
  {
    if k < |raw| then
      match LastInBand(raw[k + 1..])
      case Some(t) => [t]
      case None => []
    else []
  }

  /** The points the symmetric mode emits before re-centring: the in-band prefix, then the prefix
      points on or above `+Band` reflected across the X axis in reverse order, then the straddling
      point (lines 264-292). */
  function SymmetricSelection(raw: seq<Point>): seq<Point>
  {
    var k := InBandPrefix(raw);
    raw[..k] + ReflectAll(Reversed(AboveBand(raw[..k]))) + Straddler(raw, k)
  }

  /** The symmetric selection in three parts: the maximal in-band prefix; the reflections of its
      points on or above `+Band`, last first; and at most one more point, the last in-band point
      after the one that ended the prefix. */
  lemma SymmetricSelectionParts(raw: seq<Point>)
    ensures var sel := SymmetricSelection(raw);
            var k := InBandPrefix(raw);
            var u := AboveBand(raw[..k]);
            && k + |u| <= |sel| <= k + |u| + 1
            && sel[..k] == raw[..k]
            && (forall j :: k <= j < k + |u| ==> sel[j] == Reflect(u[|u| - 1 - (j - k)]))
            && (|sel| == k + |u| + 1 <==> k < |raw| && LastInBand(raw[k + 1..]).Some?)
            && (|sel| == k + |u| + 1 ==> sel[k + |u|] == LastInBand(raw[k + 1..]).value)
  {
  }

  function Selection(raw: seq<Point>, symmetry: bool): seq<Point>
  {
    if symmetry then SymmetricSelection(raw) else raw
  }

  function SumX(ps: seq<Point>): real
  {
    if |ps| == 0 then 0.0 else ps[0].x + SumX(ps[1..])
  }

  function SumY(ps: seq<Point>): real
  {
    if |ps| == 0 then 0.0 else ps[0].y + SumY(ps[1..])
  }

  function Centroid(ps: seq<Point>): Point
    requires |ps| > 0
  {
    Point(SumX(ps) / |ps| as real, SumY(ps) / |ps| as real)
  }

  function Translated(ps: seq<Point>, dx: real, dy: real): seq<Point>
  {
    seq(|ps|, j requires 0 <= j < |ps| => Point(ps[j].x + dx, ps[j].y + dy))
  }

  /** Translating every point adds the translation once per point to the coordinate sums. */
  lemma {:induction false} SumTranslated(ps: seq<Point>, dx: real, dy: real)
    ensures SumX(Translated(ps, dx, dy)) == SumX(ps) + |ps| as real * dx
    ensures SumY(Translated(ps, dx, dy)) == SumY(ps) + |ps| as real * dy
  {
    if |ps| > 0 {
      assert Translated(ps, dx, dy)[1..] == Translated(ps[1..], dx, dy);
      SumTranslated(ps[1..], dx, dy);
    }
  }

  /** The re-centring pass (lines 302-309). `None` stands for the `ZeroDivisionError` that
      `sum(...)/len(...)` raises on an empty list. */
  function Recentred(pts: seq<Point>): (r: Option<seq<Point>>)
    ensures r.None? <==> |pts| == 0
    ensures r.Some? ==> |r.value| == |pts|
  {
    if |pts| == 0 then None
    else
      var n := |pts| as real;
      var meanX := SumX(pts) / n;
      var meanY := SumY(pts) / n;
      Some(Translated(pts, -BaseRadius - meanX, -meanY))
  }

  /** Re-centring moves every point by one common vector, so all pairwise differences are kept. */
  lemma RecentredKeepsDifferences(pts: seq<Point>)
    ensures var r := Recentred(pts);
            r.Some? ==> forall j, k :: 0 <= j < |pts| && 0 <= k < |pts| ==>
                          && r.value[j].x - r.value[k].x == pts[j].x - pts[k].x
                          && r.value[j].y - r.value[k].y == pts[j].y - pts[k].y
  {
  }

  /** Moving `n` values of sum `sum` by `target - sum/n` each gives them the mean `target`. */
  lemma ShiftedMean(sum: real, n: real, target: real)
    requires n > 0.0
    ensures (sum + n * (target - sum / n)) / n == target
  {
    assert n * (sum / n) == sum;
    assert sum + n * (target - sum / n) == target * n;
  }

  /** The centroid of the re-centred points is `(-r, 0)`. */
  lemma RecentredCentroid(pts: seq<Point>)
    ensures var r := Recentred(pts);
            r.Some? ==> Centroid(r.value) == Point(-BaseRadius, 0.0)
  {
    if |pts| > 0 {
      var n := |pts| as real;
      var dx := -BaseRadius - SumX(pts) / n;
      var dy := -(SumY(pts) / n);
      SumTranslated(pts, dx, dy);
      ShiftedMean(SumX(pts), n, -BaseRadius);
      ShiftedMean(SumY(pts), n, 0.0);
      assert dy == 0.0 - SumY(pts) / n;
    }
  }

  /** The value `get_polygon_points` returns for the raw ring points. */
  function PolygonPoints(raw: seq<Point>, symmetry: bool): Option<seq<Point>>
  {
    Recentred(Selection(raw, symmetry))
  }

  /** Without symmetry every raw point is kept, in index order, and moved by one common vector
      chosen so that the centroid lands on `(-r, 0)`; the list is empty, and the division fails,
      only when there are no points. With symmetry the first point alone decides that the division
      cannot fail. */
  lemma PolygonPointsShape(raw: seq<Point>, symmetry: bool)
    ensures var r := PolygonPoints(raw, symmetry);
            && (!symmetry ==> (r.None? <==> |raw| == 0))
            && (!symmetry && r.Some? ==> |r.value| == |raw|)
            && (!symmetry && r.Some? ==> forall j, k :: 0 <= j < |raw| && 0 <= k < |raw| ==>
                                           && r.value[j].x - r.value[k].x == raw[j].x - raw[k].x
                                           && r.value[j].y - r.value[k].y == raw[j].y - raw[k].y)
            && (symmetry && |raw| > 0 && raw[0].y >= -Band ==> r.Some?)
            && (r.Some? ==> Centroid(r.value) == Point(-BaseRadius, 0.0))
  {
    RecentredKeepsDifferences(Selection(raw, symmetry));
    RecentredCentroid(Selection(raw, symmetry));
    if symmetry && |raw| > 0 && raw[0].y >= -Band {
      assert |SymmetricSelection(raw)| >= InBandPrefix(raw) >= 1;
    }
  }

  /** The variables of the pass with the counter `c` (lines 266-285). */
  datatype Scan = Scan(polygonPts: seq<Point>, ptsTomap: seq<Point>, temp: Option<Point>, c: int)

  /** One iteration of that pass for the next ring point: the counter goes up; a point on or above
      `-Band` while the counter is 1 joins `polygon_pts` (and `pts_tomap` when on or above `+Band`)
      and takes the counter back down; any other point on or above `-Band` becomes `temp`. */
  function ScanStep(st: Scan, p: Point): Scan
  {
    var c := st.c + 1;
    if p.y >= -Band && c == 1 then
      Scan(st.polygonPts + [p], st.ptsTomap + (if p.y >= Band then [p] else []), st.temp, c - 1)
    else if p.y >= -Band && c >= 1 then
      Scan(st.polygonPts, st.ptsTomap, Some(p), c)
    else
      Scan(st.polygonPts, st.ptsTomap, st.temp, c)
  }

  /** The pass run over the points of `s` in order. */
  function ScanAll(s: seq<Point>): Scan
  {
    if |s| == 0 then Scan([], [], None, 0) else ScanStep(ScanAll(s[..|s| - 1]), s[|s| - 1])
  }

  /** The pass over one more point is one more step. */
  lemma ScanAllSnoc(s: seq<Point>, p: Point)
    ensures ScanAll(s + [p]) == ScanStep(ScanAll(s), p)
  {
    assert (s + [p])[..|s|] == s;
  }

  /** A point on or above `-Band` met while the counter is 0 extends the prefix. */
  lemma ScanInPrefix(s: seq<Point>, p: Point)
    requires ScanAll(s) == Scan(s, AboveBand(s), None, 0)
    requires p.y >= -Band
    ensures ScanAll(s + [p]) == Scan(s + [p], AboveBand(s + [p]), None, 0)
  {
    ScanAllSnoc(s, p);
    AboveBandSnoc(s, p);
  }

  /** The first point below `-Band` ends the prefix and leaves the counter at 1 for good. */
  lemma ScanAtBreak(s: seq<Point>, p: Point)
    requires ScanAll(s) == Scan(s, AboveBand(s), None, 0)
    requires p.y < -Band
    ensures ScanAll(s + [p]) == Scan(s, AboveBand(s), None, 1)
  {
    ScanAllSnoc(s, p);
  }

  /** Once the counter is positive every point on or above `-Band` becomes `temp`. */
  lemma ScanAfterBreak(s: seq<Point>, p: Point, q: seq<Point>, u: seq<Point>, t: seq<Point>, c: int)
    requires ScanAll(s) == Scan(q, u, LastInBand(t), c)
    requires c >= 1
    ensures ScanAll(s + [p]) == Scan(q, u, LastInBand(t + [p]), c + 1)
  {
    ScanAllSnoc(s, p);
    LastInBandSnoc(t, p);
  }

  /** The three cases of one step of the pass over the ring, at point `n - 1` with `k` the index of
      the first point below the band. */
  lemma ScanPrefixStep(raw: seq<Point>, k: nat, n: nat)
    requires k <= |raw| && 0 < n <= |raw|
    requires n - 1 < k ==> raw[n - 1].y >= -Band
    requires k < |raw| ==> raw[k].y < -Band
    requires n - 1 <= k ==> ScanAll(raw[..n - 1]) == Scan(raw[..n - 1], AboveBand(raw[..n - 1]), None, 0)
    requires n - 1 > k ==>
               ScanAll(raw[..n - 1]) == Scan(raw[..k], AboveBand(raw[..k]), LastInBand(raw[k + 1..n - 1]), n - 1 - k)
    ensures n <= k ==> ScanAll(raw[..n]) == Scan(raw[..n], AboveBand(raw[..n]), None, 0)
    ensures n > k ==> ScanAll(raw[..n]) == Scan(raw[..k], AboveBand(raw[..k]), LastInBand(raw[k + 1..n]), n - k)
  {
    var s := raw[..n - 1];
    var p := raw[n - 1];
    assert raw[..n] == s + [p];
    if n - 1 < k {
      ScanInPrefix(s, p);
    } else if n - 1 == k {
      assert raw[k + 1..n] == [];
      ScanAtBreak(s, p);
    } else {
      assert raw[k + 1..n] == raw[k + 1..n - 1] + [p];
      ScanAfterBreak(s, p, raw[..k], AboveBand(raw[..k]), raw[k + 1..n - 1], n - 1 - k);
    }
  }

  /** After the first `n` ring points the pass has kept the in-band prefix seen so far, its points
      above the band, and, past the first point below the band (index `k`), the last in-band point
      since. */
  lemma {:induction false} ScanAllPrefix(raw: seq<Point>, k: nat, n: nat)
    requires k <= |raw| && n <= |raw|
    requires forall j :: 0 <= j < k ==> raw[j].y >= -Band
    requires k < |raw| ==> raw[k].y < -Band
    ensures n <= k ==> ScanAll(raw[..n]) == Scan(raw[..n], AboveBand(raw[..n]), None, 0)
    ensures n > k ==> ScanAll(raw[..n]) == Scan(raw[..k], AboveBand(raw[..k]), LastInBand(raw[k + 1..n]), n - k)
  {
    if n > 0 {
      ScanAllPrefix(raw, k, n - 1);
      ScanPrefixStep(raw, k, n);
    }
  }

  /** The pass over the whole ring: `polygon_pts` is the in-band prefix, `pts_tomap` its points on
      or above `+Band`, and `temp` the last in-band point after the point that ended the prefix. */
  lemma ScanAllRing(raw: seq<Point>)
    ensures var k := InBandPrefix(raw);
            var st := ScanAll(raw);
            && st.polygonPts == raw[..k]
            && st.ptsTomap == AboveBand(raw[..k])
            && st.temp == (if k < |raw| then LastInBand(raw[k + 1..]) else None)
  {
    InBandPrefixMaximal(raw);
    ScanAllPrefix(raw, InBandPrefix(raw), |raw|);
    assert raw[..|raw|] == raw;
  }

  /** The pass with the counter `c` of the symmetric branch (lines 266-285). */
  method ScanSymmetric(polygonPNum: int, polR: real, deviationArr: seq<real>, trig: Trig)
    returns (polygonPts: seq<Point>, ptsTomap: seq<Point>, temp: Option<Point>)
    requires |deviationArr| >= Count(polygonPNum)
    ensures ScanAll(RawRing(polygonPNum, polR, deviationArr, trig)) == Scan(polygonPts, ptsTomap, temp, ScanAll(RawRing(polygonPNum, polR, deviationArr, trig)).c)
  {
    ghost var raw := RawRing(polygonPNum, polR, deviationArr, trig);
    polygonPts := [];
    ptsTomap := [];
    temp := None;
    var c := 0;
    var n := 0;
    while n < polygonPNum
      invariant 0 <= n <= Count(polygonPNum)
      invariant ScanAll(raw[..n]) == Scan(polygonPts, ptsTomap, temp, c)
    {
      var deviation := deviationArr[n];
      var unit := trig(polygonPNum, n);
      var newPoint := Point((1.0 + deviation) * polR * unit.x - BaseRadius, (1.0 + deviation) * polR * unit.y);
      assert newPoint == raw[n];
      assert raw[..n + 1][..n] == raw[..n];
      c := c + 1;
      if newPoint.y >= -BaseRadius / 20.0 && c == 1 {
        polygonPts := polygonPts + [newPoint];
        c := c - 1;
        if newPoint.y >= BaseRadius / 20.0 {
          ptsTomap := ptsTomap + [newPoint];
        }
      } else if newPoint.y >= -BaseRadius / 20.0 && c >= 1 {
        temp := Some(newPoint);
      }
      n := n + 1;
    }
    assert raw[..n] == raw;
  }

  /** The symmetric branch of `get_polygon_points` (lines 264-292): the pass with the counter `c`,
      then the reversed, reflected `pts_tomap`, then `temp`. */
  method SymmetricRing(polygonPNum: int, polR: real, deviationArr: seq<real>, trig: Trig)
    returns (polygonPts: seq<Point>)
    requires |deviationArr| >= Count(polygonPNum)
    ensures polygonPts == SymmetricSelection(RawRing(polygonPNum, polR, deviationArr, trig))
  {
    var ptsTomap, temp;
    polygonPts, ptsTomap, temp := ScanSymmetric(polygonPNum, polR, deviationArr, trig);
    ghost var prefix := polygonPts;
    ptsTomap := Reversed(ptsTomap);
    var j := 0;
    while j < |ptsTomap|
      invariant 0 <= j <= |ptsTomap|
      invariant polygonPts == prefix + ReflectAll(ptsTomap[..j])
    {
      var point := ptsTomap[j];
      ReflectAllSnoc(ptsTomap, j);
      polygonPts := polygonPts + [Point(point.x, -point.y)];
      j := j + 1;
    }
    assert ptsTomap[..j] == ptsTomap;
    ScanAllRing(RawRing(polygonPNum, polR, deviationArr, trig));
    if temp.Some? {
      polygonPts := polygonPts + [temp.value];
    }
  }

  /** The plain branch of `get_polygon_points` (lines 294-300): every ring point in index order. */
  method PlainRing(polygonPNum: int, polR: real, deviationArr: seq<real>, trig: Trig)
    returns (polygonPts: seq<Point>)
    requires |deviationArr| >= Count(polygonPNum)
    ensures polygonPts == RawRing(polygonPNum, polR, deviationArr, trig)
  {
    ghost var raw := RawRing(polygonPNum, polR, deviationArr, trig);
    polygonPts := [];
    var n := 0;
    while n < polygonPNum
      invariant 0 <= n <= Count(polygonPNum)
      invariant polygonPts == raw[..n]
    {
      var deviation := deviationArr[n];
      var unit := trig(polygonPNum, n);
      var newPoint := Point((1.0 + deviation) * polR * unit.x - BaseRadius, (1.0 + deviation) * polR * unit.y);
      assert newPoint == raw[n];
      assert raw[..n + 1] == raw[..n] + [newPoint];
      polygonPts := polygonPts + [newPoint];
      n := n + 1;
    }
  }

  /** `get_polygon_points(polygon_p_num, pol_r, deviation_arr, symmetry)` (lines 248-311), with the
      cos/sin pair of each ring point supplied by `trig`. `None` is the `ZeroDivisionError` raised
      when no point was emitted. */
  method GetPolygonPoints(polygonPNum: int, polR: real, deviationArr: seq<real>, trig: Trig, symmetry: bool)
    returns (polygonPts: Option<seq<Point>>)
    requires |deviationArr| >= Count(polygonPNum)
    ensures polygonPts == PolygonPoints(RawRing(polygonPNum, polR, deviationArr, trig), symmetry)
  {
    var pts: seq<Point>;
    if symmetry {
      pts := SymmetricRing(polygonPNum, polR, deviationArr, trig);
    } else {
      pts := PlainRing(polygonPNum, polR, deviationArr, trig);
    }
    if |pts| == 0 {
      return None;
    }
    var meanX := SumX(pts) / |pts| as real;
    var meanY := SumY(pts) / |pts| as real;
    var shiftX := -BaseRadius - meanX;
    var shiftY := -meanY;
    polygonPts := Some(Translated(pts, shiftX, shiftY));
  }
}
