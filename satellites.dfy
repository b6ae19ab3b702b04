/** The symmetric mirroring of satellite heights and sizes in `gen_type2` (SculptureGenerator.py
    lines 522-526). Ring point `n` of `P` sits at angle `(n+1) 2 pi / P`, so its mirror image in the
    X axis is ring point `P-2-n`; the last point, at angle `2 pi`, lies on the axis. */
module Satellites {

  /** The list the loop at lines 524-526 leaves behind: entries from index `|s|/2` up to `|s|-2`
      take the value of their mirror index, every other entry keeps its own. */
  function MirroredHalves<T>(s: seq<T>): seq<T>
  {
    seq(|s|, j requires 0 <= j < |s| => if |s| / 2 <= j < |s| - 1 then s[|s| - 2 - j] else s[j])
  }

  /** After mirroring, every index below `|s|/2` and its mirror index `|s|-2-n` carry the original
      value of index `n`, and the first `|s|-1` entries read the same in both directions. */
  lemma MirroredHalvesSymmetric<T>(s: seq<T>)
    ensures |MirroredHalves(s)| == |s|
    ensures forall n :: 0 <= n < |s| / 2 ==>
              MirroredHalves(s)[n] == s[n] && MirroredHalves(s)[|s| - 2 - n] == s[n]
    ensures |s| > 0 ==> MirroredHalves(s)[|s| - 1] == s[|s| - 1]
    ensures forall j :: 0 <= j < |s| - 1 ==> MirroredHalves(s)[j] == MirroredHalves(s)[|s| - 2 - j]
  {
    var m := MirroredHalves(s);
    forall n | 0 <= n < |s| / 2
      ensures m[|s| - 2 - n] == s[n]
    {
      var j := |s| - 2 - n;
      if j < |s| / 2 {
        // only when |s| is even and n is |s|/2 - 1, where j == n
        assert j == n;
      }
    }
  }

  /** Mirroring twice is mirroring once: the entries it copies from are left unchanged. */
  lemma MirroredHalvesIdempotent<T>(s: seq<T>)
    ensures MirroredHalves(MirroredHalves(s)) == MirroredHalves(s)
  {
    var m := MirroredHalves(s);
    forall j | 0 <= j < |s|
      ensures MirroredHalves(m)[j] == m[j]
    {
      if |s| / 2 <= j < |s| - 1 {
        assert m[|s| - 2 - j] == s[|s| - 2 - j];
      }
    }
  }

  /** The list after the first `n` passes of the loop at lines 524-526: entries `|s|-1-n` up to
      `|s|-2` hold their mirror entry. */
  function MirroredUpTo<T>(s: seq<T>, n: nat): seq<T>
  {
    seq(|s|, j requires 0 <= j < |s| => if |s| - 1 - n <= j < |s| - 1 then s[|s| - 2 - j] else s[j])
  }

  /** One more pass copies entry `n`, still untouched, to its mirror index. */
  lemma MirroredUpToStep<T>(s: seq<T>, n: nat)
    requires 2 * n + 2 <= |s|
    ensures MirroredUpTo(s, n)[n] == s[n]
    ensures MirroredUpTo(s, n)[|s| - 2 - n := s[n]] == MirroredUpTo(s, n + 1)
  {
  }

  /** After `|s|/2` passes the list is mirrored; for an even length the last pass copies the middle
      entry onto itself. */
  lemma MirroredUpToHalf<T>(s: seq<T>)
    ensures MirroredUpTo(s, |s| / 2) == MirroredHalves(s)
  {
    forall j | 0 <= j < |s|
      ensures MirroredUpTo(s, |s| / 2)[j] == MirroredHalves(s)[j]
    {
      if |s| - 1 - |s| / 2 <= j < |s| / 2 {
        assert |s| - 2 - j == j;
      }
    }
  }

  /** The loop at lines 524-526 over the `heights` and `sizes` lists of a satellite layer with
      symmetry on. */
  method MirrorSatellites(heights: array<real>, sizes: array<real>)
    requires heights.Length == sizes.Length && heights != sizes
    modifies heights, sizes
    ensures heights[..] == MirroredHalves(old(heights[..]))
    ensures sizes[..] == MirroredHalves(old(sizes[..]))
  {
    var p := heights.Length;
    ghost var h0 := heights[..];
    ghost var s0 := sizes[..];
    var n := 0;
    while n < p / 2
      invariant 0 <= n <= p / 2
      invariant heights[..] == MirroredUpTo(h0, n)
      invariant sizes[..] == MirroredUpTo(s0, n)
    {
      MirroredUpToStep(h0, n);
      MirroredUpToStep(s0, n);
      heights[p - 2 - n] := heights[n];
      sizes[p - 2 - n] := sizes[n];
      n := n + 1;
    }
    MirroredUpToHalf(h0);
    MirroredUpToHalf(s0);
  }
}
