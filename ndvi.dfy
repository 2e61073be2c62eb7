/**
 * The NDVI computation shared by the three NDVI scripts: the per-pixel
 * normalised difference `(nir - red) / (nir + red)`, the treatment of pixels
 * where `nir + red == 0` (filled with 0, or marked NaN), `np.clip` to
 * [-1, 1], and the `np.nanmin` / `np.nanmax` range check.
 */
module Ndvi {
  import opened Rasters

  /** `(nir - red) / (nir + red)` with numpy's division: x/0 is ±inf and 0/0 is NaN. */
  function Ratio(nir: real, red: real): Float {
    var d, s := nir - red, nir + red;
    if s != 0.0 then Num(d / s)
    else if d > 0.0 then PosInf
    else if d < 0.0 then NegInf
    else NaN
  }

  /** What a script puts where `nir + red == 0`. */
  datatype ZeroSumPolicy = FillZero | MarkMissing

  /** `np.where((nir + red) == 0, 0, ndvi)`, or `ndvi[(nir + red) == 0] = np.nan`, on one pixel. */
  function Masked(policy: ZeroSumPolicy, raw: Float, nir: real, red: real): Float {
    if nir + red == 0.0 then (if policy == FillZero then Num(0.0) else NaN) else raw
  }

  /** The NDVI of one pixel under a zero-sum policy. */
  function NdviPixel(policy: ZeroSumPolicy, nir: real, red: real): Float {
    Masked(policy, Ratio(nir, red), nir, red)
  }

  /**
   * Where the bands do not sum to zero the pixel is the normalised
   * difference, which lies in [-1, 1] when both bands are non-negative; where
   * they do, it is the policy's value and never an infinity.
   */
  lemma NdviPixelValue(policy: ZeroSumPolicy, nir: real, red: real)
    ensures nir + red != 0.0 ==> NdviPixel(policy, nir, red) == Num((nir - red) / (nir + red))
    ensures nir + red == 0.0 ==> NdviPixel(policy, nir, red) == (if policy == FillZero then Num(0.0) else NaN)
    ensures !NdviPixel(policy, nir, red).PosInf? && !NdviPixel(policy, nir, red).NegInf?
    ensures nir >= 0.0 && red >= 0.0 && nir + red != 0.0 ==> InUnit(NdviPixel(policy, nir, red))
  {
    if nir >= 0.0 && red >= 0.0 && nir + red != 0.0 {
      NormalisedDifferenceBounds(nir, red);
    }
  }

  lemma NormalisedDifferenceBounds(nir: real, red: real)
    requires nir >= 0.0 && red >= 0.0 && nir + red != 0.0
    ensures -1.0 <= (nir - red) / (nir + red) <= 1.0
    ensures (nir - red) / (nir + red) > 0.0 <==> nir > red
  {
    var s := nir + red;
    var q := (nir - red) / s;
    assert q * s == nir - red;
    assert -s <= nir - red <= s;
  }

  /** With non-negative bands, zero filling leaves every pixel a number in [-1, 1]. */
  lemma FillZeroIsFinite(nir: real, red: real)
    requires nir >= 0.0 && red >= 0.0
    ensures InUnit(NdviPixel(FillZero, nir, red))
  {
    NdviPixelValue(FillZero, nir, red);
  }

  // ---- images ----

  predicate SameShape<T, U>(a: seq<seq<T>>, b: seq<seq<U>>) {
    |a| == |b| && forall i :: 0 <= i < |a| ==> |a[i]| == |b[i]|
  }

  /** `(nir - red) / (nir + red)` on whole bands. */
  function RatioImage(nir: Matrix, red: Matrix): (m: seq<seq<Float>>)
    requires SameShape(nir, red)
    ensures SameShape(m, red)
    ensures forall i, j :: 0 <= i < |red| && 0 <= j < |red[i]| ==> m[i][j] == Ratio(nir[i][j], red[i][j])
  {
    seq(|red|, (i: int) requires 0 <= i < |red| =>
      seq(|red[i]|, (j: int) requires 0 <= j < |red[i]| => Ratio(nir[i][j], red[i][j])))
  }

  /** The NDVI of whole bands under a zero-sum policy. */
  function NdviImage(policy: ZeroSumPolicy, nir: Matrix, red: Matrix): (m: seq<seq<Float>>)
    requires SameShape(nir, red)
    ensures SameShape(m, red)
    ensures forall i, j :: 0 <= i < |red| && 0 <= j < |red[i]| ==> m[i][j] == NdviPixel(policy, nir[i][j], red[i][j])
  {
    seq(|red|, (i: int) requires 0 <= i < |red| =>
      seq(|red[i]|, (j: int) requires 0 <= j < |red[i]| => NdviPixel(policy, nir[i][j], red[i][j])))
  }

  /** A fresh 2-D array holding a matrix: numpy's array for a computed expression. */
  method ToArray(m: seq<seq<Float>>, height: nat, width: nat) returns (a: array2<Float>)
    requires HasShape(m, height, width)
    ensures fresh(a) && a.Length0 == height && a.Length1 == width
    ensures Snapshot(a) == m
  {
    a := new Float[height, width]((i: nat, j: nat) requires i < height && j < width => m[i][j]);
    SameMatrix(Snapshot(a), m, height, width);
  }

  /** `ndvi[(nir + red) == 0] = np.nan`: the zero-sum pixels of the array become NaN, the others stay. */
  method MaskZeroSum(ndvi: array2<Float>, nir: Matrix, red: Matrix)
    requires HasShape(nir, ndvi.Length0, ndvi.Length1) && HasShape(red, ndvi.Length0, ndvi.Length1)
    modifies ndvi
    ensures forall i, j :: 0 <= i < ndvi.Length0 && 0 <= j < ndvi.Length1 ==>
      ndvi[i, j] == Masked(MarkMissing, old(ndvi[i, j]), nir[i][j], red[i][j])
  {
    var i := 0;
    while i < ndvi.Length0
      invariant 0 <= i <= ndvi.Length0
      invariant forall i', j' :: 0 <= i' < i && 0 <= j' < ndvi.Length1 ==>
        ndvi[i', j'] == Masked(MarkMissing, old(ndvi[i', j']), nir[i'][j'], red[i'][j'])
      invariant forall i', j' :: i <= i' < ndvi.Length0 && 0 <= j' < ndvi.Length1 ==> ndvi[i', j'] == old(ndvi[i', j'])
    {
      var j := 0;
      while j < ndvi.Length1
        invariant 0 <= j <= ndvi.Length1
        invariant forall i', j' :: 0 <= i' < i && 0 <= j' < ndvi.Length1 ==>
          ndvi[i', j'] == Masked(MarkMissing, old(ndvi[i', j']), nir[i'][j'], red[i'][j'])
        invariant forall j' :: 0 <= j' < j ==> ndvi[i, j'] == Masked(MarkMissing, old(ndvi[i, j']), nir[i][j'], red[i][j'])
        invariant forall i', j' :: i <= i' < ndvi.Length0 && 0 <= j' < ndvi.Length1 && (i' > i || j' >= j) ==>
          ndvi[i', j'] == old(ndvi[i', j'])
      {
        if nir[i][j] + red[i][j] == 0.0 {
          ndvi[i, j] := NaN;
        }
        j := j + 1;
      }
      i := i + 1;
    }
  }

  /** Dividing and then masking the zero-sum pixels gives the NDVI with missing pixels marked. */
  lemma MaskedRatioIsNdvi(nir: Matrix, red: Matrix, height: nat, width: nat, ndvi: seq<seq<Float>>)
    requires HasShape(nir, height, width) && HasShape(red, height, width) && HasShape(ndvi, height, width)
    requires forall i, j :: 0 <= i < height && 0 <= j < width ==>
      ndvi[i][j] == Masked(MarkMissing, RatioImage(nir, red)[i][j], nir[i][j], red[i][j])
    ensures ndvi == NdviImage(MarkMissing, nir, red)
  {
    SameMatrix(ndvi, NdviImage(MarkMissing, nir, red), height, width);
  }

  // ---- np.clip ----

  /** `np.clip(x, -1, 1)`: NaN stays NaN. */
  function Clip(x: Float): Float {
    match x
    case NaN => NaN
    case PosInf => Num(1.0)
    case NegInf => Num(-1.0)
    case Num(v) => Num(if v < -1.0 then -1.0 else if v > 1.0 then 1.0 else v)
  }

  /** Clipping leaves every non-NaN value in range, keeps values already in range, and keeps NaN. */
  lemma ClipSpec(x: Float)
    ensures x.NaN? <==> Clip(x).NaN?
    ensures !x.NaN? ==> InUnit(Clip(x))
    ensures InUnit(x) ==> Clip(x) == x
    ensures Clip(Clip(x)) == Clip(x)
  {
  }

  function ClipImage(m: seq<seq<Float>>): (c: seq<seq<Float>>)
    ensures SameShape(c, m)
    ensures forall i, j :: 0 <= i < |m| && 0 <= j < |m[i]| ==> c[i][j] == Clip(m[i][j])
  {
    seq(|m|, (i: int) requires 0 <= i < |m| => seq(|m[i]|, (j: int) requires 0 <= j < |m[i]| => Clip(m[i][j])))
  }

  /** After clipping, every pixel that is not missing is in [-1, 1], whatever the bands' signs. */
  lemma ClipImageInRange(m: seq<seq<Float>>)
    ensures RangeAssertion(ClipImage(m))
  {
    var c := ClipImage(m);
    forall x | x in Flatten(c) && !x.NaN?
      ensures InUnit(x)
    {
      FlattenMembers(c, x);
      var i :| 0 <= i < |c| && x in c[i];
      var j :| 0 <= j < |c[i]| && c[i][j] == x;
      ClipSpec(m[i][j]);
    }
  }

  // ---- np.nanmin / np.nanmax and the range assertion ----

  /** The pixels of an image, row after row. */
  function Flatten(m: seq<seq<Float>>): seq<Float>
    decreases |m|
  {
    if m == [] then [] else Flatten(m[..|m| - 1]) + m[|m| - 1]
  }

  lemma {:induction false} FlattenMembers(m: seq<seq<Float>>, x: Float)
    ensures x in Flatten(m) <==> exists i :: 0 <= i < |m| && x in m[i]
    decreases |m|
  {
    if m != [] {
      var init := m[..|m| - 1];
      FlattenMembers(init, x);
      if exists i :: 0 <= i < |m| && x in m[i] {
        var i :| 0 <= i < |m| && x in m[i];
        if i < |init| {
          assert init[i] == m[i];
        }
      }
      forall i | 0 <= i < |init| ensures init[i] == m[i] {
      }
    }
  }

  /** `x <= y` on non-NaN floats. */
  predicate AtMost(x: Float, y: Float) {
    match (x, y)
    case (NegInf, _) => true
    case (_, PosInf) => true
    case (Num(a), Num(b)) => a <= b
    case _ => false
  }

  function Min(x: Float, y: Float): Float {
    if AtMost(x, y) then x else y
  }

  function MaxF(x: Float, y: Float): Float {
    if AtMost(x, y) then y else x
  }

  /** `np.nanmin`: the least non-NaN value, or NaN when there is none. */
  function NanMin(xs: seq<Float>): Float
    decreases |xs|
  {
    if xs == [] then NaN
    else
      var m := NanMin(xs[..|xs| - 1]);
      var x := xs[|xs| - 1];
      if x.NaN? then m else if m.NaN? then x else Min(m, x)
  }

  /** `np.nanmax`: the greatest non-NaN value, or NaN when there is none. */
  function NanMax(xs: seq<Float>): Float
    decreases |xs|
  {
    if xs == [] then NaN
    else
      var m := NanMax(xs[..|xs| - 1]);
      var x := xs[|xs| - 1];
      if x.NaN? then m else if m.NaN? then x else MaxF(m, x)
  }

  predicate AllMissing(xs: seq<Float>) {
    forall x :: x in xs ==> x.NaN?
  }

  /** nanmin is NaN only when every value is NaN, and otherwise a value below every other non-NaN value. */
  lemma {:induction false} NanMinSpec(xs: seq<Float>)
    ensures NanMin(xs).NaN? <==> AllMissing(xs)
    ensures !NanMin(xs).NaN? ==> NanMin(xs) in xs && forall x :: x in xs && !x.NaN? ==> AtMost(NanMin(xs), x)
    decreases |xs|
  {
    if xs != [] {
      var init := xs[..|xs| - 1];
      NanMinSpec(init);
      assert xs == init + [xs[|xs| - 1]];
    }
  }

  /** nanmax is NaN only when every value is NaN, and otherwise a value above every other non-NaN value. */
  lemma {:induction false} NanMaxSpec(xs: seq<Float>)
    ensures NanMax(xs).NaN? <==> AllMissing(xs)
    ensures !NanMax(xs).NaN? ==> NanMax(xs) in xs && forall x :: x in xs && !x.NaN? ==> AtMost(x, NanMax(xs))
    decreases |xs|
  {
    if xs != [] {
      var init := xs[..|xs| - 1];
      NanMaxSpec(init);
      assert xs == init + [xs[|xs| - 1]];
    }
  }

  /** The two assertions of the script as written: `-1 <= np.nanmin(ndvi) <= 1` and the same for nanmax. */
  predicate RangeAssertionAsWritten(ndvi: seq<seq<Float>>) {
    InUnit(NanMin(Flatten(ndvi))) && InUnit(NanMax(Flatten(ndvi)))
  }

  /** What the assertion is meant to check: every pixel that is not missing lies in [-1, 1]. */
  predicate RangeAssertion(ndvi: seq<seq<Float>>) {
    forall x :: x in Flatten(ndvi) && !x.NaN? ==> InUnit(x)
  }

  /** Between its extremes is in range: the written check implies the intended one, and agrees with it when some pixel is not missing. */
  lemma RangeAssertionAgreement(ndvi: seq<seq<Float>>)
    ensures RangeAssertionAsWritten(ndvi) ==> RangeAssertion(ndvi)
    ensures RangeAssertion(ndvi) && !AllMissing(Flatten(ndvi)) ==> RangeAssertionAsWritten(ndvi)
    ensures AllMissing(Flatten(ndvi)) ==> RangeAssertion(ndvi) && !RangeAssertionAsWritten(ndvi)
  {
    var xs := Flatten(ndvi);
    NanMinSpec(xs);
    NanMaxSpec(xs);
  }

  /** The intended check holds of every NDVI image of non-negative bands with missing pixels marked. */
  lemma NdviImageInRange(nir: Matrix, red: Matrix)
    requires SameShape(nir, red)
    requires forall i, j :: 0 <= i < |red| && 0 <= j < |red[i]| ==> nir[i][j] >= 0.0 && red[i][j] >= 0.0
    ensures RangeAssertion(NdviImage(MarkMissing, nir, red))
  {
    var m := NdviImage(MarkMissing, nir, red);
    forall x | x in Flatten(m) && !x.NaN?
      ensures InUnit(x)
    {
      FlattenMembers(m, x);
      var i :| 0 <= i < |m| && x in m[i];
      var j :| 0 <= j < |m[i]| && m[i][j] == x;
      NdviPixelValue(MarkMissing, nir[i][j], red[i][j]);
    }
  }

  /** A single dark pixel (red = nir = 0) is all the written check needs to fail. */
  lemma DarkPixelFailsAsWritten()
    ensures NdviImage(MarkMissing, [[0.0]], [[0.0]]) == [[NaN]]
    ensures RangeAssertion([[NaN]]) && !RangeAssertionAsWritten([[NaN]])
  {
    var band: Matrix := [[0.0]];
    var m := NdviImage(MarkMissing, band, band);
    assert |m| == 1 && |m[0]| == 1;
    assert m[0][0] == NdviPixel(MarkMissing, band[0][0], band[0][0]) == NaN;
    assert m[0] == [NaN];
    assert Flatten([[NaN]]) == [NaN] by {
      assert [[NaN]][..0] == [];
    }
    RangeAssertionAgreement([[NaN]]);
  }
}
