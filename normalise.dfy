/** How the map item normalises an incoming value before comparing it with the stored one:
    clamping with Qt's qMin/qMax, and the C library's fmod for the bearing. */
module Normalise {

  type NonPositive = r: real | r <= 0.0 witness 0.0
  type AtLeastTwenty = r: real | 20.0 <= r witness 20.0
  type NonNegative = r: real | 0.0 <= r witness 0.0

  /** mbgl::util::MIN_ZOOM. Its value is not part of this model; the item's initial
      minimum zoom 0 must be admissible, so it is at most 0. */
  const MinZoom: NonPositive

  /** mbgl::util::MAX_ZOOM. The item's initial maximum zoom 20 must be admissible. */
  const MaxZoom: AtLeastTwenty

  /** mbgl::util::PITCH_MAX * mbgl::util::RAD2DEG: the steepest pitch, in degrees. */
  const MaxPitch: NonNegative

  /** Qt's qMin: `(a < b) ? a : b`. */
  function QMin(a: real, b: real): (r: real)
    ensures r <= a && r <= b && (r == a || r == b)
  {
    if a < b then a else b
  }

  /** Qt's qMax: `(a < b) ? b : a`. */
  function QMax(a: real, b: real): (r: real)
    ensures a <= r && b <= r && (r == a || r == b)
  {
    if a < b then b else a
  }

  /** `r` is `x` clamped into the interval [lo, hi]. */
  predicate IsClamped(r: real, x: real, lo: real, hi: real) {
    lo <= r <= hi
    && (x < lo ==> r == lo)
    && (hi < x ==> r == hi)
    && (lo <= x <= hi ==> r == x)
  }

  /** setZoomLevel's normalisation: first qMin with the maximum, then qMax with the minimum. */
  function NormaliseZoom(zoom: real, lo: real, hi: real): (r: real)
    ensures lo <= r
    ensures lo <= hi ==> IsClamped(r, zoom, lo, hi)
  {
    QMax(lo, QMin(hi, zoom))
  }

  /** setMinimumZoomLevel's normalisation: at least MIN_ZOOM, at most the current maximum. */
  function NormaliseMinimumZoom(zoom: real, hi: real): (r: real)
    ensures r <= hi
    ensures MinZoom <= hi ==> IsClamped(r, zoom, MinZoom, hi)
  {
    QMin(hi, QMax(MinZoom, zoom))
  }

  /** setMaximumZoomLevel's normalisation: at most MAX_ZOOM, at least the current minimum. */
  function NormaliseMaximumZoom(zoom: real, lo: real): (r: real)
    ensures lo <= r
    ensures lo <= MaxZoom ==> IsClamped(r, zoom, lo, MaxZoom)
  {
    QMax(lo, QMin(MaxZoom, zoom))
  }

  /** setPitch's normalisation into [0, PITCH_MAX * RAD2DEG]. */
  function NormalisePitch(angle: real): (r: real)
    ensures IsClamped(r, angle, 0.0, MaxPitch)
  {
    QMin(QMax(0.0, angle), MaxPitch)
  }

  /** C's trunc: the integer part of `x`, rounded toward zero. */
  function Trunc(x: real): (n: int)
    ensures 0.0 <= x ==> n as real <= x < n as real + 1.0
    ensures x <= 0.0 ==> n as real - 1.0 < x <= n as real
  {
    if 0.0 <= x then x.Floor else -((-x).Floor)
  }

  /** `d` is an integral multiple of 360. */
  predicate IsMultipleOf360(d: real) {
    (d / 360.0).Floor as real == d / 360.0
  }

  /** What section 7.12.10.1 of ISO C11 demands of `fmod(a, 360)`: `a - 360n` for some
      integer n, with the sign of `a` and a magnitude below 360. */
  predicate IsFModResult(a: real, r: real) {
    IsMultipleOf360(a - r)
    && -360.0 < r < 360.0
    && (0.0 <= a ==> 0.0 <= r)
    && (a <= 0.0 ==> r <= 0.0)
  }

  /** `std::fmod(angle, 360.)` as setBearing computes it, on exact reals. */
  function FMod360(a: real): (r: real)
    ensures IsFModResult(a, r)
  {
    var n := Trunc(a / 360.0);
    assert (a - (a - 360.0 * n as real)) / 360.0 == n as real;
    a - 360.0 * n as real
  }

  /** Two multiples of 360 that lie less than 360 apart are equal. */
  lemma MultiplesOf360Apart(d1: real, d2: real)
    requires IsMultipleOf360(d1) && IsMultipleOf360(d2)
    requires -360.0 < d1 - d2 < 360.0
    ensures d1 == d2
  {
    var n1, n2 := (d1 / 360.0).Floor, (d2 / 360.0).Floor;
    assert d1 - d2 == 360.0 * (n1 - n2) as real;
    assert -1 < n1 - n2 < 1;
  }

  /** The C11 conditions determine fmod's result uniquely, so FMod360 is the fmod. */
  lemma FModResultIsUnique(a: real, r: real)
    requires IsFModResult(a, r)
    ensures r == FMod360(a)
  {
    var f := FMod360(a);
    MultiplesOf360Apart(a - r, a - f);
  }

  /** A bearing already stored by setBearing is left as it is by a second normalisation,
      so writing back the current bearing is a no-op. */
  lemma FMod360Idempotent(a: real)
    ensures FMod360(FMod360(a)) == FMod360(a)
  {
    var r := FMod360(a);
    assert IsMultipleOf360(r - r);
    FModResultIsUnique(r, r);
  }

  /** fmod keeps the sign of its argument: a negative bearing stays negative and is not
      wrapped into [0, 360). Whole turns fold to 0. */
  lemma FMod360Examples()
    ensures FMod360(0.0) == 0.0
    ensures FMod360(360.0) == 0.0
    ensures FMod360(720.0) == 0.0
    ensures FMod360(-45.0) == -45.0
    ensures FMod360(-400.0) == -40.0
    ensures FMod360(370.0) == 10.0
  {
    assert IsMultipleOf360(0.0 - 0.0);
    FModResultIsUnique(0.0, 0.0);
    assert IsMultipleOf360(360.0 - 0.0);
    FModResultIsUnique(360.0, 0.0);
    assert IsMultipleOf360(720.0 - 0.0);
    FModResultIsUnique(720.0, 0.0);
    assert IsMultipleOf360(-45.0 - -45.0);
    FModResultIsUnique(-45.0, -45.0);
    assert IsMultipleOf360(-400.0 - -40.0);
    FModResultIsUnique(-400.0, -40.0);
    assert IsMultipleOf360(370.0 - 10.0);
    FModResultIsUnique(370.0, 10.0);
  }
}
