/** The fixed grids the convenience endpoints sweep: the 5 x 5 degree surface
    tiling (tile centres) and the 100..1000 km altitude profile. */
module Grids {

  /** Python's `range(start, stop, step)` for a positive step: `start`,
      `start + step`, ... while below `stop`. The contract pins the result
      down: the i-th value, all of them below `stop`, and one more step would
      reach `stop`. */
  function Range(start: int, stop: int, step: int): (r: seq<int>)
    requires step > 0
    ensures forall i :: 0 <= i < |r| ==> r[i] == start + i * step
    ensures forall i :: 0 <= i < |r| ==> r[i] < stop
    ensures start + |r| * step >= stop
    ensures start < stop <==> |r| > 0
    decreases stop - start
  {
    if start < stop then
      var rest := Range(start + step, stop, step);
      var r := [start] + rest;
      forall i | 1 <= i < |r|
        ensures r[i] == start + i * step
      {
        NextMultiple(i - 1, step);
      }
      NextMultiple(|rest|, step);
      r
    else []
  }

  /** One more step: (k + 1) * step == k * step + step. */
  lemma NextMultiple(k: int, step: int)
    ensures (k + 1) * step == k * step + step
  {
  }

  /** Sorted ascending with no repeats. */
  predicate StrictlyIncreasing(xs: seq<real>) {
    forall i, j :: 0 <= i < j < |xs| ==> xs[i] < xs[j]
  }

  /** Centres of 5-degree tiles starting at `lo`: `[x + 2.5 for x in range(lo, hi, 5)]`.
      The last tile is the first one whose far edge reaches `hi`. */
  function TileCentres(lo: int, hi: int): (r: seq<real>)
    requires lo < hi
    ensures forall i :: 0 <= i < |r| ==> r[i] == lo as real + 2.5 + 5.0 * i as real
    ensures lo + 5 * (|r| - 1) < hi <= lo + 5 * |r|
  {
    var starts := Range(lo, hi, 5);
    assert starts[|starts| - 1] < hi;
    seq(|starts|, i requires 0 <= i < |starts| => starts[i] as real + 2.5)
  }

  /** Latitude centres of the surface grid. */
  function SurfaceLatitudes(): (r: seq<real>)
    ensures |r| == 36
    ensures forall i :: 0 <= i < |r| ==> r[i] == -87.5 + 5.0 * i as real
  {
    TileCentres(-90, 90)
  }

  /** Longitude centres of the surface grid. */
  function SurfaceLongitudes(): (r: seq<real>)
    ensures |r| == 72
    ensures forall i :: 0 <= i < |r| ==> r[i] == -177.5 + 5.0 * i as real
  {
    TileCentres(-180, 180)
  }

  /** The centres are evenly spaced tile midpoints: first and last tile touch
      the bounds, neighbours are 5 degrees apart, so the tiles cover
      [-90, 90] x [-180, 180] without gap or overlap. */
  lemma SurfaceGridTiles()
    ensures SurfaceLatitudes()[0] - 2.5 == -90.0 && SurfaceLatitudes()[35] + 2.5 == 90.0
    ensures SurfaceLongitudes()[0] - 2.5 == -180.0 && SurfaceLongitudes()[71] + 2.5 == 180.0
    ensures forall i :: 0 < i < 36 ==> SurfaceLatitudes()[i] - SurfaceLatitudes()[i - 1] == 5.0
    ensures forall i :: 0 < i < 72 ==> SurfaceLongitudes()[i] - SurfaceLongitudes()[i - 1] == 5.0
    ensures forall i :: 0 <= i < 36 ==> -90.0 < SurfaceLatitudes()[i] < 90.0
    ensures forall i :: 0 <= i < 72 ==> -180.0 < SurfaceLongitudes()[i] < 180.0
    ensures StrictlyIncreasing(SurfaceLatitudes()) && StrictlyIncreasing(SurfaceLongitudes())
    ensures |SurfaceLatitudes()| * |SurfaceLongitudes()| == 2592
  {
  }

  /** `[x for x in range(100, 1005, 5)]`: altitudes in km. */
  function AltitudeProfile(): (r: seq<int>)
    ensures |r| == 181
    ensures forall i :: 0 <= i < |r| ==> r[i] == 100 + 5 * i
  {
    var r := Range(100, 1005, 5);
    assert r[|r| - 1] < 1005;
    r
  }

  /** The profile runs from 100 to 1000 km inclusive in 5 km steps, and
      contains every multiple of 5 in that interval. */
  lemma AltitudeProfileCovers()
    ensures AltitudeProfile()[0] == 100 && AltitudeProfile()[180] == 1000
    ensures forall i, j :: 0 <= i < j < 181 ==> AltitudeProfile()[i] < AltitudeProfile()[j]
    ensures forall a :: 100 <= a <= 1000 && a % 5 == 0 <==> a in AltitudeProfile()
  {
    FiveStepsCover(AltitudeProfile());
  }

  /** A sequence of 181 values 100 + 5i holds exactly the multiples of 5 from
      100 to 1000. */
  lemma FiveStepsCover(p: seq<int>)
    requires |p| == 181 && forall i :: 0 <= i < |p| ==> p[i] == 100 + 5 * i
    ensures forall a :: 100 <= a <= 1000 && a % 5 == 0 <==> a in p
  {
    forall a | a in p
      ensures 100 <= a <= 1000 && a % 5 == 0
    {
      var i :| 0 <= i < |p| && p[i] == a;
      assert a == 5 * (20 + i);
    }
    forall a | 100 <= a <= 1000 && a % 5 == 0
      ensures a in p
    {
      var k := a / 5 - 20;
      assert a == 5 * (a / 5);
      assert 0 <= k < |p| && p[k] == a;
    }
  }
}
