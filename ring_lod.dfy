/**
 * Distance-adaptive level of detail for the ring, with hysteresis. Each
 * frame the camera's true distance to the ring circle is mapped to one of
 * four ordered levels; a boundary is crossed towards more detail only 10%
 * inside its nominal distance and towards less detail only 10% outside it,
 * measured from the level currently shown.
 */
module RingLod {
  import opened Vector3
  import opened Wrappers

  datatype LodLevel = Far | Medium | Close | Detail

  /** Rank in the order DETAIL, CLOSE, MEDIUM, FAR: lower is more detailed. */
  function LevelIndex(l: LodLevel): (i: nat)
    ensures i < 4
    ensures i == 0 <==> l == Detail
    ensures i == 1 <==> l == Close
    ensures i == 2 <==> l == Medium
    ensures i == 3 <==> l == Far
  {
    match l
    case Detail => 0
    case Close => 1
    case Medium => 2
    case Far => 3
  }

  /** Base thresholds, in kilometres. */
  const DetailThreshold: real := 100.0
  const CloseThreshold: real := 1000.0
  const MediumThreshold: real := 10000.0

  /** The hysteresis fraction, 10%. */
  const Hysteresis: real := 0.1

  /** The nominal distance below which `l` is shown; FAR has none. */
  function BaseThreshold(l: LodLevel): real
    requires l != Far
  {
    match l
    case Detail => DetailThreshold
    case Close => CloseThreshold
    case Medium => MediumThreshold
  }

  /**
   * The threshold actually compared against when testing `target` while
   * `current` is shown: below the base when `target` is strictly more
   * detailed than `current` (easier to enter), above it otherwise (harder
   * to leave), by exactly the hysteresis fraction.
   */
  function ThresholdWithHysteresis(base: real, current: LodLevel, target: LodLevel): (r: real)
    ensures r == base * (1.0 - Hysteresis) || r == base * (1.0 + Hysteresis)
    ensures base > 0.0 ==> (r < base <==> LevelIndex(target) < LevelIndex(current))
  {
    if LevelIndex(target) < LevelIndex(current) then base * (1.0 - Hysteresis)
    else base * (1.0 + Hysteresis)
  }

  /**
   * The distance band in which level `l`, once shown, is kept:
   * DETAIL below 110, CLOSE in [90, 1100), MEDIUM in [900, 11000), FAR from 9000.
   */
  predicate InStickyBand(d: real, l: LodLevel)
  {
    match l
    case Detail => d < DetailThreshold * (1.0 + Hysteresis)
    case Close => DetailThreshold * (1.0 - Hysteresis) <= d < CloseThreshold * (1.0 + Hysteresis)
    case Medium => CloseThreshold * (1.0 - Hysteresis) <= d < MediumThreshold * (1.0 + Hysteresis)
    case Far => MediumThreshold * (1.0 - Hysteresis) <= d
  }

  /**
   * The level for distance `d` when `current` is shown. Very near is always
   * DETAIL and very far always FAR; inside its sticky band the current level
   * is kept; a more detailed level is entered only below its entering
   * threshold (base minus 10%), and the current level is left for a less
   * detailed one only at or beyond its leaving threshold (base plus 10%).
   * Conversely the change does happen: the result is the most detailed
   * level whose threshold, as adjusted for `current`, lies above `d`, so an
   * entering threshold passed always refines and a leaving threshold passed
   * always coarsens.
   */
  function ComputeLodLevel(d: real, current: LodLevel): (r: LodLevel)
    ensures d < DetailThreshold * (1.0 - Hysteresis) ==> r == Detail
    ensures d >= MediumThreshold * (1.0 + Hysteresis) ==> r == Far
    ensures InStickyBand(d, current) ==> r == current
    ensures LevelIndex(r) < LevelIndex(current) ==> d < BaseThreshold(r) * (1.0 - Hysteresis)
    ensures LevelIndex(r) > LevelIndex(current) ==> d >= BaseThreshold(current) * (1.0 + Hysteresis)
    ensures r != Far ==> d < ThresholdWithHysteresis(BaseThreshold(r), current, r)
    ensures forall l :: l != Far && LevelIndex(l) < LevelIndex(r) ==>
      d >= ThresholdWithHysteresis(BaseThreshold(l), current, l)
    ensures forall l :: l != Far && LevelIndex(l) < LevelIndex(current) && d < BaseThreshold(l) * (1.0 - Hysteresis) ==>
      LevelIndex(r) <= LevelIndex(l)
    ensures current != Far && d >= BaseThreshold(current) * (1.0 + Hysteresis) ==> LevelIndex(r) > LevelIndex(current)
  {
    if d < ThresholdWithHysteresis(DetailThreshold, current, Detail) then Detail
    else if d < ThresholdWithHysteresis(CloseThreshold, current, Close) then Close
    else if d < ThresholdWithHysteresis(MediumThreshold, current, Medium) then Medium
    else Far
  }

  /** Moving closer never makes the shown level coarser. */
  lemma ApproachNeverCoarsens(d: real, d': real, current: LodLevel)
    requires d' <= d
    ensures LevelIndex(ComputeLodLevel(d', ComputeLodLevel(d, current))) <= LevelIndex(ComputeLodLevel(d, current))
  {
  }

  /** Moving away never makes the shown level finer. */
  lemma RetreatNeverRefines(d: real, d': real, current: LodLevel)
    requires d <= d'
    ensures LevelIndex(ComputeLodLevel(d', ComputeLodLevel(d, current))) >= LevelIndex(ComputeLodLevel(d, current))
  {
  }

  /** The level shown after each of the distances `ds` in turn, starting from `current`. */
  function LevelTrace(ds: seq<real>, current: LodLevel): (t: seq<LodLevel>)
    ensures |t| == |ds|
  {
    if ds == [] then []
    else
      var next := ComputeLodLevel(ds[0], current);
      [next] + LevelTrace(ds[1..], next)
  }

  /** Distances jittering within 5% of the boundary at `base`. */
  predicate JitterAround(ds: seq<real>, base: real)
  {
    forall k :: 0 <= k < |ds| ==> base * 0.95 <= ds[k] <= base * 1.05
  }

  /** The two levels that meet at the nominal boundary `base`. */
  predicate AdjacentTo(l: LodLevel, base: real)
  {
    || (base == DetailThreshold && (l == Detail || l == Close))
    || (base == CloseThreshold && (l == Close || l == Medium))
    || (base == MediumThreshold && (l == Medium || l == Far))
  }

  /**
   * No flicker: once either level meeting at a boundary is shown, distances
   * jittering between 95% and 105% of that boundary never change it.
   */
  lemma {:induction false} JitterNeverChangesLevel(ds: seq<real>, base: real, current: LodLevel)
    requires AdjacentTo(current, base)
    requires JitterAround(ds, base)
    ensures forall k :: 0 <= k < |ds| ==> LevelTrace(ds, current)[k] == current
  {
    if ds != [] {
      assert InStickyBand(ds[0], current);
      assert JitterAround(ds[1..], base) by {
        forall k | 0 <= k < |ds[1..]| ensures base * 0.95 <= ds[1..][k] <= base * 1.05 {
          assert ds[1..][k] == ds[k + 1];
        }
      }
      JitterNeverChangesLevel(ds[1..], base, current);
    }
  }

  /** A non-increasing sequence of distances: the camera approaching the ring. */
  predicate Approaching(ds: seq<real>)
  {
    forall i, j :: 0 <= i < j < |ds| ==> ds[j] <= ds[i]
  }

  /**
   * While the camera approaches, the level trace only ever gets more
   * detailed (its rank never increases).
   */
  lemma {:induction false} ApproachTraceRefines(ds: seq<real>, current: LodLevel)
    requires Approaching(ds)
    ensures forall i, j :: 0 <= i < j < |ds| ==> LevelIndex(LevelTrace(ds, current)[j]) <= LevelIndex(LevelTrace(ds, current)[i])
  {
    if |ds| > 1 {
      var next := ComputeLodLevel(ds[0], current);
      var rest := LevelTrace(ds[1..], next);
      assert Approaching(ds[1..]) by {
        forall i, j | 0 <= i < j < |ds[1..]| ensures ds[1..][j] <= ds[1..][i] {
          assert ds[1..][j] == ds[j + 1] && ds[1..][i] == ds[i + 1];
        }
      }
      ApproachTraceRefines(ds[1..], next);
      ApproachNeverCoarsens(ds[0], ds[1], current);
      assert LevelIndex(rest[0]) <= LevelIndex(next);
      forall i, j | 0 <= i < j < |ds|
        ensures LevelIndex(LevelTrace(ds, current)[j]) <= LevelIndex(LevelTrace(ds, current)[i])
      {
        assert LevelTrace(ds, current) == [next] + rest;
        if i > 0 {
          assert LevelTrace(ds, current)[i] == rest[i - 1];
        }
        assert LevelTrace(ds, current)[j] == rest[j - 1];
      }
    }
  }

  /**
   * Levels along a trace moving away from the ring: starting FAR at 50 km
   * gives DETAIL; then 500, 5000 and 15000 km give CLOSE, MEDIUM and FAR.
   */
  lemma LevelsAlongDistances()
    ensures LevelTrace([50.0, 500.0, 5000.0, 15000.0], Far) == [Detail, Close, Medium, Far]
  {
  }

  /**
   * The hysteresis is measured from the level shown, even across a boundary
   * that is not its own: from FAR, 950 km enters MEDIUM (CLOSE needs 900),
   * and from DETAIL, 1500 km is past CLOSE's leaving threshold of 1100 and
   * so lands in MEDIUM.
   */
  lemma HysteresisAnchoredAtCurrentLevel()
    ensures ComputeLodLevel(950.0, Far) == Medium
    ensures ComputeLodLevel(899.0, Far) == Close
    ensures ComputeLodLevel(1500.0, Detail) == Medium
    ensures ComputeLodLevel(1050.0, Detail) == Close
  {
  }

  /** Mean Earth radius in kilometres, and the scene scale (one unit per kilometre). */
  const EarthRadiusKm: real := 6371.0
  const KmToScene: real := 1.0

  /** The ring's radius in scene units for a ring at `altitude` kilometres. */
  function RingRadius(altitude: real): (r: real)
    ensures r == EarthRadiusKm * KmToScene + altitude * KmToScene
    ensures altitude >= 0.0 ==> r >= EarthRadiusKm * KmToScene
  {
    (EarthRadiusKm + altitude) * KmToScene
  }

  function Abs(x: real): (r: real)
    ensures r >= 0.0 && (r == x || r == -x)
  {
    if x < 0.0 then -x else x
  }

  function Sq(x: real): real
  {
    x * x
  }

  /** `sqrt` behaves as the non-negative square root at `x`. */
  ghost predicate IsSqrtAt(sqrt: real -> real, x: real)
  {
    sqrt(x) >= 0.0 && Sq(sqrt(x)) == x
  }

  /**
   * The distance from `camWorld` (a true position) to the nearest point of a
   * ring of radius `ringRadius` in the plane y = 0 centred on the true origin,
   * computed as in the frame callback with the host's square root `sqrt`.
   * Where `sqrt` is the non-negative square root at the two points it is
   * applied to, the distance is non-negative and its square is the squared
   * in-plane gap between the camera's distance from the axis and the radius,
   * plus the squared height above the ring plane.
   */
  function DistanceToRing(camWorld: Vec3, ringRadius: real, sqrt: real -> real): (r: real)
    ensures
      var rho := sqrt(Sq(camWorld.x) + Sq(camWorld.z));
      IsSqrtAt(sqrt, Sq(camWorld.x) + Sq(camWorld.z)) && IsSqrtAt(sqrt, Sq(rho - ringRadius) + Sq(camWorld.y)) ==>
        && Sq(rho) == Sq(camWorld.x) + Sq(camWorld.z)
        && r >= 0.0
        && Sq(r) == Sq(rho - ringRadius) + Sq(camWorld.y)
  {
    var distToAxis := sqrt(Sq(camWorld.x) + Sq(camWorld.z));
    var distToRingXZ := Abs(distToAxis - ringRadius);
    AbsSquared(distToAxis - ringRadius);
    sqrt(Sq(distToRingXZ) + Sq(camWorld.y))
  }

  /** Non-negative square roots are unique. */
  lemma SqrtUnique(a: real, b: real)
    requires a >= 0.0 && b >= 0.0 && Sq(a) == Sq(b)
    ensures a == b
  {
    assert (a - b) * (a + b) == a * a - b * b;
    if a + b == 0.0 {
      assert a == 0.0 && b == 0.0;
    } else {
      assert a - b == 0.0;
    }
  }

  lemma AbsSquared(x: real)
    ensures Sq(Abs(x)) == Sq(x)
  {
  }

  /** A camera straight above a point of the ring, at height `h`, is `|h|` from it. */
  lemma DistanceAboveRing(ringRadius: real, h: real, sqrt: real -> real)
    requires ringRadius >= 0.0
    requires IsSqrtAt(sqrt, Sq(ringRadius))
    requires IsSqrtAt(sqrt, Sq(h))
    ensures DistanceToRing(Vec3(ringRadius, h, 0.0), ringRadius, sqrt) == Abs(h)
  {
    assert Sq(ringRadius) + Sq(0.0) == Sq(ringRadius);
    SqrtUnique(sqrt(Sq(ringRadius)), ringRadius);
    assert Sq(Abs(ringRadius - ringRadius)) + Sq(h) == Sq(h);
    AbsSquared(h);
    SqrtUnique(sqrt(Sq(h)), Abs(h));
  }

  /** A camera in the ring plane at twice the radius is one radius from the ring. */
  lemma DistanceAtTwiceRadius(ringRadius: real, sqrt: real -> real)
    requires ringRadius >= 0.0
    requires IsSqrtAt(sqrt, Sq(2.0 * ringRadius))
    requires IsSqrtAt(sqrt, Sq(ringRadius))
    ensures DistanceToRing(Vec3(2.0 * ringRadius, 0.0, 0.0), ringRadius, sqrt) == ringRadius
  {
    assert Sq(2.0 * ringRadius) + Sq(0.0) == Sq(2.0 * ringRadius);
    SqrtUnique(sqrt(Sq(2.0 * ringRadius)), 2.0 * ringRadius);
    assert Sq(Abs(2.0 * ringRadius - ringRadius)) + Sq(0.0) == Sq(ringRadius);
    SqrtUnique(sqrt(Sq(ringRadius)), ringRadius);
  }

  /** What is mounted for each level. */
  datatype RingVariant =
    | LineLoop
    | Tube(tubularSegments: nat, radialSegments: nat, maxVisibleTethers: Option<int>)

  /**
   * FAR is the bare line loop; the other levels mount the tube and the
   * tethers, with more segments and a higher (finally no) tether cap the more
   * detailed the level.
   */
  function VariantFor(l: LodLevel): (v: RingVariant)
    ensures v.LineLoop? <==> l == Far
    ensures v.Tube? ==> v.radialSegments * 8 == v.tubularSegments
    ensures v.Tube? ==> (v.maxVisibleTethers.None? <==> l == Detail)
  {
    match l
    case Far => LineLoop
    case Medium => Tube(64, 8, Some(200))
    case Close => Tube(128, 16, Some(500))
    case Detail => Tube(256, 32, None)
  }

  /** A more detailed level never has fewer segments. */
  lemma VariantSegmentsGrowWithDetail(a: LodLevel, b: LodLevel)
    requires a != Far && b != Far
    requires LevelIndex(a) < LevelIndex(b)
    ensures VariantFor(a).tubularSegments > VariantFor(b).tubularSegments
    ensures VariantFor(a).radialSegments > VariantFor(b).radialSegments
  {
  }

  /** The rendering component's held level: the `useState` behind the frame callback. */
  class LodSelector {
    var lodLevel: LodLevel

    /** The first render shows FAR. */
    constructor ()
      ensures lodLevel == Far
    {
      lodLevel := Far;
    }

    /**
     * One frame: compute the true camera position from the local position
     * and the world origin, its distance to the ring, and the next level.
     * The stored level changes only through `ComputeLodLevel`, and `changed`
     * (the state update being issued) holds exactly when it differs.
     */
    method OnFrame(cameraPosition: Vec3, worldOrigin: Vec3, altitude: real, sqrt: real -> real)
      returns (changed: bool)
      modifies this
      ensures lodLevel == ComputeLodLevel(
        DistanceToRing(Add(cameraPosition, worldOrigin), RingRadius(altitude), sqrt), old(lodLevel))
      ensures changed <==> lodLevel != old(lodLevel)
    {
      var camWorld := Add(cameraPosition, worldOrigin);
      var distToRing := DistanceToRing(camWorld, RingRadius(altitude), sqrt);
      var newLevel := ComputeLodLevel(distToRing, lodLevel);
      changed := newLevel != lodLevel;
      if changed {
        lodLevel := newLevel;
      }
    }
  }
}
