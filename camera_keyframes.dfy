/**
 * Camera keyframes for the intro: for each stage a short path of
 * keyframes (position, look-at target, field of view), and the lookup that
 * turns a stage key and a progress in [0, 1] into a camera pose. Positions
 * follow a Catmull-Rom curve through the keyframe positions, built once per
 * stage and cached; targets and fields of view are linearly interpolated
 * on the keyframe segment the progress falls in.
 */
module CameraKeyframes {
  import opened Vector3
  import opened RingLod
  import opened StageDefinitions

  datatype CameraKeyframe = CameraKeyframe(position: Vec3, target: Vec3, fov: real)

  /** Earth's radius in scene units. */
  const R: real := EarthRadiusKm * KmToScene

  function Key(px: real, py: real, pz: real, tx: real, ty: real, tz: real, fov: real): CameraKeyframe
  {
    CameraKeyframe(Vec3(px, py, pz), Vec3(tx, ty, tz), fov)
  }

  /** The keyframe paths, by stage key. */
  const CameraPaths: map<string, seq<CameraKeyframe>> := map[
    "satelliteDesign" := [
      Key(0.0, 10.0, R + 440.0, 0.0, 0.0, R + 400.0, 40.0),
      Key(25.0, 15.0, R + 425.0, 0.0, 0.0, R + 400.0, 38.0),
      Key(35.0, -5.0, R + 415.0, 0.0, 0.0, R + 400.0, 36.0)],
    "bulkLaunches" := [
      Key(35.0, -5.0, R + 415.0, 0.0, 0.0, R + 400.0, 36.0),
      Key(R * 0.3, R * 0.2, R * 1.6, 0.0, 0.0, 0.0, 50.0),
      Key(R * 0.5, R * 0.4, R * 1.5, 0.0, 0.0, 0.0, 55.0)],
    "orbitalPhasing" := [
      Key(R * 0.5, R * 0.4, R * 1.5, 0.0, 0.0, 0.0, 55.0),
      Key(R * 0.2, R * 1.8, R * 0.3, 0.0, 0.0, 0.0, 50.0),
      Key(0.0, R * 2.0, R * 0.1, 0.0, 0.0, 0.0, 45.0)],
    "deployment" := [
      Key(0.0, R * 2.0, R * 0.1, 0.0, 0.0, 0.0, 45.0),
      Key(30.0, 20.0, R + 460.0, 0.0, 0.0, R + 400.0, 36.0),
      Key(-20.0, 10.0, R + 450.0, 0.0, 0.0, R + 400.0, 34.0)],
    "linking" := [
      Key(-20.0, 10.0, R + 450.0, 0.0, 0.0, R + 400.0, 34.0),
      Key(40.0, 5.0, R + 430.0, 0.0, 0.0, R + 400.0, 38.0),
      Key(R * 0.3, R * 0.3, R * 1.2, 0.0, 0.0, 0.0, 50.0)],
    "rotorAcceleration" := [
      Key(R * 0.3, R * 0.3, R * 1.2, 0.0, 0.0, 0.0, 50.0),
      Key(R * 0.4, R * 0.15, R * 1.15, 0.0, 0.0, 0.0, 48.0),
      Key(R * 0.6, R * 0.4, R * 1.0, 0.0, 0.0, 0.0, 52.0)],
    "bootstrapRedundancy" := [
      Key(R * 0.6, R * 0.4, R * 1.0, 0.0, 0.0, 0.0, 52.0),
      Key(R * 0.8, R * 0.6, R * 0.8, 0.0, R * 0.05, 0.0, 50.0),
      Key(R * 0.5, R * 1.0, R * 0.6, 0.0, 0.0, 0.0, 48.0)]
  ]

  /** The pose used for a stage key with no path: straight out along z, looking at the origin. */
  const DefaultKeyframe: CameraKeyframe := Key(0.0, 0.0, R * 2.5, 0.0, 0.0, 0.0, 45.0)

  /** Every stage has a three-keyframe path, and every path belongs to a stage. */
  lemma PathsCoverStages()
    ensures forall i :: 0 <= i < |Stages| ==> Stages[i].key in CameraPaths
    ensures forall k :: k in CameraPaths ==> |CameraPaths[k]| == 3
    ensures forall k :: k in CameraPaths ==> exists i :: 0 <= i < |Stages| && Stages[i].key == k
  {
    assert Stages[0].key == "satelliteDesign";
    assert Stages[1].key == "bulkLaunches";
    assert Stages[2].key == "orbitalPhasing";
    assert Stages[3].key == "deployment";
    assert Stages[4].key == "linking";
    assert Stages[5].key == "rotorAcceleration";
    assert Stages[6].key == "bootstrapRedundancy";
  }

  /** Each stage's path ends where the next stage's path begins, so the camera never jumps between stages. */
  lemma PathsJoinUp(i: int)
    requires 0 <= i < |Stages| - 1
    ensures Stages[i].key in CameraPaths && Stages[i + 1].key in CameraPaths
    ensures
      var before := CameraPaths[Stages[i].key];
      var after := CameraPaths[Stages[i + 1].key];
      |before| > 0 && |after| > 0 && before[|before| - 1] == after[0]
  {
    PathsCoverStages();
  }

  /** `Math.max(0, Math.min(1, p))`. */
  function Clamp01(p: real): (t: real)
    ensures 0.0 <= t <= 1.0
    ensures 0.0 <= p <= 1.0 ==> t == p
    ensures p < 0.0 ==> t == 0.0
    ensures p > 1.0 ==> t == 1.0
  {
    var m := if 1.0 <= p then 1.0 else p;
    if 0.0 >= m then 0.0 else m
  }

  /**
   * The keyframe segment a progress `t` falls in on a path of `n` keyframes,
   * and the position within it: `t * (n - 1)` split into a whole part
   * (capped at the last segment, so that `t == 1` lands at the end of the
   * last segment rather than past it) and the rest.
   */
  function Segment(n: int, t: real): (r: (int, real))
    requires n >= 2 && 0.0 <= t <= 1.0
    ensures 0 <= r.0 <= n - 2
    ensures 0.0 <= r.1 <= 1.0
    ensures r.0 as real + r.1 == t * (n - 1) as real
    ensures t == 0.0 ==> r == (0, 0.0)
    ensures t == 1.0 ==> r == (n - 2, 1.0)
  {
    var segmentCount := n - 1;
    var scaledT := t * segmentCount as real;
    FractionOfBound(t, segmentCount as real);
    var fl := scaledT.Floor;
    var segIndex := if fl <= segmentCount - 1 then fl else segmentCount - 1;
    (segIndex, scaledT - segIndex as real)
  }

  lemma FractionOfBound(s: real, k: real)
    requires 0.0 <= s <= 1.0 && 0.0 <= k
    ensures 0.0 <= s * k <= k && 0.0 <= k * s <= k
  {
    assert k - s * k == (1.0 - s) * k;
  }

  /** `a.lerp(b, s)` on one coordinate. */
  function Lerp(a: real, b: real, s: real): (r: real)
    ensures s == 0.0 ==> r == a
    ensures s == 1.0 ==> r == b
  {
    a + (b - a) * s
  }

  function LerpVec(a: Vec3, b: Vec3, s: real): Vec3
  {
    Vec3(Lerp(a.x, b.x, s), Lerp(a.y, b.y, s), Lerp(a.z, b.z, s))
  }

  /** Interpolation with a weight in [0, 1] never leaves the interval between its ends. */
  lemma LerpBetween(a: real, b: real, s: real)
    requires 0.0 <= s <= 1.0
    ensures a <= b ==> a <= Lerp(a, b, s) <= b
    ensures b <= a ==> b <= Lerp(a, b, s) <= a
  {
    assert Lerp(a, b, s) == a + (b - a) * s;
    if a <= b {
      FractionOfBound(s, b - a);
    } else {
      FractionOfBound(s, a - b);
      assert (b - a) * s == -((a - b) * s);
    }
  }

  /** The look-at target at progress `t` along `path`: the first keyframe's at 0 and the last one's at 1. */
  function TargetAt(path: seq<CameraKeyframe>, t: real): (v: Vec3)
    requires |path| >= 2 && 0.0 <= t <= 1.0
    ensures t == 0.0 ==> v == path[0].target
    ensures t == 1.0 ==> v == path[|path| - 1].target
  {
    var (i, s) := Segment(|path|, t);
    LerpVec(path[i].target, path[i + 1].target, s)
  }

  /** The field of view at progress `t` along `path`: the first keyframe's at 0 and the last one's at 1. */
  function FovAt(path: seq<CameraKeyframe>, t: real): (f: real)
    requires |path| >= 2 && 0.0 <= t <= 1.0
    ensures t == 0.0 ==> f == path[0].fov
    ensures t == 1.0 ==> f == path[|path| - 1].fov
  {
    var (i, s) := Segment(|path|, t);
    Lerp(path[i].fov, path[i + 1].fov, s)
  }

  /** The field of view lies between the fields of view of the segment's two keyframes. */
  lemma FovWithinSegment(path: seq<CameraKeyframe>, t: real)
    requires |path| >= 2 && 0.0 <= t <= 1.0
    ensures
      var i := Segment(|path|, t).0;
      var lo := if path[i].fov <= path[i + 1].fov then path[i].fov else path[i + 1].fov;
      var hi := if path[i].fov <= path[i + 1].fov then path[i + 1].fov else path[i].fov;
      lo <= FovAt(path, t) <= hi
  {
    var (i, s) := Segment(|path|, t);
    LerpBetween(path[i].fov, path[i + 1].fov, s);
  }

  /** Each coordinate of the target lies between that coordinate of the segment's two keyframes. */
  lemma TargetWithinSegment(path: seq<CameraKeyframe>, t: real)
    requires |path| >= 2 && 0.0 <= t <= 1.0
    ensures
      var i := Segment(|path|, t).0;
      var a := path[i].target;
      var b := path[i + 1].target;
      var v := TargetAt(path, t);
      && (a.x <= b.x ==> a.x <= v.x <= b.x) && (b.x <= a.x ==> b.x <= v.x <= a.x)
      && (a.y <= b.y ==> a.y <= v.y <= b.y) && (b.y <= a.y ==> b.y <= v.y <= a.y)
      && (a.z <= b.z ==> a.z <= v.z <= b.z) && (b.z <= a.z ==> b.z <= v.z <= a.z)
  {
    var (i, s) := Segment(|path|, t);
    LerpBetween(path[i].target.x, path[i + 1].target.x, s);
    LerpBetween(path[i].target.y, path[i + 1].target.y, s);
    LerpBetween(path[i].target.z, path[i + 1].target.z, s);
  }

  /**
   * A Catmull-Rom curve: the control points, open or closed, the
   * parameterisation and its tension. Evaluating it is left to the host.
   */
  datatype Curve = CatmullRom(points: seq<Vec3>, closed: bool, curveType: string, tension: real)

  /** The open curve through a path's keyframe positions, of type "catmullrom" with tension 0.5. */
  function CurveFor(path: seq<CameraKeyframe>): (c: Curve)
    ensures |c.points| == |path| && !c.closed
    ensures forall i :: 0 <= i < |path| ==> c.points[i] == path[i].position
  {
    CatmullRom(seq(|path|, i requires 0 <= i < |path| => path[i].position), false, "catmullrom", 0.5)
  }

  /** What the host's curve evaluation promises: the curve starts at its first point and ends at its last. */
  ghost predicate PassesThroughEnds(pointAt: (Curve, real) -> Vec3, c: Curve)
  {
    |c.points| > 0 ==> pointAt(c, 0.0) == c.points[0] && pointAt(c, 1.0) == c.points[|c.points| - 1]
  }

  predicate HasPath(stageKey: string)
  {
    stageKey in CameraPaths && |CameraPaths[stageKey]| > 0
  }

  /**
   * The camera pose at `progress` through the stage `stageKey`, as if nothing
   * were cached. A key with no path gets the default pose. Otherwise progress
   * is clamped to [0, 1]: at or below 0 the target and field of view are the
   * first keyframe's, and at or above 1 the last one's; the position is
   * likewise the first or last keyframe's when the host's curve passes
   * through its end points.
   */
  function CameraAtProgress(stageKey: string, progress: real, pointAt: (Curve, real) -> Vec3): (kf: CameraKeyframe)
    ensures !HasPath(stageKey) ==> kf == DefaultKeyframe
    ensures HasPath(stageKey) ==>
      var path := CameraPaths[stageKey];
      && (progress <= 0.0 ==> kf.target == path[0].target && kf.fov == path[0].fov)
      && (progress >= 1.0 ==> kf.target == path[|path| - 1].target && kf.fov == path[|path| - 1].fov)
    ensures HasPath(stageKey) && PassesThroughEnds(pointAt, CurveFor(CameraPaths[stageKey])) ==>
      var path := CameraPaths[stageKey];
      && (progress <= 0.0 ==> kf.position == path[0].position)
      && (progress >= 1.0 ==> kf.position == path[|path| - 1].position)
  {
    if !HasPath(stageKey) then DefaultKeyframe
    else
      PathsCoverStages();
      var path := CameraPaths[stageKey];
      var t := Clamp01(progress);
      CameraKeyframe(pointAt(CurveFor(path), t), TargetAt(path, t), FovAt(path, t))
  }

  /** A stage key with no path gets the default pose, 2.5 Earth radii out along z with a 45-degree field of view. */
  lemma UnknownKeyGetsDefault(stageKey: string, progress: real, pointAt: (Curve, real) -> Vec3)
    requires stageKey !in CameraPaths
    ensures CameraAtProgress(stageKey, progress, pointAt) == CameraKeyframe(Vec3(0.0, 0.0, 15927.5), Zero, 45.0)
  {
  }

  /**
   * The pose at the end of a stage equals the pose at the start of the next,
   * when the curve evaluation passes through its end points.
   */
  lemma {:induction false} NoJumpBetweenStages(i: int, pointAt: (Curve, real) -> Vec3)
    requires 0 <= i < |Stages| - 1
    requires forall path :: PassesThroughEnds(pointAt, CurveFor(path))
    ensures CameraAtProgress(Stages[i].key, 1.0, pointAt) == CameraAtProgress(Stages[i + 1].key, 0.0, pointAt)
  {
    PathsJoinUp(i);
    PathsCoverStages();
    var before := CameraPaths[Stages[i].key];
    var after := CameraPaths[Stages[i + 1].key];
    assert PassesThroughEnds(pointAt, CurveFor(before));
    assert PassesThroughEnds(pointAt, CurveFor(after));
  }

  /** The module-level cache of built curves, by stage key. */
  class CurveCache {
    var curves: map<string, Curve>

    /** Every cached curve is the one built from its stage's path. */
    ghost predicate Valid()
      reads this
    {
      forall k :: k in curves ==> HasPath(k) && curves[k] == CurveFor(CameraPaths[k])
    }

    constructor()
      ensures curves == map[] && Valid()
    {
      curves := map[];
    }

    /**
     * `getCameraAtProgress`: the pose is the one computed without a cache,
     * and the only change to the cache is that the stage's curve is added
     * the first time the stage is asked for.
     */
    method GetCameraAtProgress(stageKey: string, progress: real, pointAt: (Curve, real) -> Vec3)
      returns (kf: CameraKeyframe)
      requires Valid()
      modifies this
      ensures Valid()
      ensures kf == CameraAtProgress(stageKey, progress, pointAt)
      ensures !HasPath(stageKey) ==> curves == old(curves)
      ensures HasPath(stageKey) && stageKey in old(curves) ==> curves == old(curves)
      ensures HasPath(stageKey) && stageKey !in old(curves) ==>
        curves == old(curves)[stageKey := CurveFor(CameraPaths[stageKey])]
    {
      if stageKey !in CameraPaths || |CameraPaths[stageKey]| == 0 {
        return DefaultKeyframe;
      }
      PathsCoverStages();
      var path := CameraPaths[stageKey];
      var t := Clamp01(progress);
      if stageKey !in curves {
        curves := curves[stageKey := CurveFor(path)];
      }
      var curve := curves[stageKey];
      assert curve == CurveFor(path);
      var position := pointAt(curve, t);

      var segmentCount := |path| - 1;
      var scaledT := t * segmentCount as real;
      var fl := scaledT.Floor;
      var segIndex := if fl <= segmentCount - 1 then fl else segmentCount - 1;
      var segT := scaledT - segIndex as real;
      assert (segIndex, segT) == Segment(|path|, t);

      var target := LerpVec(path[segIndex].target, path[segIndex + 1].target, segT);
      var fov := Lerp(path[segIndex].fov, path[segIndex + 1].fov, segT);
      assert target == TargetAt(path, t);
      assert fov == FovAt(path, t);
      kf := CameraKeyframe(position, target, fov);
    }
  }
}
