/**
 * Floating origin. Once per frame, before any other frame callback, the
 * camera is re-centred on the local origin whenever it has drifted more than
 * `RebaseThreshold` away from it. The offset that is removed from the camera
 * is accumulated into the world origin and taken off the content group and
 * the orbit target, so that every true position (local + world origin) is
 * left as it was.
 */
module CameraRelativeGroup {
  import opened Vector3
  import opened Wrappers

  /** Kilometres; the camera is re-centred when it is farther than this. */
  const RebaseThreshold: real := 1000.0

  /** `length(p) > RebaseThreshold`, compared on squares so that no root is needed. */
  predicate BeyondThreshold(p: Vec3)
  {
    LengthSq(p) > RebaseThreshold * RebaseThreshold
  }

  /**
   * The four vectors one rebase step acts on, as values: the accumulated
   * world origin, the content group's local position, the camera's local
   * position and, when the controls expose one, the orbit target.
   */
  datatype FrameState = FrameState(origin: Vec3, group: Vec3, camera: Vec3, target: Option<Vec3>)

  /** Where the content group really is. */
  function TrueGroup(s: FrameState): Vec3
  {
    Add(s.group, s.origin)
  }

  /** Where the camera really is. */
  function TrueCamera(s: FrameState): Vec3
  {
    Add(s.camera, s.origin)
  }

  /** Where the orbit target really is, if there is one. */
  function TrueTarget(s: FrameState): Option<Vec3>
  {
    if s.target.Some? then Some(Add(s.target.value, s.origin)) else None
  }

  /**
   * One rebase check. Below the threshold nothing moves; beyond it the camera
   * ends at the local origin and the shift is folded into the world origin.
   * Either way no true position changes and the camera ends within the
   * threshold.
   */
  function Rebase(s: FrameState): (r: FrameState)
    ensures !BeyondThreshold(s.camera) ==> r == s
    ensures BeyondThreshold(s.camera) ==> r.camera == Zero && r.origin == Add(s.origin, s.camera)
    ensures TrueGroup(r) == TrueGroup(s)
    ensures TrueCamera(r) == TrueCamera(s)
    ensures TrueTarget(r) == TrueTarget(s)
    ensures !BeyondThreshold(r.camera)
  {
    if BeyondThreshold(s.camera) then
      var shift := s.camera;
      FrameState(
        Add(s.origin, shift),
        Sub(s.group, shift),
        Zero,
        if s.target.Some? then Some(Sub(s.target.value, shift)) else None)
    else
      s
  }

  /** A second check straight after a rebase finds the camera at the origin and does nothing. */
  lemma RebaseIdempotent(s: FrameState)
    ensures Rebase(Rebase(s)) == Rebase(s)
  {
  }

  /**
   * A session of frames: before frame `k` the camera (moved by the user
   * through the controls) stands at local position `moves[k]`, then the
   * rebase check runs.
   */
  function RunFrames(s: FrameState, moves: seq<Vec3>): FrameState
    decreases moves
  {
    if moves == [] then s
    else RunFrames(Rebase(s.(camera := moves[0])), moves[1..])
  }

  /**
   * The group starts at the local origin and the world origin at zero, so
   * the group's position stays the negation of the world origin for the
   * whole session, and the camera ends every frame within the threshold.
   */
  lemma {:induction false} RunFramesKeepsGroupAtNegatedOrigin(s: FrameState, moves: seq<Vec3>)
    requires s.group == Neg(s.origin)
    requires !BeyondThreshold(s.camera)
    ensures RunFrames(s, moves).group == Neg(RunFrames(s, moves).origin)
    ensures !BeyondThreshold(RunFrames(s, moves).camera)
    decreases moves
  {
    if moves != [] {
      var next := Rebase(s.(camera := moves[0]));
      assert TrueGroup(next) == TrueGroup(s.(camera := moves[0]));
      RunFramesKeepsGroupAtNegatedOrigin(next, moves[1..]);
    }
  }

  /** The scene camera; only its position matters here. */
  class Camera {
    var position: Vec3

    constructor (position: Vec3)
      ensures this.position == position
    {
      this.position := position;
    }
  }

  /** Orbit-style controls that expose a mutable look-at target. */
  class OrbitControls {
    var target: Vec3

    constructor (target: Vec3)
      ensures this.target == target
    {
      this.target := target;
    }
  }

  /** The floating group: its accumulated world origin and its content group. */
  class FloatingOrigin {
    var worldOrigin: Vec3
    /** False until the group node is attached to the scene (a null ref). */
    var groupMounted: bool
    var groupPosition: Vec3

    /** A fresh floating group: zero world origin, the group not yet attached. */
    constructor ()
      ensures worldOrigin == Zero && groupPosition == Zero && !groupMounted
    {
      worldOrigin := Zero;
      groupMounted := false;
      groupPosition := Zero;
    }

    /** The scene graph attaches the group node. */
    method Attach()
      modifies this`groupMounted
      ensures groupMounted
    {
      groupMounted := true;
    }

    /** The state the frame step acts on; `controls == null` stands for controls without a target. */
    function State(camera: Camera, controls: OrbitControls?): FrameState
      reads this, camera, controls
    {
      FrameState(worldOrigin, groupPosition, camera.position,
                 if controls == null then None else Some(controls.target))
    }

    /** The accumulated offset, read without changing anything. */
    method GetWorldOrigin() returns (origin: Vec3)
      ensures origin == worldOrigin
    {
      origin := worldOrigin;
    }

    /**
     * The frame callback. Without an attached group it does nothing;
     * otherwise it performs `Rebase` on the world origin, the group, the
     * camera and the controls' target, and touches nothing else.
     */
    method OnFrame(camera: Camera, controls: OrbitControls?)
      modifies this`worldOrigin, this`groupPosition, camera, controls
      ensures groupMounted == old(groupMounted)
      ensures !groupMounted ==> State(camera, controls) == old(State(camera, controls))
      ensures groupMounted ==> State(camera, controls) == Rebase(old(State(camera, controls)))
    {
      if !groupMounted {
        return;
      }
      if LengthSq(camera.position) > RebaseThreshold * RebaseThreshold {
        var shift := camera.position;
        worldOrigin := Add(worldOrigin, shift);
        groupPosition := Sub(groupPosition, shift);
        camera.position := Zero;
        if controls != null {
          controls.target := Sub(controls.target, shift);
        }
      }
    }
  }
}
