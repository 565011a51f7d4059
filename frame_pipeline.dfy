/**
 * The order of the two frame callbacks. The rebase check is registered at
 * priority -100 and so runs before the level-of-detail callback (default
 * priority 0) in every frame; the level of detail therefore always reads a
 * camera position and a world origin that belong together.
 */
module FramePipeline {
  import opened Vector3
  import opened CameraRelativeGroup
  import opened RingLod

  /**
   * One rendered frame: rebase first, then choose the level of detail. A
   * rebase in this frame does not disturb the level of detail: the distance
   * it sees is the one of the camera's true position before the frame.
   */
  method RenderFrame(
    floating: FloatingOrigin, camera: Camera, controls: OrbitControls?,
    lod: LodSelector, altitude: real, sqrt: real -> real)
    returns (changed: bool)
    modifies floating`worldOrigin, floating`groupPosition, camera, controls, lod
    ensures floating.groupMounted == old(floating.groupMounted)
    ensures floating.groupMounted ==>
      floating.State(camera, controls) == Rebase(old(floating.State(camera, controls)))
    ensures !floating.groupMounted ==>
      floating.State(camera, controls) == old(floating.State(camera, controls))
    ensures lod.lodLevel == ComputeLodLevel(
      DistanceToRing(old(Add(camera.position, floating.worldOrigin)), RingRadius(altitude), sqrt),
      old(lod.lodLevel))
    ensures changed <==> lod.lodLevel != old(lod.lodLevel)
  {
    floating.OnFrame(camera, controls);
    var origin := floating.GetWorldOrigin();
    changed := lod.OnFrame(camera.position, origin, altitude, sqrt);
  }
}
