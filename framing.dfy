/**
 * Framing: the pose `setupModel` gives the model and the camera, as a pure
 * function of the model's bounding size, its bounding centre and the
 * window width; and `getContainerSize`, which measures the rendering surface.
 */
module Framing {
  import opened Wrappers
  import opened Units

  datatype Vec3 = Vec3(x: real, y: real, z: real)

  /** What `setupModel` assigns: `model.position`, `model.rotation.z` and
      `camera.position` (the camera then looks at the origin). */
  datatype Pose = Pose(modelPosition: Vec3, modelTilt: real, cameraPosition: Vec3)

  /** Windows narrower than this are framed for mobile. */
  const MobileBreakpoint: int := 1000

  predicate IsMobile(windowWidth: int)
  {
    windowWidth < MobileBreakpoint
  }

  /** `Math.max(size.x, size.y, size.z)` */
  function MaxExtent(size: Vec3): (m: real)
    ensures m >= size.x && m >= size.y && m >= size.z
    ensures m == size.x || m == size.y || m == size.z
  {
    if size.x >= size.y && size.x >= size.z then size.x
    else if size.y >= size.z then size.y
    else size.z
  }

  /** How far back the camera stands, in multiples of the largest extent. */
  function CameraDistance(windowWidth: int): real
  {
    if IsMobile(windowWidth) then 2.2 else 1.45
  }

  /** The pose `setupModel` computes for a model of bounding `size` whose
      bounding box is centred at `center`. */
  function FramePose(size: Vec3, center: Vec3, windowWidth: int): (f: Pose)
    // vertical and depth centring do not depend on the viewport class
    ensures f.modelPosition.y == -center.y + size.y * 0.085
    ensures f.modelPosition.z == -center.z
    ensures f.cameraPosition.y == 0.0
    // mobile: no side offset, no tilt, camera on the axis, 2.2 extents back
    ensures IsMobile(windowWidth) ==>
              f.modelPosition.x == center.x && f.modelTilt == 0.0 &&
              f.cameraPosition.x == 0.0 && f.cameraPosition.z == MaxExtent(size) * 2.2
    // desktop: shifted by 0.45 of the width, tilted 25 degrees, camera
    // 0.18 of the width to the side and 1.45 extents back
    ensures !IsMobile(windowWidth) ==>
              f.modelPosition.x == center.x + size.x * 0.45 && f.modelTilt == DegToRad(25.0) &&
              f.cameraPosition.x == size.x * 0.18 && f.cameraPosition.z == MaxExtent(size) * 1.45
  {
    var isMobile := IsMobile(windowWidth);
    var horizontalOffset := if isMobile then 0.0 else size.x * 0.45;
    var position := Vec3(center.x + horizontalOffset, -center.y + size.y * 0.085, -center.z);
    var tilt := if isMobile then 0.0 else DegToRad(25.0);
    var camera := Vec3(if isMobile then 0.0 else size.x * 0.18, 0.0,
                       MaxExtent(size) * CameraDistance(windowWidth));
    Pose(position, tilt, camera)
  }

  /** The pose depends on the window width only through its class: two
      widths on the same side of the breakpoint frame a model identically. */
  lemma FramingDependsOnlyOnViewportClass(size: Vec3, center: Vec3, w1: int, w2: int)
    requires IsMobile(w1) == IsMobile(w2)
    ensures FramePose(size, center, w1) == FramePose(size, center, w2)
  {
  }

  /** A model of positive extent is always in front of the camera, and every
      extent fits within the camera's depth. */
  lemma CameraStandsBack(size: Vec3, center: Vec3, windowWidth: int)
    requires size.x > 0.0 || size.y > 0.0 || size.z > 0.0
    ensures FramePose(size, center, windowWidth).cameraPosition.z > 0.0
    ensures FramePose(size, center, windowWidth).cameraPosition.z >= size.x
    ensures FramePose(size, center, windowWidth).cameraPosition.z >= size.y
    ensures FramePose(size, center, windowWidth).cameraPosition.z >= size.z
  {
  }

  /** A window shrinking from 1200 to 800 pixels removes the tilt and the
      side offset, and pulls the camera back onto the axis and further away. */
  lemma DesktopToMobile(size: Vec3, center: Vec3)
    requires MaxExtent(size) > 0.0
    ensures FramePose(size, center, 1200).modelTilt > 0.0
    ensures FramePose(size, center, 800).modelTilt == 0.0
    ensures FramePose(size, center, 800).modelPosition.x == center.x
    ensures FramePose(size, center, 800).cameraPosition.x == 0.0
    ensures FramePose(size, center, 800).cameraPosition.z > FramePose(size, center, 1200).cameraPosition.z
  {
  }

  /** Width and height of the rendering surface, in CSS pixels. */
  datatype Size2 = Size2(width: nat, height: nat)

  /** `container?.clientX || window.innerX`: the container's dimension, unless
      the container is missing or that dimension is 0. */
  function FallbackDimension(containerValue: Option<nat>, windowValue: nat): (r: nat)
    ensures r == windowValue || (containerValue.Some? && r == containerValue.value)
    ensures containerValue.Some? && containerValue.value != 0 ==> r == containerValue.value
    ensures containerValue == None || containerValue == Some(0) ==> r == windowValue
    ensures r == 0 ==> windowValue == 0
  {
    match containerValue
    case Some(v) => if v != 0 then v else windowValue
    case None => windowValue
  }

  /** `getContainerSize`: each dimension falls back on the window on its own. */
  function ContainerSize(container: Option<Size2>, window: Size2): (s: Size2)
    ensures window.width > 0 ==> s.width > 0
    ensures window.height > 0 ==> s.height > 0
    ensures container.None? ==> s == window
    ensures container.Some? && container.value.width > 0 ==> s.width == container.value.width
    ensures container.Some? && container.value.height > 0 ==> s.height == container.value.height
    ensures container.Some? && container.value.width == 0 ==> s.width == window.width
    ensures container.Some? && container.value.height == 0 ==> s.height == window.height
  {
    var w := if container.Some? then Some(container.value.width) else None;
    var h := if container.Some? then Some(container.value.height) else None;
    Size2(FallbackDimension(w, window.width), FallbackDimension(h, window.height))
  }

  /** A container that has laid out a width but no height yet is measured as
      its own width by the window's height. */
  lemma ContainerFallsBackPerDimension(cw: nat, window: Size2)
    requires cw > 0
    ensures ContainerSize(Some(Size2(cw, 0)), window) == Size2(cw, window.height)
  {
  }
}
