/** The input handlers that move the camera: drag to pan, scroll to zoom with a
    debounced redraw. */
module Interaction {
  import opened Commands
  import opened Transform
  import opened Recorder

  /** Smallest zoom a scroll can leave. */
  const ScaleMin: real := 0.1
  /** Scroll distance per unit of zoom. */
  const ZoomSensitivity: real := 5.0
  /** A scroll redraws once the accumulated distance exceeds this. */
  const RedrawThreshold: nat := 5

  function Abs(n: int): nat
  {
    if n < 0 then -n else n
  }

  function Max(a: real, b: real): real
  {
    if a < b then b else a
  }

  /** The new offset along one axis after a drag from `press` to `release`
      (screen units) at zoom `scale`. */
  function Pan(offset: real, press: real, release: real, scale: real): real
    requires scale != 0.0
  {
    offset - (release - press) / scale
  }

  /** Dragging back restores the offset. */
  lemma PanRoundTrip(offset: real, press: real, release: real, scale: real)
    requires scale != 0.0
    ensures Pan(Pan(offset, press, release, scale), release, press, scale) == offset
  {
  }

  /** A drag moves every world point on screen by exactly the drag vector: the
      picture follows the pointer. */
  lemma PanFollowsPointer(world: real, offset: real, press: real, release: real, scale: real)
    requires scale != 0.0
    ensures ToScreen(world, Pan(offset, press, release, scale), scale)
         == ToScreen(world, offset, scale) + (release - press)
  {
  }

  /** Dragging and dragging back reproduces the calls of the original picture. */
  lemma PanRoundTripRedraws(records: seq<Record>, x: real, y: real, press: (real, real), release: (real, real), scale: real)
    requires scale != 0.0
    ensures Pass(records, Pan(Pan(x, press.0, release.0, scale), release.0, press.0, scale),
                 Pan(Pan(y, press.1, release.1, scale), release.1, press.1, scale), scale)
         == Pass(records, x, y, scale)
  {
    PanRoundTrip(x, press.0, release.0, scale);
    PanRoundTrip(y, press.1, release.1, scale);
  }

  /** Zoom state a scroll acts on. */
  datatype Zoom = Zoom(scale: real, redraw: nat)

  /** One scroll tick of `delta`: the new zoom state and whether it redraws. */
  function Scroll(z: Zoom, delta: int): (r: (Zoom, bool))
    ensures r.0.scale >= ScaleMin
    ensures r.0.scale == ScaleMin || r.0.scale == z.scale - delta as real / ZoomSensitivity
    ensures r.0.scale >= z.scale - delta as real / ZoomSensitivity
    ensures r.1 <==> z.redraw + Abs(delta) > RedrawThreshold
    ensures r.0.redraw == if r.1 then 0 else z.redraw + Abs(delta)
  {
    var pending := z.redraw + Abs(delta);
    var scale := Max(ScaleMin, z.scale - delta as real / ZoomSensitivity);
    if pending > RedrawThreshold then (Zoom(scale, 0), true) else (Zoom(scale, pending), false)
  }

  /** A run of scroll ticks: the final zoom state and how many redraws fired. */
  function ScrollAll(z: Zoom, deltas: seq<int>): (Zoom, nat)
    decreases |deltas|
  {
    if deltas == [] then (z, 0)
    else
      var step := Scroll(z, deltas[0]);
      var rest := ScrollAll(step.0, deltas[1..]);
      (rest.0, rest.1 + if step.1 then 1 else 0)
  }

  /** Total scroll distance of a run of ticks. */
  function TotalDistance(deltas: seq<int>): nat
  {
    if deltas == [] then 0 else Abs(deltas[0]) + TotalDistance(deltas[1..])
  }

  /** However far and in whichever direction one scrolls, the zoom ends at or
      above the minimum. */
  lemma {:induction false} ScrollAllKeepsScaleMin(z: Zoom, deltas: seq<int>)
    requires deltas != [] || z.scale >= ScaleMin
    ensures ScrollAll(z, deltas).0.scale >= ScaleMin
    decreases |deltas|
  {
    if deltas != [] {
      ScrollAllKeepsScaleMin(Scroll(z, deltas[0]).0, deltas[1..]);
    }
  }

  /** Debouncing: every redraw consumes more than the threshold of scroll
      distance, so a run of ticks redraws at most once per
      RedrawThreshold + 1 units of distance. */
  lemma {:induction false} ScrollAllDebounces(z: Zoom, deltas: seq<int>)
    ensures (RedrawThreshold + 1) * ScrollAll(z, deltas).1 + ScrollAll(z, deltas).0.redraw
            <= z.redraw + TotalDistance(deltas)
    decreases |deltas|
  {
    if deltas != [] {
      ScrollAllDebounces(Scroll(z, deltas[0]).0, deltas[1..]);
    }
  }

  /** A run of ticks whose total distance stays within the threshold never
      redraws. */
  lemma QuietScrollNeverRedraws(z: Zoom, deltas: seq<int>)
    requires z.redraw + TotalDistance(deltas) <= RedrawThreshold
    ensures ScrollAll(z, deltas).1 == 0
  {
    ScrollAllDebounces(z, deltas);
  }

  class MouseEventHandler {
    const camera: Camera
    /** Where the last button press happened, if any. */
    var mouseDownPos: Option<(real, real)>

    constructor (camera: Camera)
      ensures this.camera == camera && mouseDownPos == None
    {
      this.camera := camera;
      mouseDownPos := None;
    }

    /** Remembers the press position. */
    method OnMouseDown(px: real, py: real)
      modifies this`mouseDownPos
      ensures mouseDownPos == Some((px, py))
    {
      mouseDownPos := Some((px, py));
    }

    /** A button release at (ux, uy): with a press on record, pans the camera by
        the drag and redraws; without one, does nothing. The press is kept. */
    method OnMouseUp(ux: real, uy: real)
      requires camera.Valid()
      requires mouseDownPos.Some? ==> camera.scale != 0.0
      modifies camera`x, camera`y, camera`currentId, camera`executionIds, camera`output
      ensures camera.Valid() && camera.executionIds == old(camera.executionIds)
      ensures mouseDownPos.None? ==>
        camera.x == old(camera.x) && camera.y == old(camera.y)
        && camera.currentId == old(camera.currentId) && camera.output == old(camera.output)
      ensures mouseDownPos.Some? ==>
        camera.x == Pan(old(camera.x), mouseDownPos.value.0, ux, camera.scale)
        && camera.y == Pan(old(camera.y), mouseDownPos.value.1, uy, camera.scale)
        && camera.currentId == old(camera.currentId) + 1
        && camera.output == old(camera.output) + Pass(camera.objects, camera.x, camera.y, camera.scale)
    {
      if mouseDownPos.Some? {
        var (dx, dy) := mouseDownPos.value;
        var xDiff := (ux - dx) / camera.scale;
        var yDiff := (uy - dy) / camera.scale;
        camera.x := camera.x - xDiff;
        camera.y := camera.y - yDiff;
        camera.Draw();
      }
    }

    /** A scroll tick of `delta`: zooms, clamps the zoom at ScaleMin, and
        redraws once the accumulated scroll distance exceeds the threshold. */
    method OnScroll(delta: int)
      requires camera.Valid()
      modifies camera`scale, camera`redraw, camera`currentId, camera`executionIds, camera`output
      ensures camera.Valid() && camera.executionIds == old(camera.executionIds)
      ensures camera.scale == Scroll(Zoom(old(camera.scale), old(camera.redraw)), delta).0.scale
      ensures camera.redraw == Scroll(Zoom(old(camera.scale), old(camera.redraw)), delta).0.redraw
      ensures Scroll(Zoom(old(camera.scale), old(camera.redraw)), delta).1 ==>
        camera.currentId == old(camera.currentId) + 1
        && camera.output == old(camera.output) + Pass(camera.objects, camera.x, camera.y, camera.scale)
      ensures !Scroll(Zoom(old(camera.scale), old(camera.redraw)), delta).1 ==>
        camera.currentId == old(camera.currentId) && camera.output == old(camera.output)
    {
      camera.redraw := camera.redraw + Abs(delta);
      camera.scale := camera.scale - delta as real / ZoomSensitivity;
      camera.scale := Max(ScaleMin, camera.scale);
      if camera.redraw > RedrawThreshold {
        camera.redraw := 0;
        camera.Draw();
      }
    }
  }
}
