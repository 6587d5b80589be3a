/** The playback state of `VelocityFieldVisualizer`
    (`wx/js/velocity-field-visualizer.js`): which time step is shown, the
    arrows drawn for it, and the play/stop/dispose flags. Rendering is left to
    THREE.js; an arrow is modelled by what it is built from. */
module VelocityVisualizer {
  import opened Wrappers
  import opened VelocityLoader

  type Point = (real, real, real)

  /** An `ArrowHelper`: its origin vertex, the velocity it points along (its
      direction is that velocity normalised), its length and its colour. */
  datatype Arrow = Arrow(origin: Point, velocity: Vector, size: real, color: int)

  /** The frame interval of the animation: `1000 / fps` with `fps = 10`. */
  const FrameInterval: real := 100.0

  function Min(a: int, b: int): int {
    if a <= b then a else b
  }

  function Max(a: int, b: int): int {
    if a >= b then a else b
  }

  /** JavaScript `a % b` on integers: the remainder takes the sign of `a`. */
  function JsRem(a: int, b: int): int
    requires b != 0
  {
    if a >= 0 then a % b else -((-a) % b)
  }

  /** `d % frameInterval` (JavaScript's remainder, of the sign of `d`). */
  function FrameRemainder(d: real): real {
    if d >= 0.0 then d - 100.0 * ((d / 100.0).Floor as real) else -(-d - 100.0 * ((-d / 100.0).Floor as real))
  }

  /** The `lastTime` a due frame at `time` records: `time - (deltaTime %
      frameInterval)`, the start of the current frame interval. */
  function FrameStart(time: real, last: real): real {
    time - FrameRemainder(time - last)
  }

  /** A due frame records a `lastTime` within one frame interval before
      `time`, so the next frame is due one interval later at the latest. */
  lemma FrameStartWithinInterval(time: real, last: real)
    requires time - last >= 0.0
    ensures time - FrameInterval < FrameStart(time, last) <= time
  {
    var d := time - last;
    var k := (d / 100.0).Floor;
    assert k as real <= d / 100.0 < k as real + 1.0;
    assert 100.0 * (k as real) <= d < 100.0 * (k as real) + 100.0;
  }

  /** `length < 1e-8` for `length = Math.sqrt(x*x + y*y + z*z)`, over the
      reals. A NaN coordinate makes the comparison false, so such a vector is
      drawn. */
  predicate Negligible(v: Vector) {
    && v.0.Some? && v.1.Some? && v.2.Some?
    && v.0.value * v.0.value + v.1.value * v.1.value + v.2.value * v.2.value < 0.0000000000000001
  }

  /** The arrows the drawing loop of `createArrows` builds from the first `n`
      velocities: one per velocity that is not negligible, at the vertex of
      the same index, in index order. */
  function ArrowsFor(velocities: seq<Vector>, vertices: seq<Point>, n: nat, size: real, color: int): seq<Arrow>
    requires n <= |velocities| && n <= |vertices|
  {
    if n == 0 then []
    else
      ArrowsFor(velocities, vertices, n - 1, size, color) + ArrowAt(velocities, vertices, n - 1, size, color)
  }

  /** The arrow of velocity `i`, or none when it is negligible. */
  function ArrowAt(velocities: seq<Vector>, vertices: seq<Point>, i: nat, size: real, color: int): seq<Arrow>
    requires i < |velocities| && i < |vertices|
  {
    if Negligible(velocities[i]) then [] else [Arrow(vertices[i], velocities[i], size, color)]
  }

  /** At most one arrow per velocity; each arrow is the arrow of one
      non-negligible velocity at the vertex of its index; and with no
      negligible velocity there is exactly one arrow per index. */
  lemma {:induction false} ArrowsForMeaning(velocities: seq<Vector>, vertices: seq<Point>, n: nat, size: real, color: int)
    requires n <= |velocities| && n <= |vertices|
    ensures |ArrowsFor(velocities, vertices, n, size, color)| <= n
    ensures forall a :: a in ArrowsFor(velocities, vertices, n, size, color) ==>
              exists i :: 0 <= i < n && !Negligible(velocities[i]) && a == Arrow(vertices[i], velocities[i], size, color)
    ensures (forall i :: 0 <= i < n ==> !Negligible(velocities[i])) ==>
              ArrowsFor(velocities, vertices, n, size, color) == seq(n, i requires 0 <= i < n => Arrow(vertices[i], velocities[i], size, color))
  {
    if n > 0 {
      ArrowsForMeaning(velocities, vertices, n - 1, size, color);
    }
  }

  /** The indices below `n` whose velocity is drawn, in increasing order. */
  function DrawnIndices(velocities: seq<Vector>, n: nat): (r: seq<nat>)
    requires n <= |velocities|
    ensures forall k :: 0 <= k < |r| ==> r[k] < n && !Negligible(velocities[r[k]])
    ensures forall k, l :: 0 <= k < l < |r| ==> r[k] < r[l]
    ensures forall i :: 0 <= i < n && !Negligible(velocities[i]) ==> i in r
  {
    if n == 0 then []
    else DrawnIndices(velocities, n - 1) + (if Negligible(velocities[n - 1]) then [] else [n - 1])
  }

  /** The `k`-th arrow is that of the `k`-th drawn index: every
      non-negligible velocity below `n` gets its arrow, in index order. */
  lemma {:induction false} ArrowsInIndexOrder(velocities: seq<Vector>, vertices: seq<Point>, n: nat, size: real, color: int)
    requires n <= |velocities| && n <= |vertices|
    ensures |ArrowsFor(velocities, vertices, n, size, color)| == |DrawnIndices(velocities, n)|
    ensures forall k :: 0 <= k < |DrawnIndices(velocities, n)| ==>
              ArrowsFor(velocities, vertices, n, size, color)[k]
              == Arrow(vertices[DrawnIndices(velocities, n)[k]], velocities[DrawnIndices(velocities, n)[k]], size, color)
  {
    if n > 0 {
      ArrowsInIndexOrder(velocities, vertices, n - 1, size, color);
    }
  }

  /** The drawing loop of `createArrows`: it stops at the last velocity or
      the last vertex, whichever comes first, skips negligible velocities,
      and adds each arrow to the scene as it is built. */
  method DrawArrows(velocities: seq<Vector>, vertices: seq<Point>, size: real, color: int, scene: multiset<Arrow>)
    returns (arrows: seq<Arrow>, scene': multiset<Arrow>)
    ensures arrows == ArrowsFor(velocities, vertices, Min(|velocities|, |vertices|), size, color)
    ensures scene' == scene + multiset(arrows)
  {
    arrows, scene' := [], scene;
    var i := 0;
    while i < |velocities|
      invariant 0 <= i <= |velocities| && i <= |vertices|
      invariant arrows == ArrowsFor(velocities, vertices, i, size, color)
      invariant scene' == scene + multiset(arrows)
      invariant i < |velocities| || i == Min(|velocities|, |vertices|)
    {
      if i >= |vertices| {
        break;
      }
      var drawn := ArrowAt(velocities, vertices, i, size, color);
      DrawStep(arrows, drawn, scene);
      scene' := scene' + multiset(drawn);
      arrows := arrows + drawn;
      i := i + 1;
    }
  }

  lemma DrawStep(arrows: seq<Arrow>, drawn: seq<Arrow>, scene: multiset<Arrow>)
    ensures scene + multiset(arrows + drawn) == (scene + multiset(arrows)) + multiset(drawn)
  {
  }

  /** The removal loop of `clearArrows`: each arrow of the list is removed
      from the scene, one at a time. */
  method RemoveArrows(scene: multiset<Arrow>, arrows: seq<Arrow>) returns (scene': multiset<Arrow>)
    ensures scene' == scene - multiset(arrows)
  {
    scene' := scene;
    var i := 0;
    while i < |arrows|
      invariant 0 <= i <= |arrows|
      invariant scene' == scene - multiset(arrows[..i])
    {
      RemoveStep(scene, arrows, i);
      scene' := scene' - multiset{arrows[i]};
      i := i + 1;
    }
    assert arrows[..i] == arrows;
  }

  lemma RemoveStep(scene: multiset<Arrow>, arrows: seq<Arrow>, i: nat)
    requires i < |arrows|
    ensures scene - multiset(arrows[..i + 1]) == (scene - multiset(arrows[..i])) - multiset{arrows[i]}
  {
    assert arrows[..i + 1] == arrows[..i] + [arrows[i]];
  }

  /** What `createArrows(timeStep)` leaves: nothing changes without a field
      or a surface; otherwise the old arrows are cleared, the step is clamped
      to the last one, and the arrows of that step are drawn. A step outside
      the field (no steps at all, or a negative request) reads `undefined`
      and throws once the arrows are cleared. */
  predicate Created(field: Option<seq<seq<Vector>>>, surface: Option<seq<Point>>, totalSteps: int, size: real, color: int,
                    timeStep: int, before: seq<Arrow>, sceneBefore: multiset<Arrow>,
                    thrown: bool, arrows: seq<Arrow>, scene: multiset<Arrow>)
  {
    if field.None? || surface.None? then
      !thrown && arrows == before && scene == sceneBefore
    else
      var step := Min(timeStep, totalSteps - 1);
      var cleared := sceneBefore - multiset(before);
      if !(0 <= step < |field.value|) then
        thrown && arrows == [] && scene == cleared
      else
        var velocities := field.value[step];
        && !thrown
        && arrows == ArrowsFor(velocities, surface.value, Min(|velocities|, |surface.value|), size, color)
        && scene == cleared + multiset(arrows)
  }

  /** The body of `createArrows` on the visualizer's fields. */
  method CreateArrowsOn(field: Option<seq<seq<Vector>>>, surface: Option<seq<Point>>, totalSteps: int, size: real, color: int,
                        timeStep: int, before: seq<Arrow>, sceneBefore: multiset<Arrow>)
    returns (thrown: bool, arrows: seq<Arrow>, scene: multiset<Arrow>)
    ensures Created(field, surface, totalSteps, size, color, timeStep, before, sceneBefore, thrown, arrows, scene)
  {
    if field.None? || surface.None? {
      return false, before, sceneBefore;
    }
    // `clearArrows()`
    var cleared := RemoveArrows(sceneBefore, before);
    var step := Min(timeStep, totalSteps - 1);
    if !(0 <= step < |field.value|) {
      return true, [], cleared;
    }
    arrows, scene := DrawArrows(field.value[step], surface.value, size, color, cleared);
    thrown := false;
  }

  /** `(currentStep + 1) % totalSteps`. With no steps JavaScript computes
      NaN; the model keeps the step. */
  function NextStep(c: int, n: int): int {
    if n != 0 then JsRem(c + 1, n) else c
  }

  /** The step after `c` of `n` steps is the next one, the last wrapping to
      0, so playback stays within the field. */
  lemma AdvanceWraps(c: int, n: int)
    requires 0 <= c < n
    ensures NextStep(c, n) == (if c == n - 1 then 0 else c + 1)
    ensures 0 <= NextStep(c, n) < n
  {
  }

  class VelocityFieldVisualizer {
    /** The vertices the traversal of the surface's meshes collects, or `None`
        without a surface. */
    const surface: Option<seq<Point>>

    /** The arrows currently in the THREE.js scene. */
    var scene: multiset<Arrow>
    var arrows: seq<Arrow>
    var velocityField: Option<seq<seq<Vector>>>
    var currentStep: int
    var totalSteps: int
    var animationId: Option<int>
    var isPlaying: bool
    var arrowSize: real
    var arrowColor: int
    /** The `lastTime` of the animation closure `play` creates. */
    var lastTime: real

    constructor (scene: multiset<Arrow>, surface: Option<seq<Point>>)
      ensures this.scene == scene && this.surface == surface
      ensures arrows == [] && velocityField.None? && currentStep == 0 && totalSteps == 0
      ensures animationId.None? && !isPlaying && arrowSize == 1.0 && arrowColor == 0
    {
      this.scene, this.surface := scene, surface;
      arrows, velocityField, currentStep, totalSteps := [], None, 0, 0;
      animationId, isPlaying, arrowSize, arrowColor := None, false, 1.0, 0;
      lastTime := 0.0;
    }

    /** `setVelocityField(field)`: the field and its number of time steps. */
    method SetVelocityField(field: seq<seq<Vector>>)
      modifies this`velocityField, this`totalSteps
      ensures velocityField == Some(field) && totalSteps == |field|
    {
      velocityField := Some(field);
      totalSteps := |field|;
    }

    /** `clearArrows()`: every arrow is removed from the scene and the list
        emptied. */
    method ClearArrows()
      modifies this`arrows, this`scene
      ensures arrows == [] && scene == old(scene) - multiset(old(arrows))
    {
      scene := RemoveArrows(scene, arrows);
      arrows := [];
    }

    /** What `createArrows(timeStep)` leaves, as `Created` states it of the
        fields. */
    predicate ArrowsCreated(timeStep: int, thrown: bool, before: seq<Arrow>, sceneBefore: multiset<Arrow>)
      reads this`velocityField, this`totalSteps, this`arrowSize, this`arrowColor, this`arrows, this`scene
    {
      Created(velocityField, surface, totalSteps, arrowSize, arrowColor, timeStep, before, sceneBefore, thrown, arrows, scene)
    }

    method CreateArrows(timeStep: int) returns (thrown: bool)
      modifies this`arrows, this`scene
      ensures ArrowsCreated(timeStep, thrown, old(arrows), old(scene))
    {
      thrown, arrows, scene := CreateArrowsOn(velocityField, surface, totalSteps, arrowSize, arrowColor, timeStep, arrows, scene);
    }

    /** `setTimeStep(step)`: the step clamped to `[0, totalSteps - 1]` (to 0
        when there are no steps), then redrawn. */
    method SetTimeStep(step: int) returns (thrown: bool)
      modifies this`currentStep, this`arrows, this`scene
      ensures currentStep == Max(0, Min(step, totalSteps - 1))
      ensures totalSteps >= 1 ==> 0 <= currentStep < totalSteps
      ensures ArrowsCreated(currentStep, thrown, old(arrows), old(scene))
    {
      currentStep := Max(0, Min(step, totalSteps - 1));
      thrown := CreateArrows(currentStep);
    }

    /** `setArrowSize(size)`: the new length, then a redraw. */
    method SetArrowSize(size: real) returns (thrown: bool)
      modifies this`arrowSize, this`arrows, this`scene
      ensures arrowSize == size && ArrowsCreated(currentStep, thrown, old(arrows), old(scene))
    {
      arrowSize := size;
      thrown := CreateArrows(currentStep);
    }

    /** `setArrowColor(color)`: the new colour, then a redraw. */
    method SetArrowColor(color: int) returns (thrown: bool)
      modifies this`arrowColor, this`arrows, this`scene
      ensures arrowColor == color && ArrowsCreated(currentStep, thrown, old(arrows), old(scene))
    {
      arrowColor := color;
      thrown := CreateArrows(currentStep);
    }

    /** `play()`: a no-op while playing; otherwise it starts playing with a
        fresh `lastTime` and requests the first frame, `frameId` being what
        `requestAnimationFrame` answers. */
    method Play(frameId: int)
      modifies this`isPlaying, this`animationId, this`lastTime
      ensures old(isPlaying) ==> isPlaying && animationId == old(animationId) && lastTime == old(lastTime)
      ensures !old(isPlaying) ==> isPlaying && animationId == Some(frameId) && lastTime == 0.0
    {
      if isPlaying {
        return;
      }
      isPlaying := true;
      lastTime := 0.0;
      animationId := Some(frameId);
    }

    /** One call of the animation callback at `time`: it requests the next
        frame, and once more than a frame interval has passed it advances the
        step and redraws. */
    method AnimationFrame(time: real, frameId: int) returns (thrown: bool)
      modifies this`animationId, this`lastTime, this`currentStep, this`arrows, this`scene
      ensures animationId == Some(frameId)
      ensures time - old(lastTime) <= FrameInterval ==>
                && lastTime == old(lastTime) && currentStep == old(currentStep)
                && arrows == old(arrows) && scene == old(scene) && !thrown
      ensures time - old(lastTime) > FrameInterval ==>
                && lastTime == FrameStart(time, old(lastTime))
                && currentStep == NextStep(old(currentStep), totalSteps)
                && ArrowsCreated(currentStep, thrown, old(arrows), old(scene))
    {
      animationId := Some(frameId);
      var due := Advance(time);
      if !due {
        return false;
      }
      thrown := CreateArrows(currentStep);
    }

    /** The timing part of the callback: whether a frame is due, and if so
        the new `lastTime` and the next step. */
    method Advance(time: real) returns (due: bool)
      modifies this`lastTime, this`currentStep
      ensures due <==> time - old(lastTime) > FrameInterval
      ensures !due ==> lastTime == old(lastTime) && currentStep == old(currentStep)
      ensures due ==> lastTime == FrameStart(time, old(lastTime))
                      && currentStep == NextStep(old(currentStep), totalSteps)
    {
      var deltaTime := time - lastTime;
      if deltaTime <= FrameInterval {
        return false;
      }
      lastTime := FrameStart(time, lastTime);
      currentStep := NextStep(currentStep, totalSteps);
      due := true;
    }

    /** `stop()`: a truthy animation id is cancelled and cleared; playing
        stops in any case. */
    method Stop()
      modifies this`animationId, this`isPlaying
      ensures !isPlaying
      ensures animationId == (if old(animationId).Some? && old(animationId).value != 0 then None else old(animationId))
      ensures animationId.None? || animationId == Some(0)
    {
      if animationId.Some? && animationId.value != 0 {
        animationId := None;
      }
      isPlaying := false;
    }

    /** `dispose()`: stopped, no arrows, no field. */
    method Dispose()
      modifies this`animationId, this`isPlaying, this`arrows, this`scene, this`velocityField
      ensures !isPlaying && (animationId.None? || animationId == Some(0))
      ensures arrows == [] && scene == old(scene) - multiset(old(arrows)) && velocityField.None?
    {
      Stop();
      ClearArrows();
      velocityField := None;
    }
  }
}
