/** The rotary dial used by the radionics and healing panels: a vertical
    drag changes the value by one step for every five pixels, clamped to
    [min, max], and the indicator turns through a 270-degree arc. Values and
    coordinates are JavaScript numbers, modelled as reals. */
module Dial {
  import opened Common

  const DefaultMin: real := 0.0
  const DefaultMax: real := 100.0
  const DefaultStep: real := 1.0

  /** Pixels of vertical movement per step. */
  const Sensitivity: real := 5.0

  /** `Math.max(min, Math.min(max, v))`. */
  function Clamp(v: real, min: real, max: real): (r: real)
    ensures min <= max ==> min <= r <= max
    ensures min <= v <= max ==> r == v
    ensures v < min ==> r == min
    ensures min <= max && max < v ==> r == max
  {
    MaxReal(min, MinReal(max, v))
  }

  /** The value `onDrag` emits for pointer height `clientY` when the drag
      began at `initialCoord` with value `initialValue`: one step per five
      pixels moved upward, rounded as `Math.round` does, then clamped. */
  function DragValue(initialCoord: real, initialValue: real, clientY: real, min: real, max: real, step: real): (r: real)
    ensures min <= max ==> min <= r <= max
  {
    Clamp(initialValue + Round((initialCoord - clientY) / Sensitivity) as real * step, min, max)
  }

  /** Releasing the pointer where the drag began gives back the starting
      value, when that value lies within the range. */
  lemma NoMoveNoChange(initialCoord: real, initialValue: real, min: real, max: real, step: real)
    requires min <= initialValue <= max
    ensures DragValue(initialCoord, initialValue, initialCoord, min, max, step) == initialValue
  {
    assert Round(0.0 / Sensitivity) == 0;
  }

  /** `Math.round` never decreases as its argument grows. */
  lemma RoundMonotone(a: real, b: real)
    requires a <= b
    ensures Round(a) <= Round(b)
  {
    assert (a + 0.5).Floor <= (b + 0.5).Floor;
  }

  /** Clamping never reverses an order. */
  lemma ClampMonotone(u: real, v: real, min: real, max: real)
    requires u <= v
    ensures Clamp(u, min, max) <= Clamp(v, min, max)
  {
  }

  /** With a non-negative step, moving the pointer higher (a smaller
      `clientY`) never lowers the emitted value. */
  lemma DragMonotone(initialCoord: real, initialValue: real, y1: real, y2: real, min: real, max: real, step: real)
    requires y1 <= y2 && step >= 0.0
    ensures DragValue(initialCoord, initialValue, y1, min, max, step) >= DragValue(initialCoord, initialValue, y2, min, max, step)
  {
    var a := (initialCoord - y2) / Sensitivity;
    var b := (initialCoord - y1) / Sensitivity;
    assert a <= b;
    RoundMonotone(a, b);
    var ka, kb := Round(a) as real, Round(b) as real;
    assert (kb - ka) * step >= 0.0;
    assert ka * step <= kb * step;
    ClampMonotone(initialValue + ka * step, initialValue + kb * step, min, max);
  }

  /** The indicator angle in degrees; None where `max === min` makes the
      division produce NaN or an infinity. */
  function Angle(value: real, min: real, max: real): (r: Option<real>)
    ensures r.None? <==> max == min
  {
    if max == min then None else Some((value - min) / (max - min) * 270.0 - 135.0)
  }

  /** The arc runs from -135 degrees at `min` to 135 degrees at `max`, and a
      value in range points within it. */
  lemma AngleWithinArc(value: real, min: real, max: real)
    requires min < max
    ensures Angle(min, min, max) == Some(-135.0)
    ensures Angle(max, min, max) == Some(135.0)
    ensures min <= value <= max ==> -135.0 <= Angle(value, min, max).value <= 135.0
  {
    var d := max - min;
    assert (max - min) / d == 1.0;
    if min <= value <= max {
      var f := (value - min) / d;
      assert f * d == value - min;
      assert 0.0 <= f <= 1.0;
    }
  }

  /** A higher value turns the indicator further clockwise. */
  lemma AngleMonotone(v1: real, v2: real, min: real, max: real)
    requires min < max && v1 <= v2
    ensures Angle(v1, min, max).value <= Angle(v2, min, max).value
  {
    var d := max - min;
    var f1, f2 := (v1 - min) / d, (v2 - min) / d;
    assert f1 * d == v1 - min && f2 * d == v2 - min;
    assert f1 <= f2;
  }

  /** The drag state of one dial, and the props it is rendered with. */
  class Dial {
    const min: real
    const max: real
    const step: real
    var isDragging: bool
    var initialCoord: real
    var initialValue: real

    constructor (min: real, max: real, step: real)
      ensures this.min == min && this.max == max && this.step == step
      ensures !isDragging && initialCoord == 0.0 && initialValue == 0.0
    {
      this.min, this.max, this.step := min, max, step;
      isDragging, initialCoord, initialValue := false, 0.0, 0.0;
    }

    /** `startDrag`, also the mouse-down handler: remembers where the drag
        began and the value shown then. */
    method StartDrag(clientY: real, value: real)
      modifies this
      ensures isDragging && initialCoord == clientY && initialValue == value
    {
      isDragging, initialCoord, initialValue := true, clientY, value;
    }

    /** `onDrag`, also the mouse-move handler: the value passed to
        `onChange`, or None when no drag is in progress. */
    method Drag(clientY: real) returns (emitted: Option<real>)
      ensures emitted.None? <==> !isDragging
      ensures emitted.Some? ==> emitted.value == DragValue(initialCoord, initialValue, clientY, min, max, step)
      ensures emitted.Some? && min <= max ==> min <= emitted.value <= max
    {
      if !isDragging {
        return None;
      }
      var deltaY := initialCoord - clientY;
      var newValue := initialValue + Round(deltaY / Sensitivity) as real * step;
      emitted := Some(Clamp(newValue, min, max));
      assert emitted.value == DragValue(initialCoord, initialValue, clientY, min, max, step);
    }

    /** `stopDrag`, also the mouse-up and touch-end handler. */
    method StopDrag()
      modifies this
      ensures !isDragging && initialCoord == old(initialCoord) && initialValue == old(initialValue)
    {
      isDragging := false;
    }

    /** The touch-start handler: a drag begins only under exactly one
        finger; `touchYs` are the `clientY` of the current touches. */
    method TouchStart(touchYs: seq<real>, value: real)
      modifies this
      ensures |touchYs| == 1 ==> isDragging && initialCoord == touchYs[0] && initialValue == value
      ensures |touchYs| != 1 ==> unchanged(this)
    {
      if |touchYs| == 1 {
        StartDrag(touchYs[0], value);
      }
    }

    /** The touch-move handler: a gesture with more or fewer than one
        finger emits nothing. */
    method TouchMove(touchYs: seq<real>) returns (emitted: Option<real>)
      ensures |touchYs| != 1 ==> emitted.None?
      ensures |touchYs| == 1 ==> emitted.Some? == isDragging
      ensures emitted.Some? ==> |touchYs| == 1 && emitted.value == DragValue(initialCoord, initialValue, touchYs[0], min, max, step)
    {
      emitted := None;
      if |touchYs| == 1 {
        emitted := Drag(touchYs[0]);
      }
    }
  }
}
