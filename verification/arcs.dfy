/**
 The renderer's geometry: the two arcs' end points and their centre. The
 background ("start") arc is a full ring; the foreground ("end") arc starts
 straight up and runs clockwise for value / upperBound of a turn.
 Angles are in the slider's own y-down coordinates, so pi/2 points down and
 3pi/2 (equally -pi/2) points up.
 */
module Arcs {
  import opened Geometry
  import opened Slider
  import Mapper

  /** Which arc: `Start` is the background ring, `End` the progress arc. */
  datatype PathType = Start | End

  /** A floating-point result: a finite number, or the infinity or NaN that a
      division by a zero bound produces. */
  datatype Float = Finite(v: real) | NonFinite

  /** Where each arc starts: the background ring a quarter turn clockwise from
      the positive x axis (straight down), the foreground on the ray of -pi/2
      (straight up), diametrically opposite. */
  function StartAngle(t: PathType): (r: real)
    ensures t == Start ==> 2.0 * r == Pi
    ensures t == End ==> r - 2.0 * Pi == -Pi / 2.0
  {
    if t == Start then Pi / 2.0 else Pi * 1.5
  }

  /** End angle of either arc. The foreground's divides by the stored bound,
      which is zero when the caller passed -1, or -1 - n followed by n
      modifiers. */
  function EndAngle(t: PathType, s: CircularSlider): (r: Float)
    ensures t == Start ==> r == Finite(StartAngle(Start) + 2.0 * Pi)
    ensures t == End ==> (r.Finite? <==> s.upperBound != 0.0)
  {
    var startEndAngle := Pi / 2.0 + 2.0 * Pi;
    var endEndAngle :=
      if s.upperBound == 0.0 then NonFinite
      else Finite(s.value / s.upperBound * 2.0 * Pi - Pi / 2.0);
    if t == Start then Finite(startEndAngle) else endEndAngle
  }

  /** Centre of both arcs: the middle of the frame. */
  function RenderCentre(width: real, height: real): (c: Point)
    ensures c.x == width - c.x && c.y == height - c.y
  {
    Point(width / 2.0, height / 2.0)
  }

  /** The fraction of a turn a foreground end angle stands for, measured
      clockwise from straight up. */
  function FractionOfEnd(endAngle: real): real
  {
    (endAngle + Pi / 2.0) / (2.0 * Pi)
  }

  /** The foreground end angle encodes exactly value / upperBound: reading the
      fraction back off the drawn arc gives it again, whatever drag history led
      to the value. */
  lemma EndAngleRoundTrip(s: CircularSlider)
    requires s.upperBound != 0.0
    ensures FractionOfEnd(EndAngle(End, s).v) == s.value / s.upperBound
  {
    var q := s.value / s.upperBound;
    assert EndAngle(End, s).v + Pi / 2.0 == q * 2.0 * Pi;
  }

  /** Two sliders with the same nonzero bound draw the same foreground end
      exactly when their bound values agree. */
  lemma EndAngleDeterminesValue(s1: CircularSlider, s2: CircularSlider)
    requires s1.upperBound == s2.upperBound != 0.0
    ensures EndAngle(End, s1) == EndAngle(End, s2) <==> s1.value == s2.value
  {
    if EndAngle(End, s1) == EndAngle(End, s2) {
      EndAngleRoundTrip(s1);
      EndAngleRoundTrip(s2);
      CancelDivision(s1.value, s2.value, s1.upperBound);
    }
  }

  lemma CancelDivision(a: real, b: real, c: real)
    requires c != 0.0
    requires a / c == b / c
    ensures a == b
  {
    assert a == a / c * c;
    assert b == b / c * c;
  }

  /** On a square frame of side 2r the two start rays point from the drawn centre
      at the top and bottom points of the ring, and the top one, where the
      foreground begins, is where the drag mapper measures angle 0. */
  lemma StartRaysHitTopAndBottom(r: real, atan2: (real, real) -> real)
    requires Mapper.Atan2Axes(atan2)
    requires r > 0.0
    ensures var v := Offset(Point(r, 0.0), RenderCentre(2.0 * r, 2.0 * r));
            atan2(v.dy, v.dx) == StartAngle(End) - 2.0 * Pi
    ensures var v := Offset(Point(r, 2.0 * r), RenderCentre(2.0 * r, 2.0 * r));
            atan2(v.dy, v.dx) == StartAngle(Start)
    ensures Mapper.PointerAngle(Point(r, 0.0), r, atan2) == 0.0
  {
    assert atan2(-r, 0.0) == -Pi / 2.0;
    assert atan2(r, 0.0) == Pi / 2.0;
    Mapper.AxisAngles(r, atan2);
  }

  /** At value 0 the foreground ends exactly one turn before it starts, on the
      same ray: it sweeps nothing. */
  lemma ZeroValueZeroSweep(s: CircularSlider)
    requires s.value == 0.0 && s.upperBound != 0.0
    ensures EndAngle(End, s) == Finite(StartAngle(End) - 2.0 * Pi)
  {
  }

  /** For a value in [0, upperBound) the foreground ends within the turn that
      precedes its start, so it never closes the ring. */
  lemma ForegroundWithinOneTurn(s: CircularSlider)
    requires 0.0 <= s.value < s.upperBound
    ensures StartAngle(End) - 2.0 * Pi <= EndAngle(End, s).v < StartAngle(End)
  {
    Mapper.ProperFraction(s.value, s.upperBound);
    var q := s.value / s.upperBound;
    assert 0.0 <= q * 2.0 * Pi < 2.0 * Pi by {
      assert (1.0 - q) * (2.0 * Pi) > 0.0;
    }
  }

  /** The mapper measures the pointer from (radius, radius) with radius half the
      height, while the arcs are centred at the middle of the frame: the two
      agree exactly on square frames. */
  lemma CentresAgreeIffSquare(width: real, height: real)
    ensures Mapper.MapperCentre(height / 2.0) == RenderCentre(width, height) <==> width == height
  {
  }

  /** On any frame the mapper's offset is the offset from the drawn centre
      shifted right by half the excess of width over height. */
  lemma MapperOffsetShift(location: Point, width: real, height: real)
    ensures Offset(location, Mapper.MapperCentre(height / 2.0)).dx
         == Offset(location, RenderCentre(width, height)).dx + (width - height) / 2.0
    ensures Offset(location, Mapper.MapperCentre(height / 2.0)).dy
         == Offset(location, RenderCentre(width, height)).dy
  {
  }

  /** After a drag, the redrawn foreground reaches the step at or just before
      the pointer: the pointer's angle from straight up lies in
      [sweep, sweep + 2pi / upperBound), where sweep is the arc's clockwise
      extent from straight up. */
  lemma DragThenRender(s: CircularSlider, location: Point, height: real,
                       atan2: (real, real) -> real)
    requires Mapper.Atan2Range(atan2)
    requires 0.0 < s.upperBound
    requires Mapper.Drag(s, location, height, atan2).Updated?
    ensures var s' := Mapper.Drag(s, location, height, atan2).slider;
            var pointer := Mapper.PointerAngle(location, height / 2.0, atan2);
            var sweep := EndAngle(End, s').v + Pi / 2.0;
            sweep <= pointer < sweep + 2.0 * Pi / s.upperBound
  {
    var f := Mapper.PointerAngle(location, height / 2.0, atan2);
    var r := Mapper.Quantise(f, s.upperBound);
    Mapper.QuantiseIsFloor(f, s.upperBound);
    var m := r.n as real;
    var s' := Mapper.Drag(s, location, height, atan2).slider;
    assert s'.value == m;
    assert s'.upperBound == s.upperBound;
    Unscale(m, Mapper.Turns(f), f, s.upperBound);
  }

  /** Undoing the scaling: m <= t * b < m + 1 with t = f / 2pi places f between
      the angles of steps m and m + 1. */
  lemma Unscale(m: real, t: real, f: real, b: real)
    requires 0.0 < b
    requires t == f / (2.0 * Pi)
    requires m <= t * b < m + 1.0
    ensures m / b * 2.0 * Pi <= f < m / b * 2.0 * Pi + 2.0 * Pi / b
  {
    assert m / b <= t by {
      assert m / b * b == m;
    }
    assert t < (m + 1.0) / b by {
      assert (m + 1.0) / b * b == m + 1.0;
    }
    assert (m + 1.0) / b == m / b + 1.0 / b;
  }
}
