/**
 The drag-to-value mapper. On every drag update the pointer's offset from the
 point (radius, radius) is turned into an angle with a four-quadrant arctangent,
 rotated a quarter turn so that zero points up, brought into [0, 2*pi) by adding
 a full turn to negatives, mapped linearly onto [0, upperBound), clamped at zero
 and truncated to a whole number, which is written into the bound value.

 The arctangent is a parameter: any function the predicates below describe.
 The floating-point `atan2` is one of them, since its results never exceed the
 double nearest to pi, which is `Pi`.
 */
module Mapper {
  import opened Geometry
  import opened Slider

  /** Swift's conversion of a floating-point number to a 64-bit `Int`: the
      truncated value, or a run-time trap when that does not fit. */
  datatype Conversion = Exact(n: int) | Trap

  /** What a drag update leaves behind: the slider with its new bound value, or
      a trap of the conversion. */
  datatype DragOutcome = Updated(slider: CircularSlider) | Trapped

  const Int64Min: int := -0x8000_0000_0000_0000
  const Int64Max: int := 0x7FFF_FFFF_FFFF_FFFF

  /** The range of the four-quadrant arctangent `atan2(dy, dx)`. */
  ghost predicate Atan2Range(atan2: (real, real) -> real)
  {
    forall dy, dx :: -Pi <= atan2(dy, dx) <= Pi
  }

  /** The arctangent's values on the four half-axes. On the negative x half-axis
      the sign of the zero decides between pi and -pi. */
  ghost predicate Atan2Axes(atan2: (real, real) -> real)
  {
    && Atan2Range(atan2)
    && (forall dx :: dx > 0.0 ==> atan2(0.0, dx) == 0.0)
    && (forall dx :: dx < 0.0 ==> atan2(0.0, dx) == Pi || atan2(0.0, dx) == -Pi)
    && (forall dy :: dy > 0.0 ==> atan2(dy, 0.0) == Pi / 2.0)
    && (forall dy :: dy < 0.0 ==> atan2(dy, 0.0) == -Pi / 2.0)
  }

  function Max(a: real, b: real): (m: real)
    ensures a <= m && b <= m
    ensures m == a || m == b
  {
    if a < b then b else a
  }

  /** Truncation toward zero. */
  function Truncate(x: real): (n: int)
    ensures 0.0 <= x ==> 0 <= n && n as real <= x < n as real + 1.0
    ensures x < 0.0 ==> n <= 0 && n as real - 1.0 < x <= n as real
  {
    if x >= 0.0 then x.Floor else -((-x).Floor)
  }

  /** `Int(x)`: traps unless the truncated value is a 64-bit integer. */
  function IntOfDouble(x: real): (r: Conversion)
    ensures r.Exact? <==> Int64Min <= Truncate(x) <= Int64Max
    ensures r.Exact? ==> r.n == Truncate(x)
  {
    if (Int64Min - 1) as real < x < (Int64Max + 1) as real then Exact(Truncate(x)) else Trap
  }

  /** The point the mapper measures the pointer from: (radius, radius). */
  function MapperCentre(radius: real): Point
  {
    Point(radius, radius)
  }

  /** Brings a rotated angle into one turn by adding a full turn to negatives. */
  function FixedAngle(angle: real): (f: real)
    ensures f == angle || f == angle + 2.0 * Pi
    ensures -2.0 * Pi <= angle < 2.0 * Pi ==> 0.0 <= f < 2.0 * Pi
    ensures 0.0 <= angle ==> f == angle
  {
    if angle < 0.0 then angle + 2.0 * Pi else angle
  }

  /** The clockwise angle from straight up to the pointer, as the mapper
      computes it: the arctangent of the offset, a quarter turn on, normalised. */
  function PointerAngle(location: Point, radius: real, atan2: (real, real) -> real): (f: real)
    requires Atan2Range(atan2)
    ensures 0.0 <= f < 2.0 * Pi
    ensures var v := Offset(location, MapperCentre(radius));
            f == atan2(v.dy, v.dx) + Pi / 2.0 || f == atan2(v.dy, v.dx) + Pi / 2.0 + 2.0 * Pi
  {
    var v := Offset(location, MapperCentre(radius));
    FixedAngle(atan2(v.dy, v.dx) + Pi / 2.0)
  }

  /** How many turns an angle is: a normalised angle is a fraction in [0, 1). */
  function Turns(angle: real): (t: real)
    ensures 0.0 <= angle ==> 0.0 <= t
    ensures angle < 2.0 * Pi ==> t < 1.0
  {
    angle / (2.0 * Pi)
  }

  /** The fraction of a turn scaled to the stored bound, clamped at zero and
      converted to `Int`. */
  function Quantise(fixed: real, upperBound: real): (r: Conversion)
    ensures 0.0 <= fixed && upperBound <= 0.0 ==> r == Exact(0)
    ensures 0.0 <= fixed < 2.0 * Pi && 0.0 < upperBound && r.Exact? ==> 0 <= r.n && (r.n as real) < upperBound
    ensures 0.0 <= fixed < 2.0 * Pi && upperBound <= (Int64Max + 1) as real ==> r.Exact?
  {
    ScaledConversion(Turns(fixed), upperBound, Turns(fixed) * upperBound);
    IntOfDouble(Max(0.0, Turns(fixed) * upperBound))
  }

  /** Converting a non-negative fraction `t` of a turn scaled by the bound. */
  lemma ScaledConversion(t: real, upperBound: real, x: real)
    requires x == t * upperBound
    ensures 0.0 <= t && upperBound <= 0.0 ==> IntOfDouble(Max(0.0, x)) == Exact(0)
    ensures 0.0 <= t < 1.0 && 0.0 < upperBound && IntOfDouble(Max(0.0, x)).Exact? ==>
              0 <= IntOfDouble(Max(0.0, x)).n && (IntOfDouble(Max(0.0, x)).n as real) < upperBound
    ensures 0.0 <= t < 1.0 && upperBound <= (Int64Max + 1) as real ==> IntOfDouble(Max(0.0, x)).Exact?
  {
    assert 0.0 <= t && upperBound <= 0.0 ==> x <= 0.0 by {
      ScaleBounds(t, upperBound);
    }
    assert 0.0 <= t < 1.0 && 0.0 < upperBound ==> 0.0 <= x < upperBound by {
      ScaleBounds(t, upperBound);
    }
    ClampedConversion(x, upperBound);
  }

  /** Where a non-negative fraction lands once scaled by the bound. */
  lemma ScaleBounds(t: real, upperBound: real)
    ensures 0.0 <= t && upperBound <= 0.0 ==> t * upperBound <= 0.0
    ensures 0.0 <= t && 0.0 <= upperBound ==> 0.0 <= t * upperBound
    ensures 0.0 <= t < 1.0 && 0.0 < upperBound ==> t * upperBound < upperBound
  {
    if 0.0 <= t && 0.0 < upperBound && t < 1.0 {
      assert (1.0 - t) * upperBound > 0.0;
    }
  }

  /** Converting a clamped value. */
  lemma ClampedConversion(x: real, upperBound: real)
    ensures x <= 0.0 ==> IntOfDouble(Max(0.0, x)) == Exact(0)
    ensures 0.0 <= x < upperBound && IntOfDouble(Max(0.0, x)).Exact? ==>
              0 <= IntOfDouble(Max(0.0, x)).n && (IntOfDouble(Max(0.0, x)).n as real) < upperBound
    ensures x < upperBound <= (Int64Max + 1) as real ==> IntOfDouble(Max(0.0, x)).Exact?
  {
    if x <= 0.0 {
      assert Max(0.0, x) == 0.0;
      assert Truncate(0.0) == 0;
    } else {
      assert Max(0.0, x) == x;
    }
  }

  /** `updateValue`: the whole number a drag update writes into the bound value. */
  function UpdateValue(location: Point, radius: real, upperBound: real,
                       atan2: (real, real) -> real): (r: Conversion)
    requires Atan2Range(atan2)
    ensures upperBound <= 0.0 ==> r == Exact(0)
    ensures 0.0 < upperBound && r.Exact? ==> 0 <= r.n && (r.n as real) < upperBound
    ensures upperBound <= (Int64Max + 1) as real ==> r.Exact?
  {
    Quantise(PointerAngle(location, radius, atan2), upperBound)
  }

  /** One drag update on a frame of the given height: the mapper's radius is half
      the height, and the result is written into the bound value. */
  function Drag(s: CircularSlider, location: Point, height: real,
                atan2: (real, real) -> real): (r: DragOutcome)
    requires Atan2Range(atan2)
    ensures r.Updated? ==> r.slider.(value := s.value) == s
    ensures r.Updated? ==> r.slider.value == r.slider.value.Floor as real
    ensures r.Updated? && 0.0 < s.upperBound ==> 0.0 <= r.slider.value < s.upperBound
    ensures r.Updated? && s.upperBound <= 0.0 ==> r.slider.value == 0.0
    ensures s.upperBound <= (Int64Max + 1) as real ==> r.Updated?
  {
    match UpdateValue(location, height / 2.0, s.upperBound, atan2)
    case Exact(n) => Updated(s.(value := n as real))
    case Trap => Trapped
  }

  /** Normalisation of a raw arctangent: the rotated angle lands in [0, 2pi). */
  lemma NormalisedAngleInOneTurn(raw: real)
    requires -Pi <= raw <= Pi
    ensures 0.0 <= FixedAngle(raw + Pi / 2.0) < 2.0 * Pi
  {
  }

  /** Normalisation is idempotent. */
  lemma FixedAngleIdempotent(angle: real)
    requires -2.0 * Pi <= angle
    ensures FixedAngle(FixedAngle(angle)) == FixedAngle(angle)
  {
  }

  /** The clamp at zero never changes anything for a normalised angle and a
      non-negative bound: it matters only for caller bounds below -1. */
  lemma GuardNeverFires(fixed: real, upperBound: real)
    requires 0.0 <= fixed && 0.0 <= upperBound
    ensures Quantise(fixed, upperBound) == IntOfDouble(Turns(fixed) * upperBound)
  {
    ScaleBounds(Turns(fixed), upperBound);
  }

  /** The written value is the whole number of 1/upperBound-turn steps the
      pointer has gone past. */
  lemma QuantiseIsFloor(fixed: real, upperBound: real)
    requires 0.0 <= fixed && 0.0 <= upperBound
    requires Quantise(fixed, upperBound).Exact?
    ensures Quantise(fixed, upperBound).n as real <= Turns(fixed) * upperBound
    ensures Turns(fixed) * upperBound < Quantise(fixed, upperBound).n as real + 1.0
  {
    GuardNeverFires(fixed, upperBound);
  }

  /** Turning the pointer further clockwise never lowers the written value. */
  lemma QuantiseMonotone(f1: real, f2: real, upperBound: real)
    requires 0.0 <= f1 <= f2
    requires 0.0 <= upperBound
    requires Quantise(f2, upperBound).Exact?
    ensures Quantise(f1, upperBound).Exact?
    ensures Quantise(f1, upperBound).n <= Quantise(f2, upperBound).n
  {
    var x1, x2 := Turns(f1) * upperBound, Turns(f2) * upperBound;
    assert 0.0 <= x1 <= x2 by {
      ScaleMonotone(Turns(f1), Turns(f2), upperBound);
      ScaleBounds(Turns(f1), upperBound);
    }
    GuardNeverFires(f1, upperBound);
    GuardNeverFires(f2, upperBound);
    ConversionMonotone(x1, x2);
  }

  lemma ScaleMonotone(t1: real, t2: real, upperBound: real)
    requires t1 <= t2
    requires 0.0 <= upperBound
    ensures t1 * upperBound <= t2 * upperBound
  {
    assert (t2 - t1) * upperBound >= 0.0;
  }

  /** m / b is a fraction in [0, 1) that scales back to m. */
  lemma ProperFraction(m: real, b: real)
    requires 0.0 <= m < b
    ensures 0.0 <= m / b < 1.0
    ensures m / b * b == m
  {
    var q := m / b;
    assert q * b == m;
  }

  lemma ConversionMonotone(x1: real, x2: real)
    requires 0.0 <= x1 <= x2
    requires IntOfDouble(x2).Exact?
    ensures IntOfDouble(x1).Exact?
    ensures IntOfDouble(x1).n <= IntOfDouble(x2).n
  {
    assert x1.Floor <= x2.Floor;
  }

  /** The angle at which the foreground arc of a whole value n ends (measured
      clockwise from straight up) maps back to n. */
  lemma QuantiseInvertsSweep(n: nat, upperBound: real)
    requires (n as real) < upperBound <= (Int64Max + 1) as real
    ensures 0.0 <= n as real / upperBound * 2.0 * Pi < 2.0 * Pi
    ensures Quantise(n as real / upperBound * 2.0 * Pi, upperBound) == Exact(n)
  {
    var m := n as real;
    var q := m / upperBound;
    assert 0.0 <= q < 1.0 && q * upperBound == m by {
      ProperFraction(m, upperBound);
    }
    var fixed := q * 2.0 * Pi;
    assert Turns(fixed) == q;
    assert Truncate(m) == n;
    GuardNeverFires(fixed, upperBound);
  }

  /** The angles the mapper computes on the four axis points of a square frame
      of radius r. */
  lemma AxisAngles(r: real, atan2: (real, real) -> real)
    requires Atan2Axes(atan2)
    requires r > 0.0
    ensures PointerAngle(Point(r, 0.0), r, atan2) == 0.0
    ensures PointerAngle(Point(2.0 * r, r), r, atan2) == Pi / 2.0
    ensures PointerAngle(Point(r, 2.0 * r), r, atan2) == Pi
    ensures PointerAngle(Point(0.0, r), r, atan2) == 3.0 * Pi / 2.0
  {
    assert atan2(-r, 0.0) == -Pi / 2.0;
    assert atan2(0.0, r) == 0.0;
    assert atan2(r, 0.0) == Pi / 2.0;
    assert atan2(0.0, -r) == Pi || atan2(0.0, -r) == -Pi;
  }

  /** Pointer straight above the centre of a square frame: value 0. */
  lemma TopMapsToZero(r: real, upperBound: real, atan2: (real, real) -> real)
    requires Atan2Axes(atan2)
    requires r > 0.0
    ensures UpdateValue(Point(r, 0.0), r, upperBound, atan2) == Exact(0)
  {
    AxisAngles(r, atan2);
    ClampedConversion(0.0 * upperBound, upperBound);
  }

  /** Pointer at the right edge of a square frame: a quarter of the stored bound. */
  lemma RightMapsToQuarter(r: real, upperBound: real, atan2: (real, real) -> real)
    requires Atan2Axes(atan2)
    requires r > 0.0
    requires 0.0 <= upperBound
    ensures UpdateValue(Point(2.0 * r, r), r, upperBound, atan2) == IntOfDouble(upperBound / 4.0)
    ensures upperBound <= (Int64Max + 1) as real ==>
              UpdateValue(Point(2.0 * r, r), r, upperBound, atan2) == Exact((upperBound / 4.0).Floor)
  {
    AxisAngles(r, atan2);
    GuardNeverFires(Pi / 2.0, upperBound);
  }

  /** Pointer straight below the centre of a square frame: half the stored bound. */
  lemma BottomMapsToHalf(r: real, upperBound: real, atan2: (real, real) -> real)
    requires Atan2Axes(atan2)
    requires r > 0.0
    requires 0.0 <= upperBound
    ensures UpdateValue(Point(r, 2.0 * r), r, upperBound, atan2) == IntOfDouble(upperBound / 2.0)
  {
    AxisAngles(r, atan2);
    GuardNeverFires(Pi, upperBound);
  }

  /** Pointer at the left edge of a square frame: three quarters of the stored
      bound, whichever sign the arctangent gives on the negative x half-axis. */
  lemma LeftMapsToThreeQuarters(r: real, upperBound: real, atan2: (real, real) -> real)
    requires Atan2Axes(atan2)
    requires r > 0.0
    requires 0.0 <= upperBound
    ensures UpdateValue(Point(0.0, r), r, upperBound, atan2) == IntOfDouble(upperBound * 3.0 / 4.0)
  {
    AxisAngles(r, atan2);
    GuardNeverFires(3.0 * Pi / 2.0, upperBound);
  }

  /** The tests' configuration (caller bound 24, stored 25, bound value 4),
      dragged to the right edge of a square frame of height 2r: the bound value
      becomes 6. */
  lemma DragRightWithBound24(r: real, atan2: (real, real) -> real)
    requires Atan2Axes(atan2)
    requires r > 0.0
    ensures Drag(Make(4.0, 24.0), Point(2.0 * r, r), 2.0 * r, atan2) == Updated(Make(6.0, 24.0))
  {
    RightMapsToQuarter(r, 25.0, atan2);
    assert (25.0 / 4.0).Floor == 6;
  }
}
