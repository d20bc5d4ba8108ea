/**
 The four chainable theme modifiers. Each rebuilds the slider through the
 internal initialiser with one theme field replaced, passing the stored
 (already widened) upper bound back in, so every call raises the stored bound
 by one more. `Apply` and friends model that as written; `Restyle` is the
 evidently intended copy-with-one-field-replaced that keeps the bound.
 */
module Modifiers {
  import opened Theme
  import opened Slider

  /** `inactive(color:)`: replaces the background ring's colour. */
  function InactiveColor(s: CircularSlider, color: Color): (r: CircularSlider)
    ensures r.inactiveColor == color
    ensures r.activeColor == s.activeColor
    ensures r.inactiveStrokeStyle == s.inactiveStrokeStyle
    ensures r.activeStrokeStyle == s.activeStrokeStyle
    ensures r.value == s.value
    ensures r.upperBound == s.upperBound + 1.0
  {
    MakeStyled(s.value, s.upperBound, color, s.activeColor, s.inactiveStrokeStyle, s.activeStrokeStyle)
  }

  /** `active(color:)`: replaces the progress arc's colour. */
  function ActiveColor(s: CircularSlider, color: Color): (r: CircularSlider)
    ensures r.activeColor == color
    ensures r.inactiveColor == s.inactiveColor
    ensures r.inactiveStrokeStyle == s.inactiveStrokeStyle
    ensures r.activeStrokeStyle == s.activeStrokeStyle
    ensures r.value == s.value
    ensures r.upperBound == s.upperBound + 1.0
  {
    MakeStyled(s.value, s.upperBound, s.inactiveColor, color, s.inactiveStrokeStyle, s.activeStrokeStyle)
  }

  /** `inactive(stroke:)`: replaces the background ring's stroke style. */
  function InactiveStroke(s: CircularSlider, style: StrokeStyle): (r: CircularSlider)
    ensures r.inactiveStrokeStyle == style
    ensures r.inactiveColor == s.inactiveColor
    ensures r.activeColor == s.activeColor
    ensures r.activeStrokeStyle == s.activeStrokeStyle
    ensures r.value == s.value
    ensures r.upperBound == s.upperBound + 1.0
  {
    MakeStyled(s.value, s.upperBound, s.inactiveColor, s.activeColor, style, s.activeStrokeStyle)
  }

  /** `active(stroke:)`: replaces the progress arc's stroke style. */
  function ActiveStroke(s: CircularSlider, style: StrokeStyle): (r: CircularSlider)
    ensures r.activeStrokeStyle == style
    ensures r.inactiveColor == s.inactiveColor
    ensures r.activeColor == s.activeColor
    ensures r.inactiveStrokeStyle == s.inactiveStrokeStyle
    ensures r.value == s.value
    ensures r.upperBound == s.upperBound + 1.0
  {
    MakeStyled(s.value, s.upperBound, s.inactiveColor, s.activeColor, s.inactiveStrokeStyle, style)
  }

  // A modifier call as data, so that chains of calls can be reasoned about.

  datatype Modifier =
    | InactiveColorOf(color: Color)
    | ActiveColorOf(color: Color)
    | InactiveStrokeOf(style: StrokeStyle)
    | ActiveStrokeOf(style: StrokeStyle)

  /** The four theme fields of the record. */
  datatype Field = InactiveColorField | ActiveColorField | InactiveStrokeField | ActiveStrokeField

  datatype ThemeValue = ColorValue(color: Color) | StyleValue(style: StrokeStyle)

  /** The field a modifier replaces. */
  function Target(m: Modifier): Field
  {
    match m
    case InactiveColorOf(_) => InactiveColorField
    case ActiveColorOf(_) => ActiveColorField
    case InactiveStrokeOf(_) => InactiveStrokeField
    case ActiveStrokeOf(_) => ActiveStrokeField
  }

  /** The value a modifier writes into its field. */
  function Argument(m: Modifier): ThemeValue
  {
    match m
    case InactiveColorOf(c) => ColorValue(c)
    case ActiveColorOf(c) => ColorValue(c)
    case InactiveStrokeOf(st) => StyleValue(st)
    case ActiveStrokeOf(st) => StyleValue(st)
  }

  /** Reads one theme field of a slider. */
  function Get(s: CircularSlider, f: Field): ThemeValue
  {
    match f
    case InactiveColorField => ColorValue(s.inactiveColor)
    case ActiveColorField => ColorValue(s.activeColor)
    case InactiveStrokeField => StyleValue(s.inactiveStrokeStyle)
    case ActiveStrokeField => StyleValue(s.activeStrokeStyle)
  }

  /** One modifier call, as written: the target field takes the argument, every
      other theme field and the bound value are kept, the stored bound grows by one. */
  function Apply(s: CircularSlider, m: Modifier): (r: CircularSlider)
    ensures Get(r, Target(m)) == Argument(m)
    ensures forall f :: f != Target(m) ==> Get(r, f) == Get(s, f)
    ensures r.value == s.value
    ensures r.upperBound == s.upperBound + 1.0
  {
    match m
    case InactiveColorOf(c) => InactiveColor(s, c)
    case ActiveColorOf(c) => ActiveColor(s, c)
    case InactiveStrokeOf(st) => InactiveStroke(s, st)
    case ActiveStrokeOf(st) => ActiveStroke(s, st)
  }

  /** A chain `s.m0(..).m1(..)...` of modifier calls, first call first. */
  function ApplyAll(s: CircularSlider, ms: seq<Modifier>): CircularSlider
    decreases |ms|
  {
    if |ms| == 0 then s else ApplyAll(Apply(s, ms[0]), ms[1..])
  }

  /** The corrected modifier: one field replaced, everything else, the stored
      upper bound included, kept. */
  function Restyle(s: CircularSlider, m: Modifier): (r: CircularSlider)
    ensures Get(r, Target(m)) == Argument(m)
    ensures forall f :: f != Target(m) ==> Get(r, f) == Get(s, f)
    ensures r.value == s.value
    ensures r.upperBound == s.upperBound
  {
    match m
    case InactiveColorOf(c) => s.(inactiveColor := c)
    case ActiveColorOf(c) => s.(activeColor := c)
    case InactiveStrokeOf(st) => s.(inactiveStrokeStyle := st)
    case ActiveStrokeOf(st) => s.(activeStrokeStyle := st)
  }

  /** A chain of corrected modifier calls, first call first. */
  function RestyleAll(s: CircularSlider, ms: seq<Modifier>): CircularSlider
    decreases |ms|
  {
    if |ms| == 0 then s else RestyleAll(Restyle(s, ms[0]), ms[1..])
  }

  /** The modifiers as written differ from the corrected ones in the stored bound only. */
  lemma ApplyIsRestyleWithDrift(s: CircularSlider, m: Modifier)
    ensures Apply(s, m) == Restyle(s, m).(upperBound := s.upperBound + 1.0)
  {
  }

  /** A chain of n modifier calls keeps the bound value and raises the stored
      bound by n: caller bound plus one plus n. */
  lemma {:induction false} ChainDrift(s: CircularSlider, ms: seq<Modifier>)
    ensures ApplyAll(s, ms).value == s.value
    ensures ApplyAll(s, ms).upperBound == s.upperBound + |ms| as real
    decreases |ms|
  {
    if |ms| > 0 {
      ChainDrift(Apply(s, ms[0]), ms[1..]);
    }
  }

  /** The corrected chain keeps the bound value and the stored bound. */
  lemma {:induction false} RestyleChainKeepsBound(s: CircularSlider, ms: seq<Modifier>)
    ensures RestyleAll(s, ms).value == s.value
    ensures RestyleAll(s, ms).upperBound == s.upperBound
    decreases |ms|
  {
    if |ms| > 0 {
      RestyleChainKeepsBound(Restyle(s, ms[0]), ms[1..]);
    }
  }

  /** One `inactive(color:)` call on a slider built for caller bound 24 leaves
      26 stored where the initialiser stored 25. */
  lemma DriftExample(value: real)
    ensures Make(value, 24.0).upperBound == 25.0
    ensures InactiveColor(Make(value, 24.0), Yellow).upperBound == 26.0
    ensures Restyle(Make(value, 24.0), InactiveColorOf(Yellow)).upperBound == 25.0
  {
  }

  /** The two chains agree on every theme field. */
  lemma {:induction false} ChainsAgreeOnTheme(s: CircularSlider, ms: seq<Modifier>, f: Field)
    ensures Get(ApplyAll(s, ms), f) == Get(RestyleAll(s, ms), f)
    decreases |ms|
  {
    if |ms| > 0 {
      ApplyIsRestyleWithDrift(s, ms[0]);
      ThemeIgnoresBound(Apply(s, ms[0]), Restyle(s, ms[0]), ms[1..], f);
    }
  }

  /** Chains started from records with equal theme fields end with equal theme fields. */
  lemma {:induction false} ThemeIgnoresBound(a: CircularSlider, b: CircularSlider, ms: seq<Modifier>, f: Field)
    requires forall g :: Get(a, g) == Get(b, g)
    ensures Get(ApplyAll(a, ms), f) == Get(RestyleAll(b, ms), f)
    decreases |ms|
  {
    if |ms| > 0 {
      var a', b' := Apply(a, ms[0]), Restyle(b, ms[0]);
      forall g ensures Get(a', g) == Get(b', g) {
        if g != Target(ms[0]) {
          assert Get(a', g) == Get(a, g) == Get(b, g) == Get(b', g);
        }
      }
      ThemeIgnoresBound(a', b', ms[1..], f);
    }
  }

  /** A chain of calls splits at any point into two chains. */
  lemma {:induction false} ApplyAllAppend(s: CircularSlider, xs: seq<Modifier>, ys: seq<Modifier>)
    ensures ApplyAll(s, xs + ys) == ApplyAll(ApplyAll(s, xs), ys)
    decreases |xs|
  {
    if |xs| > 0 {
      assert (xs + ys)[0] == xs[0];
      assert (xs + ys)[1..] == xs[1..] + ys;
      ApplyAllAppend(Apply(s, xs[0]), xs[1..], ys);
    } else {
      assert xs + ys == ys;
    }
  }

  /** A field no call in the chain targets keeps its value. */
  lemma {:induction false} UntouchedFieldKept(s: CircularSlider, ms: seq<Modifier>, f: Field)
    requires forall i :: 0 <= i < |ms| ==> Target(ms[i]) != f
    ensures Get(ApplyAll(s, ms), f) == Get(s, f)
    decreases |ms|
  {
    if |ms| > 0 {
      assert Target(ms[0]) != f;
      UntouchedFieldKept(Apply(s, ms[0]), ms[1..], f);
    }
  }

  /** The last call that targets a field decides its value: earlier calls on the
      same field are overridden, later calls on other fields do not touch it. */
  lemma LastModifierWins(s: CircularSlider, ms: seq<Modifier>, m: Modifier, rest: seq<Modifier>)
    requires forall i :: 0 <= i < |rest| ==> Target(rest[i]) != Target(m)
    ensures Get(ApplyAll(s, ms + [m] + rest), Target(m)) == Argument(m)
  {
    ApplyAllAppend(s, ms + [m], rest);
    ApplyAllAppend(s, ms, [m]);
    UntouchedFieldKept(ApplyAll(s, ms + [m]), rest, Target(m));
  }

  /** Calling the same modifier twice keeps only the second argument (and, as
      written, two increments of the stored bound). */
  lemma LaterModifierOverrides(s: CircularSlider, m1: Modifier, m2: Modifier)
    requires Target(m1) == Target(m2)
    ensures Apply(Apply(s, m1), m2) == Apply(s, m2).(upperBound := s.upperBound + 2.0)
  {
  }

  /** Modifiers on different fields commute. */
  lemma DistinctModifiersCommute(s: CircularSlider, m1: Modifier, m2: Modifier)
    requires Target(m1) != Target(m2)
    ensures Apply(Apply(s, m1), m2) == Apply(Apply(s, m2), m1)
  {
  }
}
