/**
 The slider's configuration record and its two initialisers.

 The record is a value: the bound value the host shares with the slider (read
 for drawing, written while dragging), the stored upper bound, and four theme
 fields. Both initialisers store the caller's upper bound widened by one.
 */
module Slider {
  import opened Theme

  datatype CircularSlider = CircularSlider(
    value: real,
    upperBound: real,
    inactiveColor: Color,
    activeColor: Color,
    inactiveStrokeStyle: StrokeStyle,
    activeStrokeStyle: StrokeStyle)

  /** The public initialiser: the caller's bound plus one, and the default theme. */
  function Make(value: real, upperBound: real): (s: CircularSlider)
    ensures s.value == value
    ensures s.upperBound == upperBound + 1.0
    ensures s.inactiveColor == TertiarySystemBackground
    ensures s.activeColor == Blue
    ensures s.inactiveStrokeStyle.lineWidth == 32.0 && s.inactiveStrokeStyle.lineCap == Round
    ensures s.activeStrokeStyle.lineWidth == 32.0 && s.activeStrokeStyle.lineCap == Round
  {
    CircularSlider(value, upperBound + 1.0,
                   DefaultInactiveColor, DefaultActiveColor,
                   DefaultStrokeStyle, DefaultStrokeStyle)
  }

  /** The internal initialiser the modifiers use: it too widens the bound by one,
      and keeps the four theme arguments as given. */
  function MakeStyled(value: real, upperBound: real,
                      inactiveColor: Color, activeColor: Color,
                      inactiveStroke: StrokeStyle, activeStroke: StrokeStyle): (s: CircularSlider)
    ensures s.value == value
    ensures s.upperBound == upperBound + 1.0
    ensures s.inactiveColor == inactiveColor && s.activeColor == activeColor
    ensures s.inactiveStrokeStyle == inactiveStroke && s.activeStrokeStyle == activeStroke
  {
    CircularSlider(value, upperBound + 1.0, inactiveColor, activeColor, inactiveStroke, activeStroke)
  }

  /** The bound the caller asked for, recovered from the stored one. */
  function CallerBound(s: CircularSlider): real
  {
    s.upperBound - 1.0
  }

  /** The public initialiser is the internal one applied to the default theme. */
  lemma PublicInitIsStyledInitWithDefaults(value: real, upperBound: real)
    ensures Make(value, upperBound)
         == MakeStyled(value, upperBound, DefaultInactiveColor, DefaultActiveColor,
                       DefaultStrokeStyle, DefaultStrokeStyle)
  {
  }

  /** Both initialisers remember exactly the bound their caller passed. */
  lemma CallerBoundRoundTrip(value: real, upperBound: real, ic: Color, ac: Color,
                             ist: StrokeStyle, ast: StrokeStyle)
    ensures CallerBound(Make(value, upperBound)) == upperBound
    ensures CallerBound(MakeStyled(value, upperBound, ic, ac, ist, ast)) == upperBound
  {
  }

  /** The configuration the package's tests build: caller bound 24, bound value 4. */
  lemma TestConfiguration()
    ensures Make(4.0, 24.0).upperBound == 25.0
    ensures Make(4.0, 24.0).value == 4.0
    ensures Make(4.0, 24.0).inactiveStrokeStyle == Stroke(32.0, Round)
    ensures Make(4.0, 24.0).activeStrokeStyle == Stroke(32.0, Round)
  {
  }
}
