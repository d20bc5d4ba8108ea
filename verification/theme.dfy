/**
 The theme values a circular slider is drawn with: the fill colour and the
 stroke style of each of its two arcs. Colours and stroke styles belong to the
 host toolkit; only the values the slider itself names are distinguished here.
 */
module Theme {

  /** A toolkit colour. The slider names three; every other colour is `Custom`. */
  datatype Color = TertiarySystemBackground | Blue | Yellow | Custom(name: string)

  datatype LineCap = Butt | Round | Square

  datatype LineJoin = Miter | RoundJoin | Bevel

  /** The part of a toolkit stroke style the slider sets: width, cap and join. */
  datatype StrokeStyle = StrokeStyle(lineWidth: real, lineCap: LineCap, lineJoin: LineJoin)

  /** A stroke style built from a width and a cap; the join is the toolkit's default, `Miter`. */
  function Stroke(lineWidth: real, lineCap: LineCap): StrokeStyle
  {
    StrokeStyle(lineWidth, lineCap, Miter)
  }

  /** Colour of the background ring before any modifier. */
  const DefaultInactiveColor: Color := TertiarySystemBackground

  /** Colour of the progress arc before any modifier. */
  const DefaultActiveColor: Color := Blue

  /** Stroke of either arc before any modifier: 32 units wide with round caps. */
  const DefaultStrokeStyle: StrokeStyle := Stroke(32.0, Round)
}
