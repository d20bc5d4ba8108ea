# CircularSlider in Dafny

A model of the logic inside `CircularSlider`, a SwiftUI widget. The user drags a pointer around a
ring to pick a whole number between 0 and an upper bound. The widget holds two things worth proving
properties about.

- **The configuration record.** It is a value type that holds:
  - the bound value shared with the host;
  - the stored upper bound;
  - four theme fields: the inactive and active colour, and the inactive and active stroke style.

  Both initialisers store the caller's bound plus one. Four chainable modifiers each rebuild the
  record with one theme field replaced (`slider.dfy`, `modifiers.dfy`).
- **The geometry.**
  - The drag mapper turns a pointer location into an angle with `atan2`. It rotates the angle a
    quarter turn, normalises it into `[0, 2π)`, scales it to the stored bound, clamps it at zero and
    truncates it with `Int(...)`. The result is written into the bound value (`mapper.dfy`).
  - The renderer's start and end angles for the two arcs are linear formulas of
    `value / upperBound` (`arcs.dfy`).

Modules: `Geometry` holds points, offsets and π. `Theme` holds colours and stroke styles. `Slider`
holds the record and its initialisers. `Modifiers` holds the four modifiers and modifier chains.
`Mapper` holds `updateValue`. `Arcs` holds the arc angles and the arc centre.

How the source is represented:

- Swift `Double`/`CGFloat` become exact `real`s.
- π is `CGFloat.pi`: the double nearest to π, written out exactly as the real
  3.141592653589793115997963468544185161590576171875 (`Geometry.Pi`). It is slightly below the true π.
  No proof depends on its digits, only on its being positive.
- `atan2` is a function parameter. `Mapper.Atan2Range` gives its range `[-π, π]`, with π the double
  above. `Mapper.Atan2Axes` gives its values on the four half-axes, and on the negative x half-axis it
  allows either π or -π. The floating-point `atan2` meets both: its results never exceed the double π.
  The exact mathematical arctangent does not, because it reaches the true π.
- Swift's `Int(Double)` traps when the truncated value does not fit in 64 bits. It is modelled as
  `Conversion.Trap`.
- A division by a zero stored bound gives infinity or NaN in the renderer. The stored bound is zero when
  the caller passed -1, or -1 − n followed by n modifiers. It is modelled as `Float.NonFinite`.
- The `Binding<Double>` is the record field `value`. A drag returns the record with that field
  rewritten.

Two behaviours of the code are kept as written.

- **Every modifier raises the stored bound by one more** (see Findings). The intent is that the bound
  is fixed at construction. The code re-widens the already widened bound on every modifier call, and
  the model follows the code. `Restyle` is the corrected modifier.
- **The mapper measures the pointer from `(h/2, h/2)`, but the arcs are centred at `(w/2, h/2)`.** So
  the two agree only on square frames (`Arcs.CentresAgreeIffSquare`). Nothing in the source says
  what non-square frames should do, so this is kept rather than corrected.

Two more points where the code is followed:

- The foreground arc starts at `1.5π`, which is straight up in the y-down coordinates. The background
  ring starts at `π/2`, which is straight down.
- Over exact reals and when the stored bound is positive, the written value is strictly below the
  stored bound. When the stored bound is 0 or negative, the clamp writes 0. Before any modifier the
  stored bound is the caller's bound plus one; after n modifiers it is the caller's bound plus 1 + n.

## Model

| member | source | states |
|---|---|---|
| Slider.Make | Sources/CircularSlider/CircularSlider.swift:16-28 | Public init: the bound value is kept and the stored bound is the caller's plus 1. The default theme is tertiary-background inactive colour, blue active colour, and 32-wide round-capped strokes for both arcs. |
| Slider.MakeStyled | Sources/CircularSlider/CircularSlider.swift:30-42 | Internal init: it also stores the given bound plus 1, and keeps the value and all four theme arguments verbatim. |
| Slider.PublicInitIsStyledInitWithDefaults | Sources/CircularSlider/CircularSlider.swift:18-42 | The public init equals the internal init applied to the default theme. |
| Slider.CallerBoundRoundTrip | Sources/CircularSlider/CircularSlider.swift:27-37 | Subtracting 1 from the stored bound recovers exactly the bound passed to either initialiser. |
| Slider.TestConfiguration | Tests/CircularSliderTests/CircularSliderTests.swift:14-34 | Caller bound 24 and value 4 store bound 25 and value 4, with both strokes 32 wide and round-capped. |
| Modifiers.InactiveColor | Sources/CircularSlider/CircularSlider+Modifiers.swift:9-16 | `inactive(color:)` sets the inactive colour to the argument and keeps the other three theme fields and the value. The stored bound becomes the receiver's plus 1. |
| Modifiers.ActiveColor | Sources/CircularSlider/CircularSlider+Modifiers.swift:21-28 | `active(color:)` sets only the active colour among the theme fields and keeps the value. The stored bound grows by 1. |
| Modifiers.InactiveStroke | Sources/CircularSlider/CircularSlider+Modifiers.swift:33-40 | `inactive(stroke:)` sets only the inactive stroke style and keeps the value. The stored bound grows by 1. |
| Modifiers.ActiveStroke | Sources/CircularSlider/CircularSlider+Modifiers.swift:45-52 | `active(stroke:)` sets only the active stroke style and keeps the value. The stored bound grows by 1. |
| Modifiers.Apply | Sources/CircularSlider/CircularSlider+Modifiers.swift:9-52 | Any modifier: the targeted field reads back the argument and every other theme field reads back its old value. The value is kept and the bound grows by 1. |
| Modifiers.Restyle | Sources/CircularSlider/CircularSlider+Modifiers.swift:9-52 | Corrected modifier: the same one-field frame condition, with the stored bound kept. |
| Modifiers.ApplyIsRestyleWithDrift | Sources/CircularSlider/CircularSlider+Modifiers.swift:10-15 | The modifier as written equals the corrected one except that the stored bound is 1 higher. |
| Modifiers.ChainDrift | Sources/CircularSlider/CircularSlider+Modifiers.swift:11 | A chain of n modifier calls keeps the value and raises the stored bound by n, so the bound is caller + 1 + n. |
| Modifiers.DriftExample | Sources/CircularSlider/CircularSlider+Modifiers.swift:9-16 | Caller bound 24: the init stores 25, one `inactive(color:)` stores 26, and the corrected modifier keeps 25. |
| Modifiers.RestyleChainKeepsBound | Sources/CircularSlider/CircularSlider+Modifiers.swift:9-52 | A chain of corrected modifiers keeps both the value and the stored bound. |
| Modifiers.ChainsAgreeOnTheme | Sources/CircularSlider/CircularSlider+Modifiers.swift:9-52 | A chain as written and a corrected chain produce the same four theme fields; they differ only in the bound. |
| Modifiers.UntouchedFieldKept | Sources/CircularSlider/CircularSlider+Modifiers.swift:9-52 | A theme field that no call in a chain targets keeps its original value. |
| Modifiers.LastModifierWins | Sources/CircularSlider/CircularSlider+Modifiers.swift:9-52 | In a chain, a field ends with the argument of the last call that targets it. |
| Modifiers.LaterModifierOverrides | Sources/CircularSlider/CircularSlider+Modifiers.swift:9-52 | Calling a modifier twice on the same field equals calling it once with the second argument, except for a second +1 on the bound. |
| Modifiers.DistinctModifiersCommute | Sources/CircularSlider/CircularSlider+Modifiers.swift:9-52 | Modifiers on different fields give the same record in either order. |
| Mapper.Truncate | Sources/CircularSlider/CircularSlider.swift:90 | `Int(...)` rounds toward zero: the result has the input's sign and lies less than 1 from it, on the zero side. |
| Mapper.IntOfDouble | Sources/CircularSlider/CircularSlider.swift:90 | `Int(...)` succeeds exactly when the truncated value fits in a 64-bit `Int`, and then returns it. Otherwise it traps. |
| Mapper.FixedAngle | Sources/CircularSlider/CircularSlider.swift:89 | Normalisation keeps the direction (it adds 0 or one full turn). It maps `[-2π, 2π)` into `[0, 2π)` and leaves non-negative angles unchanged. |
| Mapper.PointerAngle | Sources/CircularSlider/CircularSlider.swift:87-89 | The pointer angle lies in `[0, 2π)`. It equals the arctangent of the offset from `(radius, radius)` plus π/2, or that plus one full turn. |
| Mapper.Quantise | Sources/CircularSlider/CircularSlider.swift:90 | For an angle in `[0, 2π)`, the result is 0 when the bound is ≤ 0. Otherwise it is a whole number in `[0, bound)`. It never traps when the bound is ≤ 2^63. |
| Mapper.UpdateValue | Sources/CircularSlider/CircularSlider.swift:86-91 | The written value is 0 when the stored bound is ≤ 0. Otherwise it is in `[0, bound)`. There is no trap for bounds ≤ 2^63. |
| Mapper.Drag | Sources/CircularSlider/CircularSlider.swift:58-60 | A drag update with radius height/2 changes only the bound value. The new value is a whole number in `[0, bound)`, or 0 when the bound is ≤ 0. |
| Mapper.NormalisedAngleInOneTurn | Sources/CircularSlider/CircularSlider.swift:88-89 | A raw arctangent in `[-π, π]`, rotated by π/2 and normalised, lies in `[0, 2π)`. |
| Mapper.FixedAngleIdempotent | Sources/CircularSlider/CircularSlider.swift:89 | Normalising twice equals normalising once. |
| Mapper.GuardNeverFires | Sources/CircularSlider/CircularSlider.swift:89-90 | For a normalised angle and a non-negative bound, the `max(0, …)` clamp changes nothing. |
| Mapper.QuantiseIsFloor | Sources/CircularSlider/CircularSlider.swift:90 | The written value n satisfies n ≤ (angle/2π)·bound < n+1: it counts the whole 1/bound-turn steps the pointer has passed. |
| Mapper.QuantiseMonotone | Sources/CircularSlider/CircularSlider.swift:90 | A larger normalised angle never gives a smaller value, and it never traps where the larger angle does not. |
| Mapper.QuantiseInvertsSweep | Sources/CircularSlider/CircularSlider.swift:82-90 | Feeding the mapper the clockwise angle that the foreground arc of a whole value n covers gives back exactly n. |
| Mapper.AxisAngles | Sources/CircularSlider/CircularSlider.swift:87-89 | On a square frame, the top, right, bottom and left points have pointer angles 0, π/2, π and 3π/2. |
| Mapper.TopMapsToZero | Sources/CircularSlider/CircularSlider.swift:87-90 | The pointer at `(r, 0)` writes 0 for every bound. |
| Mapper.RightMapsToQuarter | Sources/CircularSlider/CircularSlider.swift:87-90 | The pointer at `(2r, r)` writes `Int(bound/4)` for a non-negative stored bound, which is `floor(bound/4)` for bounds up to 2^63. |
| Mapper.BottomMapsToHalf | Sources/CircularSlider/CircularSlider.swift:87-90 | The pointer at `(r, 2r)` writes `Int(bound/2)` for a non-negative stored bound. |
| Mapper.LeftMapsToThreeQuarters | Sources/CircularSlider/CircularSlider.swift:87-90 | The pointer at `(0, r)` writes `Int(3·bound/4)` for a non-negative stored bound, whichever sign `atan2` gives there. |
| Mapper.DragRightWithBound24 | Sources/CircularSlider/CircularSlider.swift:86-91 | Caller bound 24 and value 4: dragging to the right edge of a square frame makes the value 6 and changes nothing else. |
| Arcs.StartAngle | Sources/CircularSlider/CircularSlider.swift:76-78 | The background ring starts a quarter turn clockwise from the x axis, which is straight down. The foreground starts at 3π/2, on the same ray as -π/2, which is straight up. |
| Arcs.RenderCentre | Sources/CircularSlider/CircularSlider.swift:72-74 | The arcs' centre is equidistant from the left and right edges of the frame, and from its top and bottom edges. |
| Arcs.StartRaysHitTopAndBottom | Sources/CircularSlider/CircularSlider.swift:72-78 | On a square frame the foreground's start ray points at the top of the ring, where the drag mapper measures angle 0. The background's start ray points at the bottom. |
| Arcs.EndAngle | Sources/CircularSlider/CircularSlider.swift:80-84 | The background ring ends one full turn after its start. The foreground end is finite exactly when the stored bound is nonzero. |
| Arcs.EndAngleRoundTrip | Sources/CircularSlider/CircularSlider.swift:82 | Reading the turn fraction back off the foreground end angle gives exactly value/bound, whatever drag history led to the value. |
| Arcs.EndAngleDeterminesValue | Sources/CircularSlider/CircularSlider.swift:82 | With the same nonzero bound, two sliders draw the same foreground end if and only if their values are equal. |
| Arcs.ZeroValueZeroSweep | Sources/CircularSlider/CircularSlider.swift:76-84 | At value 0 the foreground ends exactly one turn before its start, on the same ray, so it sweeps nothing. |
| Arcs.ForegroundWithinOneTurn | Sources/CircularSlider/CircularSlider.swift:76-84 | For a value in `[0, bound)` the foreground end lies in `[start − 2π, start)`, so the arc never closes the ring. |
| Arcs.CentresAgreeIffSquare | Sources/CircularSlider/CircularSlider.swift:72-74 | The mapper's centre `(h/2, h/2)` equals the arcs' centre `(w/2, h/2)` if and only if w = h. |
| Arcs.MapperOffsetShift | Sources/CircularSlider/CircularSlider.swift:87 | The mapper's offset is the offset from the drawn centre, shifted in x by (w − h)/2. |
| Arcs.DragThenRender | Sources/CircularSlider/CircularSlider.swift:82-90 | After a drag, the redrawn foreground's clockwise extent from straight up is at most the pointer's angle, and less than one 2π/bound step behind it. |

## Findings

| source | as written | input that shows it | evidently intended | confidence | as-written member | corrected member |
|---|---|---|---|---|---|---|
| Sources/CircularSlider/CircularSlider+Modifiers.swift:11 | Every modifier passes the stored, already widened `upperBound` to the internal initialiser, which adds 1 again. | `CircularSlider(value: v, upperBound: 24).inactive(color: .yellow)` stores 26, not 25. Each further modifier adds one more. | A modifier changes one theme field and keeps the stored bound at caller + 1. | high; not executed | Modifiers.DriftExample | Modifiers.RestyleChainKeepsBound |

## Left out

- SwiftUI rendering is left out (`GeometryReader`, `ZStack`, `Path(UIBezierPath…)`, `.stroke`, `.foregroundColor`, `.frame`; CircularSlider.swift:46-70). These are toolkit calls. Only the angles and centre they are given are modelled. How UIKit draws an arc whose end lies a full turn before its start is the toolkit's choice.
- `DragGesture` recognition and its 1-point minimum distance (CircularSlider.swift:58) are left out. The event loop owns them. `Mapper.Drag` is one `onChanged` call.
- The `Binding` get/set machinery is left out. The bound value is the record field `value`.
- Colours and stroke styles are toolkit values. A colour is one of the three the code names or `Custom`. A stroke style is width, cap and join; miter limit and dash are not modelled. The join `Miter` of the default style is the toolkit's default, not something the source sets.
- IEEE-754 rounding is left out: reals are exact. So are NaN and infinite inputs to `Int(...)`, which cannot arise from finite reals. The conversion `Double(Int(...))` is taken as exact, which is true only for magnitudes up to 2^53.
- The real `atan2` is replaced by any function with its range and axis values. Off-axis values are not modelled, so the axis lemmas are the only concrete pointer-to-value results.
- The preview provider (CircularSlider.swift:94-99) and the test file's inspection conformances are left out.
- Mapper.Quantise: when the stored bound exceeds 2^63, its contract says only that the value is below the bound if `Int(...)` does not trap. It does not say which angles trap.
- Mapper.UpdateValue: over exact reals and when the stored bound is positive, the written value never equals the stored bound: it is strictly below it, as `Mapper.UpdateValue` states. In doubles this can fail: a pointer one ulp left of straight up gives a raw angle of about -2.2e-16, adding 2π rounds to exactly 2π, and the value written is then the stored bound itself. IEEE rounding is not modelled (see above), so the model does not show this case.
