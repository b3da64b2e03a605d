# CircleIndicator, modelled in Dafny

`CircleIndicator` is an Android `View` that shows a value out of a maximum as a ring of
`maxValue` coloured sectors around a disc, with the value written in the middle. When it is
measured, it caches its geometry:
- the radius, 90% of half the smaller side;
- the centre;
- the square that bounds the arcs;
- the sector and gap angles, found by a gap-halving search;
- the ring width.

When it is drawn, it issues one of two sets of canvas calls:
- strictly between 0 and the maximum, one sector per segment, with the first `value` sectors
  in the value paint;
- otherwise, one solid disc.

The project has four modules:

- `Decimal` (`decimal.dfy`): `String.valueOf(int)` as `DecimalString`, with its parser
  `ParseDecimal` as its inverse. The two round trips are proved.
- `Layout` (`layout.dfy`): everything `onMeasure` computes, as pure functions. The do-while
  of `calculateArcSize` is specified by `Halvings`, the number of times the 5-degree gap is
  halved before the arcs are at least as large as the gap. `Delimiter` and `ArcSize` give the
  gap and arc the search settles on.
- `DrawPlan` (`draw_plan.dfy`): what `onDraw` paints, as a list of canvas commands (`Plan`).
  It also has the lemmas about that list: its frame, its sectors, where each sector starts,
  and when the last sector closes the circle.
- `Indicator` (`circle_indicator.dfy`): the widget as a class. The fields are those of the
  Java class. There are:
  - the four setters;
  - `init` as the constructor;
  - `OnMeasure` with its helpers `CalculateArcSize` (the do-while loop) and
    `CalculateLineWidth`;
  - `OnDraw`, whose sector loop is proved to produce `Plan`.

  Two scenario methods show what `setMaxValue` leaves inconsistent.

Java `float` arithmetic is modelled with exact reals, and Java `int` with the subset type
`Int32`. The measured sizes (the result of `MeasureSpec.getSize`) are parameters. So are the
attribute values `init` reads from its `TypedArray`.

**The value does not always stay within `[0, maxValue]`, and the model follows the code.**
One would expect the widget to keep the value in that range, and `setValue` does clamp it
(CircleIndicator.java:169-175). But `setMaxValue` (CircleIndicator.java:181) does not keep it
there:
- `setMaxValue` coerces the maximum to at least 2;
- it does not re-clamp the value;
- it does not recompute the cached geometry.

`Valid()` therefore has `value >= 0` but not `value <= maxValue`.
`Indicator.ShrinkMaxBelowValue` shows a value of 10 surviving a maximum of 3. `onDraw` then
paints a solid value-coloured disc. `Indicator.StaleGeometryAfterRaisingMax` shows 20 sectors
drawn with the arc and gap measured for 10 segments, so the last sector ends at 720 degrees.

One would expect the solid disc only for a value of exactly 0 or exactly the maximum. The
code (CircleIndicator.java:138, :152-159) takes that branch for any value outside
`(0, maxValue)`. This includes a value left above a shrunken maximum. `DrawPlan.Plan` and `DrawPlan.SolidPlan` follow the code.

## Model

| member | source | states |
|---|---|---|
| Decimal.DecimalString | app/src/main/java/com/example/alien/course05task08/CircleIndicator.java:176 | The decimal string of an int has the form `String.valueOf` produces: an optional minus sign, then digits with no leading zero. It starts with '-' exactly when the int is negative. |
| Decimal.DecimalRoundTrip | app/src/main/java/com/example/alien/course05task08/CircleIndicator.java:176 | Parsing the decimal string of any int gives that int back. |
| Decimal.CanonicalRoundTrip | app/src/main/java/com/example/alien/course05task08/CircleIndicator.java:176 | Every string of the canonical form is the decimal string of the int it denotes. |
| Decimal.DecimalStringInjective | app/src/main/java/com/example/alien/course05task08/CircleIndicator.java:165 | Distinct values are drawn as distinct texts. |
| Layout.LineWidth | app/src/main/java/com/example/alien/course05task08/CircleIndicator.java:126-131 | The ring width is the larger of a tenth of the radius and LINE_WIDTH: it is at least both, and equal to one of them. |
| Layout.ArcForTiles | app/src/main/java/com/example/alien/course05task08/CircleIndicator.java:122 | For any gap, m arcs of the recomputed size plus m gaps make exactly 360 degrees. |
| Layout.FitsIff | app/src/main/java/com/example/alien/course05task08/CircleIndicator.java:119-123 | The loop's stop test (gap not larger than arc) holds exactly when m gaps take at most 180 degrees. |
| Layout.GapFitsIff | app/src/main/java/com/example/alien/course05task08/CircleIndicator.java:119-123 | After k halvings the gap fits exactly when 5*m <= 180*2^k. |
| Layout.HalvingStep | app/src/main/java/com/example/alien/course05task08/CircleIndicator.java:119-123 | A gap that does not fit is halved. The search goes on from the halved gap. Its termination measure 5*m - 180*2^k is non-negative and drops. |
| Layout.GapHalves | app/src/main/java/com/example/alien/course05task08/CircleIndicator.java:120 | Each halving step halves the gap. |
| Layout.HalvingsIsFirstFit | app/src/main/java/com/example/alien/course05task08/CircleIndicator.java:115-124 | The search stops at the first halving count whose gap fits. No earlier count fits. |
| Layout.DelimiterTiles | app/src/main/java/com/example/alien/course05task08/CircleIndicator.java:115-124 | The settled gap is 5/2^k degrees and positive, and at most the arc. The m arcs and m gaps tile the full circle. |
| Layout.DelimiterUnhalvedIff | app/src/main/java/com/example/alien/course05task08/CircleIndicator.java:115-124 | The gap is never halved exactly when m <= 36. In that case it stays 5 degrees. |
| Layout.DelimiterIsLargest | app/src/main/java/com/example/alien/course05task08/CircleIndicator.java:115-124 | If the gap was halved at all, twice the settled gap would not fit: the gap is the largest of its form. |
| Layout.TenSegments | app/src/main/java/com/example/alien/course05task08/CircleIndicator.java:115-124 | Ten segments get a 5-degree gap and 31-degree arcs. |
| Layout.MeasureProperties | app/src/main/java/com/example/alien/course05task08/CircleIndicator.java:86-99 | The measured geometry is as follows. The radius is non-negative and at most 90% of half the smaller side. The bounds are a square of half-side radius centred on (cx, cy). The sectors tile the circle with 0 < gap <= arc. The ring is at least LINE_WIDTH wide. |
| Layout.RadiusOf200By100 | app/src/main/java/com/example/alien/course05task08/CircleIndicator.java:90 | A 200 x 100 space gives radius 45. |
| DrawPlan.StartAngleClosedForm | app/src/main/java/com/example/alien/course05task08/CircleIndicator.java:141-149 | The accumulated start angle of sector i is gap + i*(arc + gap). |
| DrawPlan.SectorEnd | app/src/main/java/com/example/alien/course05task08/CircleIndicator.java:141-149 | Sector n-1 ends after n arcs and n gaps. |
| DrawPlan.PlanFrame | app/src/main/java/com/example/alien/course05task08/CircleIndicator.java:134-166 | Every draw starts with the full background disc. It ends with the inner disc of radius radius - lineWidth and the decimal text of the value at the centre. |
| DrawPlan.SegmentedArcs | app/src/main/java/com/example/alien/course05task08/CircleIndicator.java:142-150 | The arc commands of a segmented draw are exactly the maxValue sectors, in order. |
| DrawPlan.SegmentedPlan | app/src/main/java/com/example/alien/course05task08/CircleIndicator.java:138-151 | A segmented draw has maxValue + 6 commands, in a rotated frame. Its order is: background disc, save, rotate -90 about the centre, the sectors, restore, inner disc, text. It has exactly maxValue arcs. Arc i has the following properties: it is a wedge (useCenter) drawn in the bounds; it starts at the accumulated angle and spans one arc; it uses the value paint exactly when i < value, and the space paint otherwise. |
| DrawPlan.SectorStartsAt | app/src/main/java/com/example/alien/course05task08/CircleIndicator.java:141-149 | Sector i of a segmented draw starts at gap + i*(arc + gap). |
| DrawPlan.LastSectorEndsAt360 | app/src/main/java/com/example/alien/course05task08/CircleIndicator.java:141-149 | When the cached arc and gap tile the circle for the current maximum, the last sector ends exactly at 360 degrees. |
| DrawPlan.MeasuredPlanClosesCircle | app/src/main/java/com/example/alien/course05task08/CircleIndicator.java:138-150 | With the geometry measured for the current maximum, the last sector of a segmented draw ends exactly at 360 degrees. |
| DrawPlan.SolidPlan | app/src/main/java/com/example/alien/course05task08/CircleIndicator.java:152-159 | Outside (0, maxValue) the draw has four commands and no arc. The second is a full-radius disc at the centre. Its paint is the space paint exactly when the value is 0, and the value paint otherwise. |
| DrawPlan.TenSegmentsFourFilled | app/src/main/java/com/example/alien/course05task08/CircleIndicator.java:138-150 | Value 4 of 10, in any measured space, draws ten 31-degree sectors starting at 5 + 36*i degrees. All are wedges. The first four are in the value paint and the other six in the space paint. |
| Indicator.CircleIndicator.constructor | app/src/main/java/com/example/alien/course05task08/CircleIndicator.java:53-83 | init sets the maximum to max(attribute, 2), then the value clamped into [0, maximum]. The arc-value and text paints get the colour attribute, and the inner paint the background-colour attribute. The geometry stays at Java's zero defaults. |
| Indicator.CircleIndicator.SetValue | app/src/main/java/com/example/alien/course05task08/CircleIndicator.java:168-178 | The value becomes max(0, min(v, maxValue)): in range, and v itself when v is in range. The cached string is its decimal string and parses back to it. |
| Indicator.CircleIndicator.SetMaxValue | app/src/main/java/com/example/alien/course05task08/CircleIndicator.java:180-182 | The maximum becomes max(v, 2). Only the maximum changes: the value is not re-clamped. |
| Indicator.CircleIndicator.SetColor | app/src/main/java/com/example/alien/course05task08/CircleIndicator.java:184-188 | The arc-value and text colours become the colour. The geometry and the other state are unchanged. |
| Indicator.CircleIndicator.SetBackgroundColor | app/src/main/java/com/example/alien/course05task08/CircleIndicator.java:190-193 | The inner colour becomes the colour. The geometry and the other state are unchanged. |
| Indicator.CircleIndicator.OnMeasure | app/src/main/java/com/example/alien/course05task08/CircleIndicator.java:86-102 | The sizes are recorded. The cached geometry becomes Measure(width, height, maxValue), whose properties are Layout.MeasureProperties. |
| Indicator.CircleIndicator.CalculateArcSize | app/src/main/java/com/example/alien/course05task08/CircleIndicator.java:115-124 | The do-while ends with the gap Delimiter(maxValue) and the arc ArcSize(maxValue), that is, after exactly Halvings(maxValue, 0) halvings. |
| Indicator.CircleIndicator.CalculateLineWidth | app/src/main/java/com/example/alien/course05task08/CircleIndicator.java:126-131 | The ring width becomes LineWidth(radius): at least LINE_WIDTH and at least a tenth of the radius. |
| Indicator.CircleIndicator.OnDraw | app/src/main/java/com/example/alien/course05task08/CircleIndicator.java:134-166 | The commands issued are exactly Plan(value, maxValue, cached geometry). Their shape is given by the DrawPlan lemmas. |
| Indicator.ShrinkMaxBelowValue | app/src/main/java/com/example/alien/course05task08/CircleIndicator.java:180-182 | After value 10, shrinking the maximum to 3 leaves the value at 10. The draw then fills the disc with the value paint. |
| Indicator.StaleGeometryAfterRaisingMax | app/src/main/java/com/example/alien/course05task08/CircleIndicator.java:180-182 | After measuring for 10 segments, raising the maximum to 20 draws 20 sectors with the old angles. The last one ends at 720 degrees. |

## Left out

- `calculateTextSize`: it depends on `Paint.measureText` and font metrics. The text size and
  the text alignment are not modelled.
- The vertical offset of the value text (`getTextBounds(...).height() / 2`) depends on font
  metrics. `DrawText` records the centre as its anchor.
- Canvas rasterisation: the draw commands are recorded, not executed. `Rotate(-90)` is
  recorded, not folded into the angles; the sector angles are the `drawArc` arguments,
  measured from 12 o'clock in the rotated frame.
- 32-bit float rounding: Java floats (`0.9f`, `0.1f`, the arc and gap divisions) are exact
  reals. Rounding can make float results differ from the exact values that are proved.
- The View lifecycle and framework calls are left out: `MeasureSpec` mode bits,
  `setMeasuredDimension`, `invalidate`, the `TypedArray` lookup, `recycle`, the anti-alias and
  style flags of the paints.
- Indicator.CircleIndicator.constructor: Java's `valueString` is `null` until `setValue` first
  runs; the model starts it at `""` and `setValue` overwrites it before any use.
- Indicator.CircleIndicator.OnMeasure: the contract states the geometry as `Measure`. Its
  properties (square bounds, tiling, bounds on gap and ring width) are stated once, in
  `Layout.MeasureProperties`, rather than repeated in the method's `ensures`.
- Indicator.CircleIndicator.CalculateArcSize: the contract states the result as `Delimiter`
  and `ArcSize`. Tiling, positivity and maximality are the lemmas `Layout.DelimiterTiles`,
  `Layout.DelimiterUnhalvedIff` and `Layout.DelimiterIsLargest`.
- Colour values: the model keeps the colour ints only. It does not model how Android
  interprets their ARGB bits.
