/** What onDraw paints, as a list of canvas commands. The commands name the paint
    object they use; the paints' colours are state of the widget. */
module DrawPlan {
  import opened Decimal
  import opened Layout

  /** The four paint objects of the widget. */
  datatype Paint = InnerPaint | ArcSpacePaint | ArcValuePaint | TextPaint

  /** Canvas calls. The -90 degree rotation is recorded, not applied to the angles. DrawText
      records the centre as its anchor: the vertical offset by the measured text height
      depends on font metrics and is not part of this model. */
  datatype DrawCommand =
    | DrawCircle(cx: real, cy: real, radius: real, paint: Paint)
    | Save
    | Rotate(degrees: real, px: real, py: real)
    | DrawArc(oval: RectF, startAngle: real, sweepAngle: real, useCenter: bool, paint: Paint)
    | Restore
    | DrawText(text: string, x: real, y: real, paint: Paint)

  /** onDraw draws the ring segment by segment only strictly between the two extremes. */
  predicate Segmented(value: int, maxValue: int) {
    0 < value && value < maxValue
  }

  /** Where sector i starts: one gap past 12 o'clock, then one arc and one gap per sector. */
  function StartAngle(g: Geometry, i: nat): real {
    if i == 0 then g.arcDelimiterSize
    else StartAngle(g, i - 1) + g.arcSize + g.arcDelimiterSize
  }

  lemma {:induction false} StartAngleClosedForm(g: Geometry, i: nat)
    ensures StartAngle(g, i) == g.arcDelimiterSize + i as real * (g.arcSize + g.arcDelimiterSize)
  {
    if i > 0 {
      StartAngleClosedForm(g, i - 1);
    }
  }

  /** Sector n-1 ends where n arcs and n gaps end. */
  lemma {:induction false} SectorEnd(g: Geometry, n: nat)
    requires n >= 1
    ensures StartAngle(g, n - 1) + g.arcSize == n as real * (g.arcSize + g.arcDelimiterSize)
  {
    if n > 1 {
      SectorEnd(g, n - 1);
      var step := g.arcSize + g.arcDelimiterSize;
      assert n as real * step == (n - 1) as real * step + step;
    }
  }

  /** Sector i: value paint for the first `value` sectors, space paint after them. */
  function Sector(value: int, g: Geometry, i: nat): DrawCommand {
    DrawArc(g.bounds, StartAngle(g, i), g.arcSize, true,
            if i < value then ArcValuePaint else ArcSpacePaint)
  }

  function Sectors(value: int, g: Geometry, n: nat): seq<DrawCommand> {
    seq(n, i requires 0 <= i < n => Sector(value, g, i))
  }

  /** The commands onDraw issues for a value, a maximum and the cached geometry. */
  function Plan(value: int, maxValue: int, g: Geometry): seq<DrawCommand> {
    [DrawCircle(g.cx, g.cy, g.radius, InnerPaint)]
    + (if Segmented(value, maxValue) then
         [Save, Rotate(-90.0, g.cx, g.cy)] + Sectors(value, g, maxValue) + [Restore]
       else
         [DrawCircle(g.cx, g.cy, g.radius, if value == 0 then ArcSpacePaint else ArcValuePaint)])
    + [DrawCircle(g.cx, g.cy, g.radius - g.lineWidth, InnerPaint),
       DrawText(DecimalString(value), g.cx, g.cy, TextPaint)]
  }

  /** The sector commands of a plan, in order. */
  function ArcsOf(plan: seq<DrawCommand>): seq<DrawCommand> {
    if plan == [] then []
    else (if plan[0].DrawArc? then [plan[0]] else []) + ArcsOf(plan[1..])
  }

  lemma {:induction false} ArcsOfConcat(a: seq<DrawCommand>, b: seq<DrawCommand>)
    ensures ArcsOf(a + b) == ArcsOf(a) + ArcsOf(b)
  {
    if a == [] {
      assert a + b == b;
    } else {
      assert (a + b)[0] == a[0];
      assert (a + b)[1..] == a[1..] + b;
      ArcsOfConcat(a[1..], b);
    }
  }

  lemma {:induction false} ArcsOfNoArcs(s: seq<DrawCommand>)
    requires forall i :: 0 <= i < |s| ==> !s[i].DrawArc?
    ensures ArcsOf(s) == []
  {
    if s != [] {
      ArcsOfNoArcs(s[1..]);
    }
  }

  lemma {:induction false} ArcsOfOnlyArcs(s: seq<DrawCommand>)
    requires forall i :: 0 <= i < |s| ==> s[i].DrawArc?
    ensures ArcsOf(s) == s
  {
    if s != [] {
      ArcsOfOnlyArcs(s[1..]);
    }
  }

  /** Every plan paints the background disc first, then, last, the inner disc that
      leaves a ring of width lineWidth, and the decimal text of the value. */
  lemma PlanFrame(value: int, maxValue: int, g: Geometry)
    ensures var p := Plan(value, maxValue, g);
      && |p| >= 4
      && p[0] == DrawCircle(g.cx, g.cy, g.radius, InnerPaint)
      && p[|p| - 2] == DrawCircle(g.cx, g.cy, g.radius - g.lineWidth, InnerPaint)
      && p[|p| - 1] == DrawText(DecimalString(value), g.cx, g.cy, TextPaint)
  {
  }

  /** A segmented plan: background disc, rotated frame, the sectors, restored frame, inner disc, text. */
  lemma SegmentedShape(value: int, maxValue: int, g: Geometry)
    requires Segmented(value, maxValue)
    ensures Plan(value, maxValue, g)
      == [DrawCircle(g.cx, g.cy, g.radius, InnerPaint), Save, Rotate(-90.0, g.cx, g.cy)]
         + Sectors(value, g, maxValue)
         + [Restore, DrawCircle(g.cx, g.cy, g.radius - g.lineWidth, InnerPaint),
            DrawText(DecimalString(value), g.cx, g.cy, TextPaint)]
  {
  }

  /** In a segmented plan the sector commands are exactly Sectors(value, g, maxValue). */
  lemma SegmentedArcs(value: int, maxValue: int, g: Geometry)
    requires Segmented(value, maxValue)
    ensures ArcsOf(Plan(value, maxValue, g)) == Sectors(value, g, maxValue)
  {
    var sectors := Sectors(value, g, maxValue);
    var head := [DrawCircle(g.cx, g.cy, g.radius, InnerPaint), Save, Rotate(-90.0, g.cx, g.cy)];
    var tail := [Restore, DrawCircle(g.cx, g.cy, g.radius - g.lineWidth, InnerPaint),
                 DrawText(DecimalString(value), g.cx, g.cy, TextPaint)];
    SegmentedShape(value, maxValue, g);
    ArcsOfConcat(head + sectors, tail);
    ArcsOfConcat(head, sectors);
    ArcsOfOnlyArcs(sectors);
    ArcsOfNoArcs(head);
    ArcsOfNoArcs(tail);
  }

  /** Strictly between 0 and the maximum, the plan is: background disc, save, rotate, the
      maxValue sectors, restore, inner disc, text. Sector i is a wedge that starts where i arcs
      and i gaps past the first gap end, spans one arc, and uses the value paint when i < value
      and the space paint otherwise. */
  lemma SegmentedPlan(value: int, maxValue: int, g: Geometry)
    requires Segmented(value, maxValue)
    ensures var p := Plan(value, maxValue, g);
      && |p| == maxValue + 6
      && p[0] == DrawCircle(g.cx, g.cy, g.radius, InnerPaint)
      && p[1] == Save && p[2] == Rotate(-90.0, g.cx, g.cy)
      && p[3..|p| - 3] == Sectors(value, g, maxValue)
      && p[|p| - 3] == Restore
      && p[|p| - 2] == DrawCircle(g.cx, g.cy, g.radius - g.lineWidth, InnerPaint)
      && p[|p| - 1] == DrawText(DecimalString(value), g.cx, g.cy, TextPaint)
      && var arcs := ArcsOf(p);
      && |arcs| == maxValue
      && forall i :: 0 <= i < maxValue ==>
           && arcs[i].DrawArc?
           && arcs[i].oval == g.bounds
           && arcs[i].startAngle == StartAngle(g, i)
           && arcs[i].sweepAngle == g.arcSize
           && arcs[i].useCenter
           && (arcs[i].paint == ArcValuePaint <==> i < value)
           && (i >= value ==> arcs[i].paint == ArcSpacePaint)
  {
    SegmentedShape(value, maxValue, g);
    SegmentedArcs(value, maxValue, g);
    var arcs := ArcsOf(Plan(value, maxValue, g));
    forall i | 0 <= i < maxValue
      ensures && arcs[i].DrawArc?
              && arcs[i].oval == g.bounds
              && arcs[i].startAngle == StartAngle(g, i)
              && arcs[i].sweepAngle == g.arcSize
              && arcs[i].useCenter
              && (arcs[i].paint == ArcValuePaint <==> i < value)
              && (i >= value ==> arcs[i].paint == ArcSpacePaint)
    {
      assert arcs[i] == Sector(value, g, i);
    }
  }

  /** Sector i of a segmented plan starts at gap + i*(arc + gap). */
  lemma SectorStartsAt(value: int, maxValue: int, g: Geometry, i: nat)
    requires Segmented(value, maxValue) && i < maxValue
    ensures var arcs := ArcsOf(Plan(value, maxValue, g));
      && |arcs| == maxValue
      && arcs[i].DrawArc?
      && arcs[i].startAngle == g.arcDelimiterSize + i as real * (g.arcSize + g.arcDelimiterSize)
  {
    SegmentedPlan(value, maxValue, g);
    StartAngleClosedForm(g, i);
  }

  /** When the cached arcs and gaps tile the circle for the current maximum, the last
      sector of a segmented plan ends exactly at 360 degrees. */
  lemma LastSectorEndsAt360(value: int, maxValue: int, g: Geometry)
    requires Segmented(value, maxValue)
    requires maxValue as real * (g.arcSize + g.arcDelimiterSize) == 360.0
    ensures var arcs := ArcsOf(Plan(value, maxValue, g));
      && |arcs| == maxValue
      && arcs[maxValue - 1].DrawArc?
      && arcs[maxValue - 1].startAngle + arcs[maxValue - 1].sweepAngle == 360.0
  {
    SegmentedArcs(value, maxValue, g);
    assert ArcsOf(Plan(value, maxValue, g))[maxValue - 1] == Sector(value, g, maxValue - 1);
    SectorEnd(g, maxValue);
  }

  /** With the geometry measured for the current maximum, a segmented plan's last sector
      ends exactly at 360 degrees. */
  lemma MeasuredPlanClosesCircle(w: nat, h: nat, value: int, maxValue: int)
    requires Segmented(value, maxValue)
    ensures var arcs := ArcsOf(Plan(value, maxValue, Measure(w, h, maxValue)));
      && |arcs| == maxValue
      && arcs[maxValue - 1].DrawArc?
      && arcs[maxValue - 1].startAngle + arcs[maxValue - 1].sweepAngle == 360.0
  {
    var g := Measure(w, h, maxValue);
    DelimiterTiles(maxValue);
    assert maxValue as real * (g.arcSize + g.arcDelimiterSize) == 360.0;
    LastSectorEndsAt360(value, maxValue, g);
  }

  /** At the extremes, and for a value beyond the maximum, the plan has no sectors: one
      full-radius disc in the space paint exactly when the value is 0, else in the value paint. */
  lemma SolidPlan(value: int, maxValue: int, g: Geometry)
    requires !Segmented(value, maxValue)
    ensures var p := Plan(value, maxValue, g);
      && |p| == 4
      && ArcsOf(p) == []
      && p[1].DrawCircle? && p[1].radius == g.radius && p[1].cx == g.cx && p[1].cy == g.cy
      && (p[1].paint == ArcSpacePaint <==> value == 0)
      && (value != 0 ==> p[1].paint == ArcValuePaint)
  {
    ArcsOfNoArcs(Plan(value, maxValue, g));
  }

  /** Ten segments with four filled, in any measured space: ten sectors of 31 degrees starting
      5 degrees past 12 o'clock and 36 degrees apart, the first four in the value paint and the
      other six in the space paint. */
  lemma TenSegmentsFourFilled(w: nat, h: nat)
    ensures var arcs := ArcsOf(Plan(4, 10, Measure(w, h, 10)));
      && |arcs| == 10
      && forall i :: 0 <= i < 10 ==>
           && arcs[i].DrawArc?
           && arcs[i].startAngle == 5.0 + 36.0 * i as real
           && arcs[i].sweepAngle == 31.0
           && arcs[i].useCenter
           && (arcs[i].paint == ArcValuePaint <==> i < 4)
           && (4 <= i ==> arcs[i].paint == ArcSpacePaint)
  {
    DelimiterUnhalvedIff(10);
    var g := Measure(w, h, 10);
    SegmentedPlan(4, 10, g);
    forall i | 0 <= i < 10
      ensures StartAngle(g, i) == 5.0 + 36.0 * i as real
    {
      StartAngleClosedForm(g, i);
    }
  }
}
