/** The CircleIndicator widget: its mutable state, the setters the host calls, and the
    measure and draw callbacks. The host framework itself (View, MeasureSpec, TypedArray,
    invalidate) is not part of this model: measured sizes and attribute values are parameters. */
module Indicator {
  import opened Decimal
  import opened Layout
  import opened DrawPlan

  /** A Java int. */
  type Int32 = x: int | -0x8000_0000 <= x < 0x8000_0000

  /** Android colour constants, as the Java ints of their ARGB words. */
  const BLACK: Int32 := -0x100_0000   // 0xFF000000, the colour of a new Paint
  const GRAY: Int32 := -0x77_7778     // 0xFF888888
  const WHITE: Int32 := -1            // 0xFFFFFFFF
  const BLUE: Int32 := -0xFF_FF01     // 0xFF0000FF

  function Max(a: int, b: int): int {
    if a >= b then a else b
  }

  class CircleIndicator {
    var widthSpecSize: nat
    var heightSpecSize: nat
    var radius: real
    var cx: real
    var cy: real
    var mainBounds: RectF
    var maxValue: Int32
    var value: Int32
    var arcSize: real
    var arcDelimiterSize: real
    var valueString: string
    var lineWidth: real
    /** The colours of the inner, arc-space, arc-value and text paints. */
    var innerColor: Int32
    var arcSpaceColor: Int32
    var arcValueColor: Int32
    var textColor: Int32

    /** What holds of every widget once constructed. The value is NOT kept at or below
        the maximum: setMaxValue does not re-clamp it. */
    ghost predicate Valid()
      reads this
    {
      && maxValue >= 2
      && value >= 0
      && valueString == DecimalString(value)
      && arcSpaceColor == GRAY
    }

    /** The geometry onDraw will use. */
    function CachedGeometry(): Geometry
      reads this
    {
      Geometry(radius, cx, cy, mainBounds, arcSize, arcDelimiterSize, lineWidth)
    }

    /** init: the maximum from its attribute (default 0), then the value, the paints and
        their colours. Every other field keeps Java's zero default until the first measure. */
    constructor (maxValueAttr: Int32, valueAttr: Int32, colorAttr: Int32, backgroundColorAttr: Int32)
      ensures Valid()
      ensures maxValue == Max(maxValueAttr, 2)
      ensures value == Max(0, Min(valueAttr, maxValue))
      ensures arcValueColor == colorAttr && textColor == colorAttr
      ensures innerColor == backgroundColorAttr
      ensures widthSpecSize == 0 && heightSpecSize == 0
      ensures CachedGeometry() == Geometry(0.0, 0.0, 0.0, RectF(0.0, 0.0, 0.0, 0.0), 0.0, 0.0, 0.0)
    {
      widthSpecSize, heightSpecSize := 0, 0;
      radius, cx, cy := 0.0, 0.0, 0.0;
      mainBounds := RectF(0.0, 0.0, 0.0, 0.0);
      maxValue, value := 0, 0;
      arcSize, arcDelimiterSize, lineWidth := 0.0, 0.0, 0.0;
      valueString := "";
      innerColor, arcSpaceColor, arcValueColor, textColor := WHITE, GRAY, BLACK, BLACK;
      new;
      SetMaxValue(maxValueAttr);
      SetValue(valueAttr);
      SetColor(colorAttr);
      SetBackgroundColor(backgroundColorAttr);
    }

    /** setValue clamps into [0, maxValue] and refreshes the cached string. */
    method SetValue(v: Int32)
      requires maxValue >= 0
      modifies this`value, this`valueString
      ensures value == Max(0, Min(v, maxValue))
      ensures 0 <= value <= maxValue
      ensures 0 <= v <= maxValue ==> value == v
      ensures valueString == DecimalString(value) && ParseDecimal(valueString) == value
      ensures old(maxValue >= 2 && arcSpaceColor == GRAY) ==> Valid()
    {
      if v >= 0 && v <= maxValue {
        value := v;
      } else if v < 0 {
        value := 0;
      } else {
        value := maxValue;
      }
      valueString := DecimalString(value);
      DecimalRoundTrip(value);
    }

    /** setMaxValue raises the maximum to at least 2 and leaves the value as it is,
        even when the value is then above the maximum. */
    method SetMaxValue(v: Int32)
      modifies this`maxValue
      ensures maxValue == Max(v, 2)
      ensures maxValue >= 2 && (v >= 2 ==> maxValue == v)
      ensures old(Valid()) ==> Valid()
    {
      maxValue := if v >= 2 then v else 2;
    }

    /** setColor recolours the arc-value and text paints and nothing else. */
    method SetColor(color: Int32)
      modifies this`arcValueColor, this`textColor
      ensures arcValueColor == color && textColor == color
      ensures CachedGeometry() == old(CachedGeometry())
      ensures old(Valid()) ==> Valid()
    {
      arcValueColor := color;
      textColor := color;
    }

    /** setBackgroundColor recolours the inner paint and nothing else. */
    method SetBackgroundColor(color: Int32)
      modifies this`innerColor
      ensures innerColor == color
      ensures CachedGeometry() == old(CachedGeometry())
      ensures old(Valid()) ==> Valid()
    {
      innerColor := color;
    }

    /** onMeasure with the sizes MeasureSpec.getSize extracted. What the measured geometry
        promises is stated about Measure (Layout.MeasureProperties). */
    method OnMeasure(widthSize: nat, heightSize: nat)
      requires Valid()
      modifies this`widthSpecSize, this`heightSpecSize, this`radius, this`cx, this`cy,
               this`mainBounds, this`arcSize, this`arcDelimiterSize, this`lineWidth
      ensures Valid()
      ensures widthSpecSize == widthSize && heightSpecSize == heightSize
      ensures CachedGeometry() == Measure(widthSize, heightSize, maxValue)
    {
      widthSpecSize := widthSize;
      heightSpecSize := heightSize;
      radius := (Min(widthSpecSize, heightSpecSize) / 2) as real * 0.9;
      cx := (widthSpecSize / 2) as real;
      cy := (heightSpecSize / 2) as real;
      mainBounds := RectF(cx - radius, cy - radius, cx + radius, cy + radius);
      CalculateArcSize();
      CalculateLineWidth();
      assert radius == Radius(widthSize, heightSize);
      assert cx == Center(widthSize) && cy == Center(heightSize);
      assert mainBounds == Square(Center(widthSize), Center(heightSize), radius);
      assert lineWidth == LineWidth(radius);
    }

    /** calculateArcSize: a do-while that halves the gap until the arcs that m gaps leave are
        at least as large as the gap. It settles on Delimiter and ArcSize, whose tiling,
        bounds and maximality are the lemmas of Layout. */
    method CalculateArcSize()
      requires maxValue >= 1
      modifies this`arcSize, this`arcDelimiterSize
      ensures arcDelimiterSize == Delimiter(maxValue) && arcSize == ArcSize(maxValue)
    {
      var m := maxValue;
      arcDelimiterSize := ARC_DELIMITER_SIZE;
      arcSize := ARC_DELIMITER_SIZE * 2.0;
      ghost var k: nat := 0;
      HalvingsIsFirstFit(m, 0);
      var first := true;
      while first || arcDelimiterSize > arcSize
        invariant arcDelimiterSize == Gap(k) && k <= Halvings(m, 0)
        invariant first ==> k == 0 && arcSize == ARC_DELIMITER_SIZE * 2.0
        invariant !first ==> arcSize == ArcFor(m, arcDelimiterSize)
        decreases first, Halvings(m, 0) - k
      {
        if arcDelimiterSize > arcSize {
          GapHalves(k);
          arcDelimiterSize := arcDelimiterSize / 2.0;
          k := k + 1;
        }
        arcSize := ArcFor(m, arcDelimiterSize);
        first := false;
      }
    }

    /** calculateLineWidth: a tenth of the radius, at least LINE_WIDTH. */
    method CalculateLineWidth()
      modifies this`lineWidth
      ensures lineWidth == LineWidth(radius)
      ensures lineWidth >= LINE_WIDTH && lineWidth >= radius * 0.1
    {
      lineWidth := radius * 0.1;
      if lineWidth < LINE_WIDTH {
        lineWidth := LINE_WIDTH;
      }
    }

    /** onDraw: the commands it issues, in order. The sector loop advances the start angle
        by arc + gap per sector. */
    method OnDraw() returns (plan: seq<DrawCommand>)
      ensures plan == Plan(value, maxValue, CachedGeometry())
    {
      ghost var g := CachedGeometry();
      plan := [DrawCircle(cx, cy, radius, InnerPaint)];
      var curPaint: Paint;
      if value > 0 && value < maxValue {
        plan := plan + [Save, Rotate(-90.0, cx, cy)];
        ghost var head := plan;
        var angle := arcDelimiterSize;
        for i := 0 to maxValue
          invariant angle == StartAngle(g, i)
          invariant plan == head + Sectors(value, g, i)
        {
          if i < value {
            curPaint := ArcValuePaint;
          } else {
            curPaint := ArcSpacePaint;
          }
          assert DrawArc(mainBounds, angle, arcSize, true, curPaint) == Sector(value, g, i);
          plan := plan + [DrawArc(mainBounds, angle, arcSize, true, curPaint)];
          angle := angle + arcSize + arcDelimiterSize;
          assert Sectors(value, g, i + 1) == Sectors(value, g, i) + [Sector(value, g, i)];
        }
        plan := plan + [Restore];
      } else {
        if value == 0 {
          curPaint := ArcSpacePaint;
        } else {
          curPaint := ArcValuePaint;
        }
        plan := plan + [DrawCircle(cx, cy, radius, curPaint)];
      }
      plan := plan + [DrawCircle(cx, cy, radius - lineWidth, InnerPaint)];
      plan := plan + [DrawText(DecimalString(value), cx, cy, TextPaint)];
    }
  }

  /** setMaxValue does not re-clamp: a value of 10 survives shrinking the maximum to 3,
      and onDraw then fills the whole disc with the value paint. */
  method ShrinkMaxBelowValue() returns (value: int, maxValue: int, disc: DrawCommand)
    ensures value == 10 && maxValue == 3
    ensures disc == DrawCircle(0.0, 0.0, 0.0, ArcValuePaint)
  {
    var widget := new CircleIndicator(10, 10, BLUE, WHITE);
    widget.SetMaxValue(3);
    var plan := widget.OnDraw();
    value, maxValue, disc := widget.value, widget.maxValue, plan[1];
  }

  /** setMaxValue does not re-measure: after measuring ten segments (31-degree arcs, 5-degree
      gaps) and raising the maximum to 20, onDraw draws 20 sectors whose last one ends at
      720 degrees, twice round the circle. */
  method StaleGeometryAfterRaisingMax() returns (sectorCount: int, lastEnd: real)
    ensures sectorCount == 20 && lastEnd == 720.0
  {
    var widget := new CircleIndicator(10, 5, BLUE, WHITE);
    widget.OnMeasure(200, 200);
    TenSegments();
    assert widget.arcSize == 31.0 && widget.arcDelimiterSize == 5.0;
    widget.SetMaxValue(20);
    var plan := widget.OnDraw();
    ghost var g := widget.CachedGeometry();
    SegmentedArcs(5, 20, g);
    var sectors := ArcsOf(plan);
    sectorCount := |sectors|;
    assert sectors[19] == Sector(5, g, 19);
    SectorEnd(g, 20);
    lastEnd := sectors[19].startAngle + sectors[19].sweepAngle;
  }
}
