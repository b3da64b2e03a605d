/** The geometry CircleIndicator computes when it is measured: radius, centre,
    bounding square, per-segment arc and gap angles (in degrees) and ring width.
    Java floats are exact reals here. */
module Layout {

  /** Floor of the ring's stroke width. */
  const LINE_WIDTH: real := 5.0
  /** The gap between segments before any halving, in degrees. */
  const ARC_DELIMITER_SIZE: real := 5.0

  datatype RectF = RectF(left: real, top: real, right: real, bottom: real)

  /** Everything onMeasure caches for onDraw. */
  datatype Geometry = Geometry(
    radius: real,
    cx: real,
    cy: real,
    bounds: RectF,
    arcSize: real,
    arcDelimiterSize: real,
    lineWidth: real)

  function Min(a: int, b: int): int {
    if a <= b then a else b
  }

  /** Half the smaller side, halved by Java integer division BEFORE the 0.9 scaling. */
  function Radius(w: nat, h: nat): real {
    (Min(w, h) / 2) as real * 0.9
  }

  /** A centre coordinate: half the side, by Java integer division. */
  function Center(side: nat): real {
    (side / 2) as real
  }

  /** The square of half-side r around (cx, cy). */
  function Square(cx: real, cy: real, r: real): RectF {
    RectF(cx - r, cy - r, cx + r, cy + r)
  }

  /** A tenth of the radius, but never less than LINE_WIDTH. */
  function LineWidth(radius: real): (lw: real)
    ensures lw >= LINE_WIDTH && lw >= radius * 0.1
    ensures lw == LINE_WIDTH || lw == radius * 0.1
  {
    if radius * 0.1 < LINE_WIDTH then LINE_WIDTH else radius * 0.1
  }

  function Pow2(k: nat): (p: nat)
    ensures p >= 1
  {
    if k == 0 then 1 else 2 * Pow2(k - 1)
  }

  /** The gap after k halvings of ARC_DELIMITER_SIZE. */
  function Gap(k: nat): real {
    ARC_DELIMITER_SIZE / Pow2(k) as real
  }

  /** The arc that m segments with gap `gap` between them leave for each segment. */
  function ArcFor(m: int, gap: real): real
    requires m >= 1
  {
    (360.0 - gap * m as real) / m as real
  }

  /** The search stops once the arc is at least as large as the gap. */
  predicate Fits(m: int, gap: real)
    requires m >= 1
  {
    gap <= ArcFor(m, gap)
  }

  /** m segments and m gaps of ArcFor tile the full circle, whatever the gap. */
  lemma ArcForTiles(m: int, gap: real)
    requires m >= 1
    ensures m as real * (ArcFor(m, gap) + gap) == 360.0
  {
    var mr := m as real;
    assert mr * ArcFor(m, gap) == 360.0 - gap * mr;
  }

  /** A gap fits exactly when m gaps take at most half the circle. */
  lemma FitsIff(m: int, gap: real)
    requires m >= 1
    ensures Fits(m, gap) <==> gap * m as real <= 180.0
  {
    var mr := m as real;
    assert mr * ArcFor(m, gap) == 360.0 - gap * mr;
    if gap <= ArcFor(m, gap) {
      assert mr * gap <= mr * ArcFor(m, gap);
    } else {
      assert mr * gap > mr * ArcFor(m, gap);
    }
  }

  lemma DivAtMost(a: real, p: real, c: real)
    requires p > 0.0
    ensures a / p <= c <==> a <= c * p
  {
  }

  /** The gap after k halvings fits exactly when 5*m <= 180*2^k. */
  lemma GapFitsIff(m: int, k: nat)
    requires m >= 1
    ensures Fits(m, Gap(k)) <==> 5 * m <= 180 * Pow2(k)
  {
    FitsIff(m, Gap(k));
    var p := Pow2(k) as real;
    var mr := m as real;
    assert Gap(k) * mr == (5.0 * mr) / p;
    DivAtMost(5.0 * mr, p, 180.0);
  }

  /** How many halvings, counting from k, the gap search of calculateArcSize makes before the gap fits. */
  function Halvings(m: int, k: nat): nat
    requires m >= 1
    decreases 5 * m - 180 * Pow2(k)
  {
    if Fits(m, Gap(k)) then k
    else
      GapFitsIff(m, k);
      Halvings(m, k + 1)
  }

  /** One more halving: the search goes on from the halved gap, and the termination
      measure 5*m - 180*2^k is non-negative and drops. */
  lemma HalvingStep(m: int, k: nat)
    requires m >= 1 && !Fits(m, Gap(k))
    ensures Halvings(m, k + 1) == Halvings(m, k)
    ensures Gap(k) / 2.0 == Gap(k + 1)
    ensures 0 <= 5 * m - 180 * Pow2(k) && 5 * m - 180 * Pow2(k + 1) < 5 * m - 180 * Pow2(k)
  {
    GapFitsIff(m, k);
    GapHalves(k);
  }

  /** The gap calculateArcSize settles on for m segments. */
  function Delimiter(m: int): real
    requires m >= 1
  {
    Gap(Halvings(m, 0))
  }

  /** The arc calculateArcSize settles on for m segments. */
  function ArcSize(m: int): real
    requires m >= 1
  {
    ArcFor(m, Delimiter(m))
  }

  /** Halvings stops at the first fitting gap from k on. */
  lemma {:induction false} HalvingsIsFirstFit(m: int, k: nat)
    requires m >= 1
    ensures Halvings(m, k) >= k
    ensures Fits(m, Gap(Halvings(m, k)))
    ensures forall i :: k <= i < Halvings(m, k) ==> !Fits(m, Gap(i))
    decreases 5 * m - 180 * Pow2(k)
  {
    if !Fits(m, Gap(k)) {
      GapFitsIff(m, k);
      HalvingsIsFirstFit(m, k + 1);
    }
  }

  lemma GapHalves(k: nat)
    ensures Gap(k + 1) * 2.0 == Gap(k)
  {
    assert Pow2(k + 1) as real == 2.0 * Pow2(k) as real;
  }

  /** The gap search ends with a positive gap of 5/2^k degrees and arcs at least as large,
      the m arcs and m gaps tiling the full circle. */
  lemma DelimiterTiles(m: int)
    requires m >= 1
    ensures m as real * (ArcSize(m) + Delimiter(m)) == 360.0
    ensures 0.0 < Delimiter(m) <= ArcSize(m)
    ensures Delimiter(m) == ARC_DELIMITER_SIZE / Pow2(Halvings(m, 0)) as real
  {
    ArcForTiles(m, Delimiter(m));
    HalvingsIsFirstFit(m, 0);
  }

  /** The gap is the full 5 degrees exactly when there are at most 36 segments. */
  lemma DelimiterUnhalvedIff(m: int)
    requires m >= 1
    ensures Halvings(m, 0) == 0 <==> m <= 36
    ensures m <= 36 ==> Delimiter(m) == ARC_DELIMITER_SIZE
  {
    GapFitsIff(m, 0);
    HalvingsIsFirstFit(m, 0);
  }

  /** Ten segments keep the full 5-degree gap and get 31-degree arcs. */
  lemma TenSegments()
    ensures Delimiter(10) == 5.0 && ArcSize(10) == 31.0
  {
    DelimiterUnhalvedIff(10);
  }

  /** The gap is the largest of the form 5/2^k that fits: when it was halved at all,
      twice the gap would not fit. */
  lemma DelimiterIsLargest(m: int)
    requires m >= 1
    ensures Halvings(m, 0) > 0 ==> !Fits(m, 2.0 * Delimiter(m))
  {
    var k := Halvings(m, 0);
    HalvingsIsFirstFit(m, 0);
    if k > 0 {
      GapHalves(k - 1);
      assert !Fits(m, Gap(k - 1));
    }
  }

  /** The geometry onMeasure computes for a w x h space and m segments. */
  function Measure(w: nat, h: nat, m: int): Geometry
    requires m >= 1
  {
    var r := Radius(w, h);
    Geometry(r, Center(w), Center(h), Square(Center(w), Center(h), r),
             ArcSize(m), Delimiter(m), LineWidth(r))
  }

  /** What a measured geometry promises: a non-negative radius of 90% of half the smaller side,
      the bounds a square of that half-side around the centre, the segments tiling the circle,
      and a ring at least LINE_WIDTH thick. */
  lemma MeasureProperties(w: nat, h: nat, m: int)
    requires m >= 1
    ensures var g := Measure(w, h, m);
      && 0.0 <= g.radius
      && g.radius <= Min(w, h) as real / 2.0 * 0.9
      && g.bounds.right - g.bounds.left == 2.0 * g.radius == g.bounds.bottom - g.bounds.top
      && (g.bounds.left + g.bounds.right) / 2.0 == g.cx
      && (g.bounds.top + g.bounds.bottom) / 2.0 == g.cy
      && m as real * (g.arcSize + g.arcDelimiterSize) == 360.0
      && 0.0 < g.arcDelimiterSize <= g.arcSize
      && g.lineWidth >= LINE_WIDTH
  {
    DelimiterTiles(m);
  }

  /** A 200 x 100 space gives radius 45: 100 / 2 * 0.9. */
  lemma RadiusOf200By100()
    ensures Radius(200, 100) == 45.0
  {
  }
}
