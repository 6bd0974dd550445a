/** The server-side ceiling grid estimator: the room's case classification and
    the two-orientation costing of Main T-bars, Cross T-bars, panels and wall
    angles, of which the cheaper orientation is recommended. */
module ServerCeiling {
  import opened Common

  /** Stock lengths (ft), panel area (ft²) and grid spacing (ft). */
  const WallAngleLength: real := 10.0
  const MainTeeLength: real := 12.0
  const PanelArea: real := 4.0
  const GridSpacing: real := 2.0

  /** The descriptive case tags, in the order the classifier tests them. */
  datatype CaseLabel =
    | C1TooSmall | C2VeryNarrow | C3StandardSmall | C4JoinMainTees | C5ExtraCrossRows
    | C6TestBoth | C7OddDimensions | C8JoinReuse | C9DecimalDimensions | C10DecimalMix
    | C12Corridor | C3DefaultStandard
  {
    function Text(): string
    {
      match this
      case C1TooSmall => "C1: Too small for grid"
      case C2VeryNarrow => "C2: Very narrow room"
      case C3StandardSmall => "C3: Standard small grid"
      case C4JoinMainTees => "C4: Join MT (A > 12)"
      case C5ExtraCrossRows => "C5: Extra CT rows (B > 12)"
      case C6TestBoth => "C6: Test both layouts"
      case C7OddDimensions => "C7: Odd dimensions"
      case C8JoinReuse => "C8: Join/reuse MTs"
      case C9DecimalDimensions => "C9: Decimal dimensions"
      case C10DecimalMix => "C10: Decimal mix"
      case C12Corridor => "C12: Corridor or toilet"
      case C3DefaultStandard => "C3: Default standard grid"
    }

    /** One of the six range-based tags tested first. */
    predicate IsRangeCase()
    {
      C1TooSmall? || C2VeryNarrow? || C3StandardSmall? || C4JoinMainTees? || C5ExtraCrossRows? || C6TestBoth?
    }
  }

  /** Rounding toward zero, the quotient behind JavaScript's `%`: the integer
      between 0 and `x` that is less than one away from `x`. */
  function Trunc(x: real): (n: int)
    ensures 0.0 <= x ==> 0 <= n && n as real <= x < n as real + 1.0
    ensures x < 0.0 ==> n <= 0 && n as real - 1.0 < x <= n as real
  {
    if x >= 0.0 then x.Floor else -((-x).Floor)
  }

  type NonZeroReal = x: real | x != 0.0 witness 1.0

  const Two: NonZeroReal := 2.0
  const Twelve: NonZeroReal := 12.0

  /** JavaScript's `a % b` on numbers: the remainder of the quotient
      truncated toward zero. */
  function JsRem(a: real, b: NonZeroReal): (r: real)
    ensures r == 0.0 <==> a / b == Trunc(a / b) as real
  {
    var q := a / b;
    var t := Trunc(q) as real;
    assert a - b * t == b * (q - t);
    a - b * t
  }

  /** The remainder is `b` times the fractional part the truncation drops. */
  lemma JsRemIsScaledFraction(a: real, b: NonZeroReal)
    ensures JsRem(a, b) == b * (a / b - Trunc(a / b) as real)
  {
    var q, t := a / b, Trunc(a / b) as real;
    calc {
      JsRem(a, b);
      a - b * t;
      { assert a == b * q; }
      b * q - b * t;
      b * (q - t);
    }
  }

  /** A product `b * f` with `|f| < 1` is smaller than `b` in magnitude. */
  lemma ScaledFractionBound(b: real, f: real)
    requires b != 0.0 && -1.0 < f < 1.0
    ensures AbsR(b * f) < AbsR(b)
  {
    if b > 0.0 {
      assert -b < b * f < b;
    } else {
      assert b < b * f < -b;
    }
  }

  /** The laws of JavaScript's `%`: `a` is the truncated quotient times `b`
      plus the remainder, the remainder takes the sign of `a`, and it is
      smaller than `b` in magnitude. */
  lemma JsRemLaws(a: real, b: NonZeroReal)
    ensures a == b * Trunc(a / b) as real + JsRem(a, b)
    ensures a >= 0.0 ==> JsRem(a, b) >= 0.0
    ensures a <= 0.0 ==> JsRem(a, b) <= 0.0
    ensures AbsR(JsRem(a, b)) < AbsR(b)
  {
    var q := a / b;
    var f := q - Trunc(q) as real;
    JsRemIsScaledFraction(a, b);
    assert -1.0 < f < 1.0;
    ScaledFractionBound(b, f);
    if a >= 0.0 {
      assert (b > 0.0 ==> q >= 0.0 && f >= 0.0) && (b < 0.0 ==> q <= 0.0 && f <= 0.0);
    }
    if a <= 0.0 {
      assert (b > 0.0 ==> q <= 0.0 && f <= 0.0) && (b < 0.0 ==> q >= 0.0 && f >= 0.0);
    }
  }

  /** Unlike a floored remainder, `-7 % 2` is `-1` and `7.5 % 2` is `1.5`. */
  lemma JsRemExamples()
    ensures JsRem(-7.0, Two) == -1.0
    ensures JsRem(7.5, Two) == 1.5
  {
    assert Trunc(-7.0 / Two) == -3;
    assert Trunc(7.5 / Two) == 3;
  }

  /** `Number.isInteger` on a finite number. */
  predicate IsInteger(x: real)
  {
    x == x.Floor as real
  }

  /** The first-match classification of a room with long side `a` and short
      side `b`. The range tests C3 to C6 cover every pair of reals, so the
      result is always one of the first six tags. */
  function DetectCase(a: real, b: real): (c: CaseLabel)
    ensures c.IsRangeCase()
    ensures c == C1TooSmall <==> (a < 2.0 || b < 2.0)
  {
    if a < 2.0 || b < 2.0 then C1TooSmall
    else if a <= 4.0 || b <= 4.0 then C2VeryNarrow
    else if a <= 12.0 && b <= 12.0 then C3StandardSmall
    else if a > 12.0 && b <= 12.0 then C4JoinMainTees
    else if a <= 12.0 && b > 12.0 then C5ExtraCrossRows
    else if a > 12.0 && b > 12.0 then C6TestBoth
    else if JsRem(a, Two) != 0.0 || JsRem(b, Two) != 0.0 then C7OddDimensions
    else if JsRem(a, Twelve) != 0.0 || JsRem(b, Twelve) != 0.0 then C8JoinReuse
    else if !IsInteger(a) || !IsInteger(b) then C9DecimalDimensions
    else if !IsInteger(a) && !IsInteger(b) then C10DecimalMix
    else if a >= 3.0 * b || b >= 3.0 * a then C12Corridor
    else C3DefaultStandard
  }

  datatype Prices = Prices(mt: real, ct: real, panel: real, wa: real)

  datatype Orientation = AlongLength | AlongWidth
  {
    function Text(): string
    {
      if AlongLength? then "Main T-bars along Length" else "Main T-bars along Width"
    }
  }

  /** The `room` field: the server writes the size as `"<length> ft × <width> ft"`;
      the controller first writes the submitted name there. */
  datatype RoomLabel = SizeText(length: real, width: real) | SubmittedName(name: string)

  datatype GridOption = GridOption(
    orientation: Orientation, mt: int, ct: int, panels: int, wa: int, cost: real, joinRequired: bool)

  datatype Layout = Layout(
    room: RoomLabel, caseDetected: CaseLabel, options: seq<GridOption>,
    recommended: GridOption, savings: real)

  /** Main T-bar rows across a cross side (or Cross T-bar rows along a main
      side): one every 2 ft, not counting a line on the far wall. */
  function LineCount(side: real): int
  {
    ((side - 0.01) / GridSpacing).Floor
  }

  /** 12 ft Main T-bar segments needed to span one row. */
  function SegmentsPerLine(side: real): int
  {
    Ceil(side / MainTeeLength)
  }

  function PanelCount(length: real, width: real): int
  {
    Ceil(length * width / PanelArea)
  }

  function WallAngleCount(length: real, width: real): int
  {
    Ceil(2.0 * (length + width) / WallAngleLength)
  }

  /** Each quantity at its unit price. */
  function MaterialCost(mt: int, ct: int, panels: int, wa: int, prices: Prices): real
  {
    mt as real * prices.mt + ct as real * prices.ct + panels as real * prices.panel + wa as real * prices.wa
  }

  /** The quantities and cost of one orientation, whose Main T-bars run along
      `mtSide` and are spaced across `ctSide`. */
  function OptionFor(dir: Orientation, mtSide: real, ctSide: real, length: real, width: real, prices: Prices): (o: GridOption)
    ensures o.orientation == dir
    ensures o.mt == LineCount(ctSide) * SegmentsPerLine(mtSide)
    ensures o.ct == LineCount(mtSide) * (LineCount(ctSide) + 1)
    ensures o.panels == PanelCount(length, width) && o.wa == WallAngleCount(length, width)
    ensures o.cost == MaterialCost(o.mt, o.ct, o.panels, o.wa, prices)
    ensures o.joinRequired <==> mtSide > MainTeeLength
  {
    var mtLines := LineCount(ctSide);
    var mtPerLine := SegmentsPerLine(mtSide);
    var mt := mtLines * mtPerLine;
    var ctLines := LineCount(mtSide);
    var ctPerLine := mtLines + 1;
    var ct := ctLines * ctPerLine;
    var panels := PanelCount(length, width);
    var wa := WallAngleCount(length, width);
    GridOption(dir, mt, ct, panels, wa, MaterialCost(mt, ct, panels, wa, prices), mtSide > MainTeeLength)
  }

  /** `results.reduce((a, b) => a.cost < b.cost ? a : b)` over the two options:
      the index of the recommended option. */
  function BestIndex(options: seq<GridOption>): (i: nat)
    requires |options| == 2
    ensures i < 2
    ensures options[i].cost <= options[1 - i].cost
    ensures i == 0 <==> options[0].cost < options[1].cost
  {
    if options[0].cost < options[1].cost then 0 else 1
  }

  /** The estimate for one room. Both orientations are costed with A the longer
      and B the shorter side; the first option is recommended only when it is
      strictly cheaper, so a tie recommends the second ("along Width"); the
      savings are what the other option costs more. */
  function CalculateLayout(length: real, width: real, prices: Prices): (r: Layout)
    ensures r.room == SizeText(length, width)
    ensures r.caseDetected == DetectCase(MaxR(length, width), MinR(length, width))
    ensures |r.options| == 2
    ensures r.options == [OptionFor(AlongLength, MaxR(length, width), MinR(length, width), length, width, prices),
                          OptionFor(AlongWidth, MinR(length, width), MaxR(length, width), length, width, prices)]
    ensures r.options[0].orientation == AlongLength && r.options[1].orientation == AlongWidth
    ensures r.recommended == r.options[0] || r.recommended == r.options[1]
    ensures r.recommended.cost <= r.options[0].cost && r.recommended.cost <= r.options[1].cost
    ensures r.recommended == r.options[0] <==> r.options[0].cost < r.options[1].cost
    ensures r.savings >= 0.0 && r.savings == AbsR(r.options[0].cost - r.options[1].cost)
    ensures r.caseDetected != C5ExtraCrossRows
  {
    var a := MaxR(length, width);
    var b := MinR(length, width);
    var results := [
      OptionFor(AlongLength, a, b, length, width, prices),
      OptionFor(AlongWidth, b, a, length, width, prices)
    ];
    var bi := BestIndex(results);
    var best := results[bi];
    var worst := results[1 - bi];
    Layout(SizeText(length, width), DetectCase(a, b), results, best, worst.cost - best.cost)
  }

  lemma OptionForSwap(dir: Orientation, mtSide: real, ctSide: real, length: real, width: real, prices: Prices)
    ensures OptionFor(dir, mtSide, ctSide, width, length, prices) == OptionFor(dir, mtSide, ctSide, length, width, prices)
  {
    assert PanelCount(width, length) == PanelCount(length, width) by {
      assert width * length == length * width;
    }
    assert WallAngleCount(width, length) == WallAngleCount(length, width) by {
      assert width + length == length + width;
    }
  }

  /** The orientation is only a tag: both options of the same sides agree
      in everything else. */
  lemma OptionForTagOnly(dir: Orientation, other: Orientation, mtSide: real, ctSide: real, length: real, width: real, prices: Prices)
    ensures OptionFor(dir, mtSide, ctSide, length, width, prices)
         == OptionFor(other, mtSide, ctSide, length, width, prices).(orientation := dir)
  {
  }

  /** In a square room both options cost the same, so the tie rule
      recommends the second one, "along Width", and nothing is saved. */
  lemma SquareRoomTie(side: real, prices: Prices)
    ensures var r := CalculateLayout(side, side, prices);
            r.options[0].cost == r.options[1].cost
            && r.recommended == r.options[1] && r.recommended.orientation == AlongWidth
            && r.savings == 0.0
  {
    assert MaxR(side, side) == side && MinR(side, side) == side;
    OptionForTagOnly(AlongLength, AlongWidth, side, side, side, side, prices);
  }

  /** Swapping length and width changes only the `room` text. */
  lemma SwapChangesOnlyRoom(length: real, width: real, prices: Prices)
    ensures CalculateLayout(width, length, prices)
         == CalculateLayout(length, width, prices).(room := SizeText(width, length))
  {
    var a, b := MaxR(length, width), MinR(length, width);
    assert MaxR(width, length) == a && MinR(width, length) == b;
    OptionForSwap(AlongLength, a, b, length, width, prices);
    OptionForSwap(AlongWidth, b, a, length, width, prices);
  }

  /** Panels and wall angles do not depend on the orientation. */
  lemma PanelsAndWallAnglesShared(length: real, width: real, prices: Prices)
    ensures var r := CalculateLayout(length, width, prices);
            r.options[0].panels == r.options[1].panels == PanelCount(length, width)
            && r.options[0].wa == r.options[1].wa == WallAngleCount(length, width)
  {
  }

  /** For a side of 2k ft the line count is k - 1: only the interior lines,
      the one on the far wall is not placed. */
  lemma EvenSideLineCount(k: int)
    requires k >= 1
    ensures LineCount(2.0 * k as real) == k - 1
  {
    FloorUnique((2.0 * k as real - 0.01) / GridSpacing, k - 1);
  }

  /** A room of 2k by 2j ft with k >= j: along Length, the j - 1 Main T
      rows each need the segments of the long side, and the k - 1 Cross T
      rows each span j cells. */
  lemma EvenRoomAlongLength(k: int, j: int, prices: Prices)
    requires k >= j >= 1
    ensures var r := CalculateLayout(2.0 * k as real, 2.0 * j as real, prices);
            r.options[0].mt == (j - 1) * SegmentsPerLine(2.0 * k as real)
            && r.options[0].ct == (k - 1) * j
  {
    var l, w := 2.0 * k as real, 2.0 * j as real;
    assert MaxR(l, w) == l && MinR(l, w) == w;
    EvenSideLineCount(k);
    EvenSideLineCount(j);
  }

  lemma OptionCountsNonNegative(dir: Orientation, mtSide: real, ctSide: real, length: real, width: real, prices: Prices)
    requires mtSide >= 0.01 && ctSide >= 0.01 && length >= 0.01 && width >= 0.01
    ensures var o := OptionFor(dir, mtSide, ctSide, length, width, prices);
            o.mt >= 0 && o.ct >= 0 && o.panels >= 0 && o.wa >= 0
  {
    var mtLines, ctLines := LineCount(ctSide), LineCount(mtSide);
    var perLine := SegmentsPerLine(mtSide);
    assert mtLines >= 0 && ctLines >= 0 && perLine >= 0;
    assert mtLines * perLine >= 0;
    assert ctLines * (mtLines + 1) >= 0;
    assert length * width >= 0.0;
  }

  /** With both sides at least 0.01 ft, every quantity is non-negative. */
  lemma CountsNonNegative(length: real, width: real, prices: Prices)
    requires length >= 0.01 && width >= 0.01
    ensures var r := CalculateLayout(length, width, prices);
            forall i :: 0 <= i < 2 ==>
              r.options[i].mt >= 0 && r.options[i].ct >= 0 && r.options[i].panels >= 0 && r.options[i].wa >= 0
  {
    var a, b := MaxR(length, width), MinR(length, width);
    OptionCountsNonNegative(AlongLength, a, b, length, width, prices);
    OptionCountsNonNegative(AlongWidth, b, a, length, width, prices);
  }

  /** A join is required exactly when a row needs two or more 12 ft segments. */
  lemma JoinRequiredIffTwoSegments(o: GridOption, mtSide: real, ctSide: real, length: real, width: real, prices: Prices)
    requires o == OptionFor(o.orientation, mtSide, ctSide, length, width, prices)
    ensures o.joinRequired <==> SegmentsPerLine(mtSide) >= 2
  {
    if mtSide > MainTeeLength {
      assert mtSide / MainTeeLength > 1.0;
    } else {
      assert mtSide / MainTeeLength <= 1.0;
    }
  }

  /** The two options of a layout are the orientations of the longer and the
      shorter side; `joinRequired` on each is "its Main T side exceeds 12 ft". */
  lemma LayoutJoinFlags(length: real, width: real, prices: Prices)
    ensures var r := CalculateLayout(length, width, prices);
            (r.options[0].joinRequired <==> SegmentsPerLine(MaxR(length, width)) >= 2)
            && (r.options[1].joinRequired <==> SegmentsPerLine(MinR(length, width)) >= 2)
  {
    var a, b := MaxR(length, width), MinR(length, width);
    var r := CalculateLayout(length, width, prices);
    JoinRequiredIffTwoSegments(r.options[0], a, b, length, width, prices);
    JoinRequiredIffTwoSegments(r.options[1], b, a, length, width, prices);
  }
}
