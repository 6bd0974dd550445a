/** The older browser-side ceiling calculator. It has its own case labels, a
    line formula that also counts the line on the far wall, a `<=` tie rule
    favouring the "along Length" option, and default prices. */
module ClientCeiling {
  import opened Common
  import S = ServerCeiling

  datatype CaseLabel =
    | C1TooSmall | C2VeryNarrow | C3StandardSmallRoom | C4LongRoomA | C5LongRoomB
    | C6LargeRoom | C7NotDivisibleBy2 | C8NotDivisibleBy12 | C9DecimalDimensions
    | C10MixedDecimals | C12CorridorLayout | StandardCase
  {
    function Text(): string
    {
      match this
      case C1TooSmall => "C1: Too small"
      case C2VeryNarrow => "C2: Very narrow"
      case C3StandardSmallRoom => "C3: Standard small room"
      case C4LongRoomA => "C4: Long room (A > 12)"
      case C5LongRoomB => "C5: Long room (B > 12)"
      case C6LargeRoom => "C6: Large room"
      case C7NotDivisibleBy2 => "C7: Not divisible by 2"
      case C8NotDivisibleBy12 => "C8: Not divisible by 12"
      case C9DecimalDimensions => "C9: Decimal dimensions"
      case C10MixedDecimals => "C10: Mixed decimals"
      case C12CorridorLayout => "C12: Corridor layout"
      case StandardCase => "Standard Case"
    }
  }

  /** The same first-match list as the server's, with this file's labels; the
      final "Standard Case" is never produced. */
  function DetectCase(a: real, b: real): (c: CaseLabel)
    ensures c != StandardCase
    ensures c.C1TooSmall? || c.C2VeryNarrow? || c.C3StandardSmallRoom? || c.C4LongRoomA?
            || c.C5LongRoomB? || c.C6LargeRoom?
  {
    if a < 2.0 || b < 2.0 then C1TooSmall
    else if a <= 4.0 || b <= 4.0 then C2VeryNarrow
    else if a <= 12.0 && b <= 12.0 then C3StandardSmallRoom
    else if a > 12.0 && b <= 12.0 then C4LongRoomA
    else if a <= 12.0 && b > 12.0 then C5LongRoomB
    else if a > 12.0 && b > 12.0 then C6LargeRoom
    else if S.JsRem(a, S.Two) != 0.0 || S.JsRem(b, S.Two) != 0.0 then C7NotDivisibleBy2
    else if S.JsRem(a, S.Twelve) != 0.0 || S.JsRem(b, S.Twelve) != 0.0 then C8NotDivisibleBy12
    else if !S.IsInteger(a) || !S.IsInteger(b) then C9DecimalDimensions
    else if !S.IsInteger(a) && !S.IsInteger(b) then C10MixedDecimals
    else if a >= 3.0 * b || b >= 3.0 * a then C12CorridorLayout
    else StandardCase
  }

  /** Prices under this file's keys `MT`, `CT`, `Panel`, `WA`. */
  datatype Prices = Prices(mt: real, ct: real, panel: real, wa: real)

  const DefaultPrices: Prices := Prices(450.0, 80.0, 380.0, 190.0)

  datatype OptionResult = OptionResult(
    orientation: S.Orientation, mt: int, ct: int, panels: int, wallAngles: int, cost: real)

  /** `Math.floor((side - 2) / 2) + 1`: lines every 2 ft, the first at 2 ft. */
  function Lines(side: real): (n: int)
    ensures 2.0 * n as real <= side < 2.0 * n as real + 2.0
  {
    ((side - 2.0) / 2.0).Floor + 1
  }

  /** One orientation. `ctLen` is accepted and never used. */
  function CalculateOption(length: real, width: real, mtLen: S.NonZeroReal, ctLen: real, waLen: S.NonZeroReal,
                           prices: Prices, mainTAlongLength: bool): (o: OptionResult)
    ensures o.orientation == if mainTAlongLength then S.AlongLength else S.AlongWidth
    ensures o.panels == Ceil(length * width / 4.0) && o.wallAngles == Ceil(2.0 * (length + width) / waLen)
  {
    var mtAlong := if mainTAlongLength then length else width;
    var ctAlong := if mainTAlongLength then width else length;
    var mtLines := Lines(ctAlong);
    var ctLines := Lines(mtAlong);
    var mtPerLine := Ceil(mtAlong / mtLen);
    var ctPerLine := mtLines + 1;
    var mtTotal := mtLines * mtPerLine;
    var ctTotal := ctLines * ctPerLine;
    var panels := Ceil((length * width) / 4.0);
    var wa := Ceil((2.0 * (length + width)) / waLen);
    var cost := mtTotal as real * prices.mt + ctTotal as real * prices.ct + panels as real * prices.panel + wa as real * prices.wa;
    OptionResult(if mainTAlongLength then S.AlongLength else S.AlongWidth, mtTotal, ctTotal, panels, wa, cost)
  }

  /** The note `Using <orientation> saves Rs. <amount>.` */
  datatype Note = SavesNote(orientation: S.Orientation, amount: real)

  datatype Materials = Materials(
    roomSize: S.RoomLabel, detectedCase: CaseLabel, optionA: OptionResult, optionB: OptionResult,
    recommendedOption: S.Orientation, savings: real, notes: seq<Note>)

  const MainTeeLen: S.NonZeroReal := 12.0
  const WallAngleLen: S.NonZeroReal := 10.0

  /** The full estimate; `prices` is `None` when the caller passes none, and
      then the defaults apply. On a cost tie option A ("along Length") is
      recommended; the savings and the note quote the cost difference. */
  function CalculateMaterials(length: real, width: real, prices: Option<Prices>): (m: Materials)
    ensures m.roomSize == S.SizeText(length, width)
    ensures m.detectedCase == DetectCase(MaxR(length, width), MinR(length, width))
    ensures var p := if prices.Some? then prices.value else DefaultPrices;
            m.optionA == CalculateOption(length, width, 12.0, 2.0, 10.0, p, true)
            && m.optionB == CalculateOption(length, width, 12.0, 2.0, 10.0, p, false)
    ensures m.recommendedOption == S.AlongLength <==> m.optionA.cost <= m.optionB.cost
    ensures m.savings == AbsR(m.optionA.cost - m.optionB.cost)
    ensures m.notes == [SavesNote(m.recommendedOption, m.savings)]
  {
    var a := MaxR(length, width);
    var b := MinR(length, width);
    var p := if prices.Some? then prices.value else DefaultPrices;
    var detected := DetectCase(a, b);
    var optionA := CalculateOption(length, width, MainTeeLen, 2.0, WallAngleLen, p, true);
    var optionB := CalculateOption(length, width, MainTeeLen, 2.0, WallAngleLen, p, false);
    var better := if optionA.cost <= optionB.cost then optionA else optionB;
    var other := if optionA.cost > optionB.cost then optionA else optionB;
    Materials(S.SizeText(length, width), detected, optionA, optionB, better.orientation,
              AbsR(other.cost - better.cost), [SavesNote(better.orientation, AbsR(other.cost - better.cost))])
  }

  /** `better` and `other` are always the two different options, `better`
      being the cheaper one with a tie going to option A. */
  lemma BetterAndOtherDistinct(optionA: OptionResult, optionB: OptionResult)
    requires optionA.orientation == S.AlongLength && optionB.orientation == S.AlongWidth
    ensures var better := if optionA.cost <= optionB.cost then optionA else optionB;
            var other := if optionA.cost > optionB.cost then optionA else optionB;
            better != other && {better, other} == {optionA, optionB} && better.cost <= other.cost
  {
  }

  /** Main T-bars along the length of an l × w room are the Main T-bars along
      the width of a w × l room: only the orientation tag differs. */
  lemma OrientationSwap(length: real, width: real, mtLen: S.NonZeroReal, ctLen: real, waLen: S.NonZeroReal, prices: Prices)
    ensures CalculateOption(length, width, mtLen, ctLen, waLen, prices, true)
         == CalculateOption(width, length, mtLen, ctLen, waLen, prices, false).(orientation := S.AlongLength)
  {
    assert width * length == length * width;
    assert width + length == length + width;
  }

  /** The `CT_len` argument has no effect on the result. */
  lemma CrossTeeLengthUnused(length: real, width: real, mtLen: S.NonZeroReal, c1: real, c2: real,
                             waLen: S.NonZeroReal, prices: Prices, along: bool)
    ensures CalculateOption(length, width, mtLen, c1, waLen, prices, along)
         == CalculateOption(length, width, mtLen, c2, waLen, prices, along)
  {
  }

  /** `floor((s - 2) / 2) + 1` is simply `floor(s / 2)`. */
  lemma LinesIsHalfSide(side: real)
    ensures Lines(side) == (side / 2.0).Floor
  {
    var f := ((side - 2.0) / 2.0).Floor;
    FloorUnique(side / 2.0, f + 1);
  }

  /** Panels and wall angles are the same in both options. */
  lemma PanelsAndWallAnglesShared(length: real, width: real, prices: Option<Prices>)
    ensures var m := CalculateMaterials(length, width, prices);
            m.optionA.panels == m.optionB.panels && m.optionA.wallAngles == m.optionB.wallAngles
  {
  }

  /** The client never places fewer lines than the server on the same side,
      and at most one more. */
  lemma ClientLinesVersusServer(side: real)
    ensures 0 <= Lines(side) - S.LineCount(side) <= 1
  {
    LinesIsHalfSide(side);
  }

  /** On a side of 2k ft the client places exactly one line more than the
      server: it also counts the line on the far wall. */
  lemma ClientCountsWallLine(k: int)
    requires k >= 1
    ensures Lines(2.0 * k as real) == k && S.LineCount(2.0 * k as real) == k - 1
  {
    LinesIsHalfSide(2.0 * k as real);
    S.EvenSideLineCount(k);
    FloorUnique(2.0 * k as real / 2.0, k);
  }

  /** The two tie rules disagree: for a square room both calculators cost
      their two options equally; the server then recommends "along Width"
      while this calculator recommends "along Length". */
  lemma SquareRoomTieRulesDisagree(side: real, sp: S.Prices, cp: Option<Prices>)
    ensures S.CalculateLayout(side, side, sp).recommended.orientation == S.AlongWidth
    ensures CalculateMaterials(side, side, cp).recommendedOption == S.AlongLength
  {
    S.SquareRoomTie(side, sp);
  }
}
