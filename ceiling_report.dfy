/** The logic of the ceiling result page that is not drawing: text cleaning
    for the PDF, the number of grid lines the preview draws, the "Cheaper"
    column of the rooms table, the vertical cursor of the PDF export with its
    page breaks, and the once-per-session record of the time saved. */
module CeilingReport {
  import opened Common
  import S = ServerCeiling
  import D = Dashboard

  /* ---------- asciiSafe ---------- */

  /** Printable ASCII, 0x20 to 0x7E. */
  predicate Printable(c: char) { ' ' <= c <= '~' }

  /** `.replace(/[^\x20-\x7E]/g, '')`. */
  function KeepPrintable(s: string): (r: string)
    ensures forall c :: c in r <==> c in s && Printable(c)
  {
    Filter(s, Printable)
  }

  /** `.replace(/<from>/g, <to>)` for a single character. */
  function ReplaceChar(s: string, from: char, to: char): (r: string)
    ensures |r| == |s|
    ensures forall i :: 0 <= i < |s| ==> r[i] == if s[i] == from then to else s[i]
  {
    seq(|s|, i requires 0 <= i < |s| => if s[i] == from then to else s[i])
  }

  const AlmostEqual: char := '\U{2248}'
  const Bullet: char := '\U{2022}'

  /** `asciiSafe`: `None` stands for `null` or `undefined`. */
  function AsciiSafe(s: Option<string>): (r: string)
    ensures s.None? ==> r == ""
    ensures s.Some? ==> r == Trim(KeepPrintable(s.value))
    ensures forall i :: 0 <= i < |r| ==> Printable(r[i])
    ensures r != [] ==> r[0] != ' ' && r[|r| - 1] != ' '
  {
    if s.None? then ""
    else
      var kept := KeepPrintable(s.value);
      var t := ReplaceChar(ReplaceChar(kept, AlmostEqual, '~'), Bullet, '-');
      ReplacementsAreNoOps(s.value);
      PrintableStaysPrintable(kept);
      TrimKeepsPrintable(t);
      Trim(t)
  }

  /** Trimming printable text leaves printable text with no space at
      either end. */
  lemma TrimKeepsPrintable(t: string)
    requires forall i :: 0 <= i < |t| ==> Printable(t[i])
    ensures var r := Trim(t);
            (forall i :: 0 <= i < |r| ==> Printable(r[i])) && (r != [] ==> r[0] != ' ' && r[|r| - 1] != ' ')
  {
    TrimSpec(t);
    var r := Trim(t);
    var k := SkipStart(t, 0);
    forall i | 0 <= i < |r| ensures Printable(r[i]) {
      assert r[i] == t[k + i];
    }
  }

  lemma PrintableStaysPrintable(kept: string)
    requires forall c :: c in kept ==> Printable(c)
    ensures var t := ReplaceChar(ReplaceChar(kept, AlmostEqual, '~'), Bullet, '-');
            forall i :: 0 <= i < |t| ==> Printable(t[i])
  {
    var t := ReplaceChar(ReplaceChar(kept, AlmostEqual, '~'), Bullet, '-');
    forall i | 0 <= i < |t| ensures Printable(t[i]) {
      assert kept[i] in kept;
    }
  }

  /** The two replacements never change anything: both characters lie
      outside printable ASCII and are already gone. */
  lemma ReplacementsAreNoOps(s: string)
    ensures ReplaceChar(KeepPrintable(s), AlmostEqual, '~') == KeepPrintable(s)
    ensures ReplaceChar(KeepPrintable(s), Bullet, '-') == KeepPrintable(s)
  {
    var kept := KeepPrintable(s);
    forall i | 0 <= i < |kept| ensures kept[i] != AlmostEqual && kept[i] != Bullet {
      assert kept[i] in kept;
    }
  }

  /** Text already cleaned comes back unchanged. */
  lemma AsciiSafeIdempotent(s: Option<string>)
    ensures AsciiSafe(Some(AsciiSafe(s))) == AsciiSafe(s)
  {
    var r := AsciiSafe(s);
    FilterKeepsAll(r, Printable);
    ReplacementsAreNoOps(r);
    assert KeepPrintable(r) == r;
    if s.Some? {
      var kept := KeepPrintable(s.value);
      TrimIdempotent(ReplaceChar(ReplaceChar(kept, AlmostEqual, '~'), Bullet, '-'));
    }
  }

  /* ---------- grid lines of the layout preview ---------- */

  /** `Math.min(Math.max(0, Math.floor(count)), cells - 1)`: how many Main T
      (or Cross T) lines the preview draws on a grid of `cells` cells. */
  function DrawnLines(count: real, cells: int): (n: int)
    ensures n <= cells - 1
    ensures cells >= 1 ==> n >= 0
    ensures 0 <= count.Floor <= cells - 1 ==> n == count.Floor
  {
    MinI(MaxI(0, count.Floor), cells - 1)
  }

  /** On the 12 × 12 preview grid at least 0 and at most 11 lines are drawn
      in each direction, whatever the counts; a count of 11 or more draws 11. */
  lemma PreviewLinesBounded(mt: real, ct: real)
    ensures 0 <= DrawnLines(mt, 12) <= 11 && 0 <= DrawnLines(ct, 12) <= 11
    ensures mt >= 11.0 ==> DrawnLines(mt, 12) == 11
    ensures mt < 0.0 ==> DrawnLines(mt, 12) == 0
  {
    if mt >= 11.0 {
      assert mt.Floor >= 11;
    }
  }

  /* ---------- the "Cheaper" column ---------- */

  /** `a && b ? (a.cost <= b.cost ? 'A' : 'B') : '-'`, given the two option
      costs when present. */
  function CheaperLabel(a: Option<real>, b: Option<real>): (s: string)
    ensures a.None? || b.None? ==> s == "-"
    ensures a.Some? && b.Some? ==> (s == "A" <==> a.value <= b.value) && (s == "B" <==> a.value > b.value)
  {
    if a.Some? && b.Some? then (if a.value <= b.value then "A" else "B") else "-"
  }

  /** `r?.options?.[i]?.cost`: the cost of option i if the room has it. */
  function OptionCost(r: S.Layout, i: nat): (c: Option<real>)
    ensures i < |r.options| <==> c.Some?
  {
    if i < |r.options| then Some(r.options[i].cost) else None
  }

  function RoomCheaper(r: S.Layout): (c: string)
    ensures |r.options| < 2 ==> c == "-"
    ensures |r.options| >= 2 ==> (c == "A" <==> r.options[0].cost <= r.options[1].cost)
    ensures |r.options| >= 2 ==> (c == "B" <==> r.options[0].cost > r.options[1].cost)
  {
    CheaperLabel(OptionCost(r, 0), OptionCost(r, 1))
  }

  /** For a room costed by the server, the table names option A cheaper while
      the server recommends option B exactly when the two costs tie. */
  lemma CheaperColumnVersusServer(length: real, width: real, prices: S.Prices)
    ensures var r := S.CalculateLayout(length, width, prices);
            (RoomCheaper(r) == "A" <==> r.options[0].cost <= r.options[1].cost)
            && (RoomCheaper(r) == "A" && r.recommended == r.options[1] <==> r.options[0].cost == r.options[1].cost)
  {
    var r := S.CalculateLayout(length, width, prices);
    assert r.options[0] != r.options[1];
  }

  /** A square room is such a tie: the table says "A", the server picks
      "along Width". */
  lemma SquareRoomCheaperDisagrees(side: real, prices: S.Prices)
    ensures RoomCheaper(S.CalculateLayout(side, side, prices)) == "A"
    ensures S.CalculateLayout(side, side, prices).recommended.orientation == S.AlongWidth
  {
    S.SquareRoomTie(side, prices);
    CheaperColumnVersusServer(side, side, prices);
  }

  /* ---------- the PDF cursor ---------- */

  const HeaderHeight: real := 96.0
  /** Where content starts below the banner: `HEADER_H + 22`. */
  const ContentTop: real := 118.0
  const BottomMargin: real := 40.0
  const Pad: real := 18.0
  const SectionGap: real := 18.0
  const LineStep: real := 18.0

  /** The document being exported: its page count and page height. The
      drawing calls are not modelled. */
  class PdfDocument {
    var pages: nat
    const pageHeight: real

    /** `new jsPDF(...)`: one empty page. */
    constructor (pageHeight: real)
      ensures pages == 1 && this.pageHeight == pageHeight
    {
      pages := 1;
      this.pageHeight := pageHeight;
    }

    /** `header()`: draws the banner and returns the first content line. */
    method Header() returns (y: real)
      ensures y == ContentTop && y == HeaderHeight + 22.0
    {
      y := ContentTop;
    }

    /** `ensureSpace(y, need)`: keeps y when the block fits above the bottom
        margin, otherwise adds a page and starts below its banner. */
    method EnsureSpace(y: real, need: real) returns (y': real)
      modifies this
      ensures y + need <= pageHeight - BottomMargin ==> y' == y && pages == old(pages)
      ensures y + need > pageHeight - BottomMargin ==> y' == ContentTop && pages == old(pages) + 1
      ensures need <= pageHeight - BottomMargin - ContentTop ==> y' + need <= pageHeight - BottomMargin
    {
      if y + need <= pageHeight - BottomMargin {
        return y;
      }
      pages := pages + 1;
      y' := Header();
    }
  }

  /** `putKV`/`putKVR`: print one line and move down 18 pt. */
  function PutLine(yIn: real): (yOut: real)
    ensures yOut > yIn
  {
    yIn + LineStep
  }

  /** The project card: three lines on the left and two on the right below
      the title; its height is `max(145, max(yL, yR) - infoTop + PAD)`, and
      the next section starts one gap below it. Returns the new cursor. */
  function InfoCard(infoTop: real): (y: real)
    ensures y >= infoTop + 145.0 + SectionGap
  {
    var yL0 := infoTop + Pad + 29.0 + 20.0;
    var yL := PutLine(PutLine(PutLine(yL0)));
    var yR := PutLine(PutLine(yL0));
    var infoH := MaxR(145.0, MaxR(yL, yR) - infoTop + Pad);
    infoTop + infoH + SectionGap
  }

  /** The content of the card always fits the minimum height: the card is
      145 pt tall whatever is printed in it. */
  lemma InfoCardIsFixedHeight(infoTop: real)
    ensures InfoCard(infoTop) == infoTop + 145.0 + SectionGap
  {
  }

  /* ---------- time saved ---------- */

  /** The storage the page writes: the keys marked in this session and the
      stored list of time savings the dashboard sums. */
  class SavingsLog {
    var session: set<string>
    var savings: seq<real>

    constructor (session: set<string>, savings: seq<real>)
      ensures this.session == session && this.savings == savings
    {
      this.session := session;
      this.savings := savings;
    }

    /** Records the time saved at most once per project, date and session;
        a value that is zero after clamping is marked but not recorded. */
    method RecordOnce(projectName: string, date: string, timeSaved: Option<real>)
      modifies this
      ensures var key := "ceilingTimeSaved:" + projectName + ":" + date;
              var v := NonNegativeNumber(timeSaved);
              key in session
              && (key in old(session) ==> session == old(session) && savings == old(savings))
              && (key !in old(session) ==>
                    session == old(session) + {key} && savings == old(savings) + (if v == 0.0 then [] else [v]))
    {
      var key := "ceilingTimeSaved:" + projectName + ":" + date;
      if key in session {
        return;
      }
      session := session + {key};
      var v := NonNegativeNumber(timeSaved);
      if v == 0.0 {
        return;
      }
      savings := savings + [v];
    }
  }

  /** Every saving recorded is positive, so the list the dashboard sums only
      holds positive values as long as it started so; one record raises the
      dashboard total by exactly the shown value. */
  lemma RecordedSavingsPositive(savings: seq<real>, timeSaved: Option<real>)
    requires forall i :: 0 <= i < |savings| ==> savings[i] > 0.0
    ensures var v := NonNegativeNumber(timeSaved);
            var next := savings + (if v == 0.0 then [] else [v]);
            (forall i :: 0 <= i < |next| ==> next[i] > 0.0)
            && D.TotalTimeSaved(next) == D.TotalTimeSaved(savings) + v
  {
    var v := NonNegativeNumber(timeSaved);
    if v != 0.0 {
      D.TotalTimeSavedAppend(savings, v);
    } else {
      assert savings + [] == savings;
    }
  }
}
