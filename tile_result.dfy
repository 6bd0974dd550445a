/** The tile result page's arithmetic: tile sizes normalised to feet, the grid
    of full and cut tiles for one room, the cut and purchase waste, the
    fallback to a single legacy room, the computed totals and the coverage
    percentage. */
module TileResult {
  import opened Common

  /** `normalizeFeet`: the input is `None` when `Number(x || 0)` is not a
      finite number. Values of 12 or more are read as inches. */
  function NormalizeFeet(x: Option<real>): (r: real)
    ensures r >= 0.0
    ensures x.None? || x.value <= 0.0 ==> r == 0.0
    ensures x.Some? && x.value >= 12.0 ==> r == x.value / 12.0
    ensures x.Some? && 0.0 < x.value < 12.0 ==> r == x.value
  {
    if x.None? || x.value <= 0.0 then 0.0
    else if x.value >= 12.0 then x.value / 12.0
    else x.value
  }

  datatype Stats = Stats(
    cols: int, rows: int, full: int, cut: int,
    covered: real, roomArea: real, cutWasteArea: real, cutWastePct: real,
    panelArea: real)

  /** How many of the grid positions 1..n satisfy `i * t <= len`, i.e. how
      many of the first n tiles along an axis end inside the room. */
  function FitCount(n: int, len: real, t: real): (k: nat)
    ensures k <= MaxI(0, n)
  {
    if n <= 0 then 0 else FitCount(n - 1, len, t) + (if Fits(n, len, t) then 1 else 0)
  }

  /** The n-th tile along an axis (counting from 1) ends inside the room. */
  predicate Fits(n: int, len: real, t: real)
  {
    n as real * t <= len
  }

  /** The area figures that follow from the tile counts. */
  function WasteFigures(cols: int, rows: int, full: int, cut: int, l: real, w: real, tl: real, tw: real): (s: Stats)
    ensures s.cols == cols && s.rows == rows && s.full == full && s.cut == cut
    ensures s.panelArea == tl * tw && s.roomArea == l * w
    ensures s.covered == (full + cut) as real * (tl * tw)
    ensures s.cutWasteArea >= 0.0 && s.cutWasteArea >= s.covered - s.roomArea
    ensures s.covered > 0.0 ==> s.cutWastePct == s.cutWasteArea / s.covered * 100.0
    ensures s.covered <= 0.0 ==> s.cutWastePct == 0.0
  {
    var panelArea := tl * tw;
    var totalTiles := full + cut;
    var covered := totalTiles as real * panelArea;
    var roomArea := l * w;
    var cutWasteArea := MaxR(0.0, covered - roomArea);
    var cutWastePct := if covered > 0.0 then (cutWasteArea / covered) * 100.0 else 0.0;
    Stats(cols, rows, full, cut, covered, roomArea, cutWasteArea, cutWastePct, panelArea)
  }

  predicate AnyZero(l: real, w: real, tl: real, tw: real)
  {
    l == 0.0 || w == 0.0 || tl == 0.0 || tw == 0.0
  }

  /** `tileStatsFeet` in closed form: a cell (r, c) of the grid anchored at one
      corner is full when the tile ends inside the room on both axes, so the
      full cells are the product of the fitting columns and the fitting rows. */
  function TileStats(l: real, w: real, tl: real, tw: real): (s: Stats)
    ensures AnyZero(l, w, tl, tw) ==>
              s == Stats(0, 0, 0, 0, 0.0, 0.0, 0.0, 0.0, tl * tw)
    ensures s.full >= 0 && s.cut >= 0
  {
    if AnyZero(l, w, tl, tw) then
      Stats(0, 0, 0, 0, 0.0, 0.0, 0.0, 0.0, tl * tw)
    else
      var cols := Ceil(w / tw);
      var rows := Ceil(l / tl);
      var full := FitCount(cols, w, tw) * FitCount(rows, l, tl);
      ProductMono(FitCount(cols, w, tw), MaxI(0, cols), FitCount(rows, l, tl), MaxI(0, rows));
      var cut := MaxI(0, cols) * MaxI(0, rows) - full;
      WasteFigures(cols, rows, full, cut, l, w, tl, tw)
  }

  lemma MulStep(a: int, b: int, inc: bool)
    ensures a * (b + (if inc then 1 else 0)) == a * b + (if inc then a else 0)
  {
  }

  lemma ProductMono(a: int, b: int, c: int, d: int)
    requires 0 <= a <= b && 0 <= c <= d
    ensures 0 <= a * c <= b * d
  {
    assert a * c <= b * c;
    assert b * c <= b * d;
  }

  /** The nested loop of `tileStatsFeet`: every cell of the `rows × cols` grid
      is counted once, as cut when the tile overflows the room on either axis
      and as full otherwise. */
  method TileStatsFeet(l: real, w: real, tl: real, tw: real) returns (s: Stats)
    ensures s == TileStats(l, w, tl, tw)
  {
    if AnyZero(l, w, tl, tw) {
      return Stats(0, 0, 0, 0, 0.0, 0.0, 0.0, 0.0, tl * tw);
    }
    var cols := Ceil(w / tw);
    var rows := Ceil(l / tl);
    ghost var fc := FitCount(cols, w, tw);
    ghost var width := MaxI(0, cols);
    var full, cut := 0, 0;
    var r := 0;
    while r < rows
      invariant 0 <= r <= MaxI(0, rows)
      invariant full == fc * FitCount(r, l, tl)
      invariant full + cut == width * r
    {
      ghost var rowFits := Fits(r + 1, l, tl);
      var c := 0;
      while c < cols
        invariant 0 <= c <= width
        invariant full == fc * FitCount(r, l, tl) + (if rowFits then FitCount(c, w, tw) else 0)
        invariant full + cut == width * r + c
      {
        var isCut := !Fits(c + 1, w, tw) || !Fits(r + 1, l, tl);
        if isCut {
          cut := cut + 1;
        } else {
          full := full + 1;
        }
        c := c + 1;
      }
      assert FitCount(c, w, tw) == fc;
      assert FitCount(r + 1, l, tl) == FitCount(r, l, tl) + (if rowFits then 1 else 0);
      MulStep(fc, FitCount(r, l, tl), rowFits);
      MulStep(width, r, true);
      r := r + 1;
    }
    assert r == MaxI(0, rows);
    assert full == FitCount(cols, w, tw) * FitCount(rows, l, tl);
    assert cut == MaxI(0, cols) * MaxI(0, rows) - full;
    s := WasteFigures(cols, rows, full, cut, l, w, tl, tw);
  }

  /** Along an axis with positive tile size, the number of tiles that fit
      among the first n is `floor(len / t)` clamped to [0, n]. */
  lemma {:induction false} FitCountClosedForm(n: int, len: real, t: real)
    requires n >= 0 && t > 0.0
    ensures FitCount(n, len, t) == MaxI(0, MinI(n, (len / t).Floor))
  {
    if n > 0 {
      FitCountClosedForm(n - 1, len, t);
      if n as real * t <= len {
        assert n as real <= len / t;
      } else {
        assert n as real > len / t;
      }
    }
  }

  /** Among the `ceil(len / t)` tiles of a positive axis, `floor(len / t)`
      fit whole. */
  lemma FitCountOfGrid(len: real, t: real)
    requires len > 0.0 && t > 0.0
    ensures Ceil(len / t) >= 1
    ensures FitCount(Ceil(len / t), len, t) == (len / t).Floor
    ensures 0 <= (len / t).Floor <= Ceil(len / t)
  {
    assert len / t > 0.0;
    FitCountClosedForm(Ceil(len / t), len, t);
  }

  /** For a non-degenerate room and tile: the grid has `ceil(W/tW)` columns
      and `ceil(L/tL)` rows, every cell is full or cut, and the full cells
      are `floor(W/tW) × floor(L/tL)`. */
  lemma TileGridPartition(l: real, w: real, tl: real, tw: real)
    requires l > 0.0 && w > 0.0 && tl > 0.0 && tw > 0.0
    ensures var s := TileStats(l, w, tl, tw);
            s.cols == Ceil(w / tw) >= 1 && s.rows == Ceil(l / tl) >= 1
            && s.full + s.cut == s.cols * s.rows
            && s.full == (w / tw).Floor * (l / tl).Floor
  {
    FitCountOfGrid(w, tw);
    FitCountOfGrid(l, tl);
  }

  lemma FloorEqualsCeilIffInteger(x: real)
    ensures x.Floor == Ceil(x) <==> x == x.Floor as real
  {
  }

  /** Two products of bounded factors agree only when the factors do. */
  lemma ProductAtMaximum(fw: int, fl: int, cols: int, rows: int)
    requires 0 <= fw <= cols && 0 <= fl <= rows && cols >= 1 && rows >= 1
    ensures fw * fl == cols * rows <==> fw == cols && fl == rows
  {
    if fw < cols {
      assert fw * fl <= fw * rows;
      assert fw * rows < cols * rows;
    } else if fl < rows {
      assert fw * fl < fw * rows;
    }
  }

  /** No tile is cut exactly when the room's sides are whole multiples of
      the tile's sides. */
  lemma NoCutIffExactFit(l: real, w: real, tl: real, tw: real)
    requires l > 0.0 && w > 0.0 && tl > 0.0 && tw > 0.0
    ensures TileStats(l, w, tl, tw).cut == 0 <==>
            (w / tw == (w / tw).Floor as real && l / tl == (l / tl).Floor as real)
  {
    TileGridPartition(l, w, tl, tw);
    FitCountOfGrid(w, tw);
    FitCountOfGrid(l, tl);
    FloorEqualsCeilIffInteger(w / tw);
    FloorEqualsCeilIffInteger(l / tl);
    ProductAtMaximum((w / tw).Floor, (l / tl).Floor, Ceil(w / tw), Ceil(l / tl));
  }

  lemma RealProductMono(a: real, b: real, c: real, d: real)
    requires 0.0 <= a <= b && 0.0 <= c <= d
    ensures a * c <= b * d
  {
    assert a * c <= b * c;
    assert b * c <= b * d;
  }

  /** `ceil(len / t)` tiles of size t span at least len. */
  lemma TilesSpan(len: real, t: real)
    requires t > 0.0
    ensures Ceil(len / t) as real * t >= len
  {
    assert Ceil(len / t) as real >= len / t;
  }

  lemma TilesSpanCount(n: int, len: real, t: real)
    requires t > 0.0 && n == Ceil(len / t)
    ensures n as real * t >= len
  {
    TilesSpan(len, t);
  }

  lemma Rearrange(a: real, b: real, c: real, d: real)
    ensures (a * b) * (c * d) == (a * d) * (b * c)
  {
  }

  /** Waste over a covered area that contains the room is under 100%. */
  lemma WasteRatio(covered: real, roomArea: real)
    requires 0.0 < roomArea <= covered
    ensures 0.0 <= (covered - roomArea) / covered * 100.0 < 100.0
  {
    assert (covered - roomArea) / covered < 1.0;
  }

  lemma PercentForm(part: real, whole: real)
    requires whole > 0.0
    ensures part / whole * 100.0 == 100.0 * part / whole
  {
  }

  /** The area figures of a grid whose cells span the room on both axes. */
  lemma CoveringGridFigures(cols: int, rows: int, full: int, cut: int, l: real, w: real, tl: real, tw: real)
    requires l > 0.0 && w > 0.0 && tl > 0.0 && tw > 0.0
    requires full + cut == cols * rows
    requires cols as real * tw >= w && rows as real * tl >= l
    ensures var s := WasteFigures(cols, rows, full, cut, l, w, tl, tw);
            s.covered >= s.roomArea > 0.0
            && s.cutWasteArea == s.covered - s.roomArea
            && s.cutWastePct == 100.0 * (s.covered - s.roomArea) / s.covered
            && 0.0 <= s.cutWastePct < 100.0
  {
    var s := WasteFigures(cols, rows, full, cut, l, w, tl, tw);
    var c, r := cols as real, rows as real;
    RealProductMono(l, r * tl, w, c * tw);
    assert s.covered == (c * r) * (tl * tw);
    Rearrange(c, r, tl, tw);
    assert s.roomArea == l * w > 0.0;
    WasteRatio(s.covered, s.roomArea);
    PercentForm(s.covered - s.roomArea, s.covered);
  }

  /** The laid grid covers the room, so the cut waste is the covered area
      minus the room area and is less than 100% of the covered area. */
  lemma CutWasteBounds(l: real, w: real, tl: real, tw: real)
    requires l > 0.0 && w > 0.0 && tl > 0.0 && tw > 0.0
    ensures var s := TileStats(l, w, tl, tw);
            s.covered >= s.roomArea > 0.0
            && s.cutWasteArea == s.covered - s.roomArea
            && s.cutWastePct == 100.0 * (s.covered - s.roomArea) / s.covered
            && 0.0 <= s.cutWastePct < 100.0
  {
    TileGridPartition(l, w, tl, tw);
    var s := TileStats(l, w, tl, tw);
    TilesSpanCount(s.cols, w, tw);
    TilesSpanCount(s.rows, l, tl);
    assert s == WasteFigures(s.cols, s.rows, s.full, s.cut, l, w, tl, tw);
    CoveringGridFigures(s.cols, s.rows, s.full, s.cut, l, w, tl, tw);
  }

  datatype Purchase = Purchase(purchaseTiles: int, purchaseWasteArea: real, purchaseWastePct: real, purchaseCovered: real)

  /** `purchaseWaste`: the tiles to buy for the room area plus the allowance. */
  function PurchaseWaste(roomArea: real, panelArea: real, allowancePct: real): (p: Purchase)
    ensures panelArea == 0.0 || roomArea == 0.0 ==> p == Purchase(0, 0.0, 0.0, 0.0)
    ensures p.purchaseWasteArea >= 0.0
    ensures p.purchaseCovered == p.purchaseTiles as real * panelArea
    ensures p.purchaseCovered > 0.0 ==> p.purchaseWastePct == p.purchaseWasteArea / p.purchaseCovered * 100.0
    ensures p.purchaseCovered <= 0.0 ==> p.purchaseWastePct == 0.0
  {
    if panelArea == 0.0 || roomArea == 0.0 then
      Purchase(0, 0.0, 0.0, 0.0)
    else
      var areaWithAllowance := roomArea * (1.0 + allowancePct / 100.0);
      var purchaseTiles := Ceil(areaWithAllowance / panelArea);
      var purchaseCovered := purchaseTiles as real * panelArea;
      var purchaseWasteArea := MaxR(0.0, purchaseCovered - roomArea);
      var purchaseWastePct := if purchaseCovered > 0.0 then (purchaseWasteArea / purchaseCovered) * 100.0 else 0.0;
      Purchase(purchaseTiles, purchaseWasteArea, purchaseWastePct, purchaseCovered)
  }

  lemma PurchaseTilesFormula(roomArea: real, panelArea: real, allowancePct: real)
    requires roomArea != 0.0 && panelArea != 0.0
    ensures PurchaseWaste(roomArea, panelArea, allowancePct).purchaseTiles
            == Ceil((roomArea * (1.0 + allowancePct / 100.0)) / panelArea)
  {
  }

  lemma CeilMono(x: real, y: real)
    requires x <= y
    ensures Ceil(x) <= Ceil(y)
  {
  }

  lemma DivMono(x: real, y: real, p: real)
    requires x <= y && p > 0.0
    ensures x / p <= y / p
  {
  }

  /** With a non-negative allowance the purchase never buys fewer tiles than
      the bare area needs, covers the room, and wastes less than 100%. */
  lemma PurchaseBounds(roomArea: real, panelArea: real, allowancePct: real)
    requires roomArea > 0.0 && panelArea > 0.0 && allowancePct >= 0.0
    ensures var p := PurchaseWaste(roomArea, panelArea, allowancePct);
            p.purchaseTiles >= Ceil(roomArea / panelArea)
            && p.purchaseCovered == p.purchaseTiles as real * panelArea >= roomArea
            && p.purchaseWasteArea == p.purchaseCovered - roomArea
            && p.purchaseWastePct == 100.0 * (p.purchaseCovered - roomArea) / p.purchaseCovered
            && 0.0 <= p.purchaseWastePct < 100.0
  {
    var withAllowance := roomArea * (1.0 + allowancePct / 100.0);
    AllowanceGrows(roomArea, allowancePct);
    DivMono(roomArea, withAllowance, panelArea);
    CeilMono(roomArea / panelArea, withAllowance / panelArea);
    TilesSpan(withAllowance, panelArea);
    var p := PurchaseWaste(roomArea, panelArea, allowancePct);
    WasteRatio(p.purchaseCovered, roomArea);
  }

  lemma AllowanceGrows(area: real, pct: real)
    requires area > 0.0 && pct >= 0.0
    ensures area * (1.0 + pct / 100.0) >= area
  {
    assert area * (pct / 100.0) >= 0.0;
  }

  /** `coveragePct`: the laid area as a percentage of the room, capped at 100. */
  function CoveragePct(s: Stats): (pct: real)
    ensures pct <= 100.0
  {
    MinR(100.0, if s.roomArea != 0.0 then (s.covered / s.roomArea) * 100.0 else 0.0)
  }

  lemma PercentAtLeastHundred(part: real, whole: real)
    requires 0.0 < whole <= part
    ensures (part / whole) * 100.0 >= 100.0
  {
    assert part / whole >= 1.0;
  }

  /** With tile sizes as `normalizeFeet` produces them, the coverage lies in
      [0, 100]; for a real room and tile it is exactly 100. */
  lemma CoverageInRange(l: real, w: real, tl: real, tw: real)
    requires tl >= 0.0 && tw >= 0.0
    ensures 0.0 <= CoveragePct(TileStats(l, w, tl, tw)) <= 100.0
    ensures l > 0.0 && w > 0.0 && tl > 0.0 && tw > 0.0 ==> CoveragePct(TileStats(l, w, tl, tw)) == 100.0
  {
    var s := TileStats(l, w, tl, tw);
    if !AnyZero(l, w, tl, tw) {
      if l > 0.0 && w > 0.0 {
        CutWasteBounds(l, w, tl, tw);
        PercentAtLeastHundred(s.covered, s.roomArea);
      } else {
        assert w < 0.0 || l < 0.0;
        if w < 0.0 {
          assert w / tw < 0.0;
          assert s.cols <= 0;
        } else {
          assert l / tl < 0.0;
          assert s.rows <= 0;
        }
        assert s.full + s.cut == 0;
        assert s.covered == 0.0;
      }
    }
  }

  /** A room record as the result page receives it. A field is `None` when it
      is absent or not a number. */
  datatype RoomRecord = RoomRecord(
    name: string, length: Option<real>, width: Option<real>, area: Option<real>,
    tiles: Option<real>, tileCount: Option<real>, cost: Option<real>, estimatedCost: Option<real>)

  /** `Number(x) || fallback`: a missing, non-numeric or zero value falls back. */
  function Or(x: Option<real>, fallback: real): (r: real)
    ensures Truthy(x) ==> r == x.value
    ensures !Truthy(x) ==> r == fallback
  {
    if x.Some? && x.value != 0.0 then x.value else fallback
  }

  predicate Truthy(x: Option<real>)
  {
    x.Some? && x.value != 0.0
  }

  /** The rooms shown: the given rooms, or else one "Room 1" built from the
      legacy single-room fields when a legacy length or width is set. */
  function RoomsShown(roomsIn: seq<RoomRecord>, rl: Option<real>, rw: Option<real>, totalArea: Option<real>,
                      tiles: Option<real>, cost: Option<real>): (rooms: seq<RoomRecord>)
    ensures roomsIn != [] ==> rooms == roomsIn
    ensures roomsIn == [] && !Truthy(rl) && !Truthy(rw) ==> rooms == []
    ensures roomsIn == [] && (Truthy(rl) || Truthy(rw)) ==>
              |rooms| == 1 && rooms[0].name == "Room 1"
              && rooms[0].length == Some(Or(rl, 0.0)) && rooms[0].width == Some(Or(rw, 0.0))
              && rooms[0].area == Some(Or(totalArea, Or(rl, 0.0) * Or(rw, 0.0)))
              && rooms[0].tiles == Some(Or(tiles, 0.0)) && rooms[0].cost == Some(Or(cost, 0.0))
  {
    var legacy :=
      if roomsIn == [] && (Truthy(rl) || Truthy(rw)) then
        [RoomRecord("Room 1", Some(Or(rl, 0.0)), Some(Or(rw, 0.0)),
                    Some(Or(totalArea, Or(rl, 0.0) * Or(rw, 0.0))),
                    Some(Or(tiles, 0.0)), None, Some(Or(cost, 0.0)), None)]
      else [];
    if |roomsIn| > 0 then roomsIn else legacy
  }

  datatype Totals = Totals(totalArea: real, totalTiles: real, totalCost: real)

  function AreaOf(r: RoomRecord): real { Or(r.area, Or(r.length, 0.0) * Or(r.width, 0.0)) }
  function TilesOf(r: RoomRecord): real { Or(r.tiles, Or(r.tileCount, 0.0)) }
  function CostOf(r: RoomRecord): real { Or(r.cost, Or(r.estimatedCost, 0.0)) }

  function SumArea(rooms: seq<RoomRecord>): real
  {
    if rooms == [] then 0.0 else SumArea(rooms[..|rooms| - 1]) + AreaOf(rooms[|rooms| - 1])
  }

  function SumTiles(rooms: seq<RoomRecord>): real
  {
    if rooms == [] then 0.0 else SumTiles(rooms[..|rooms| - 1]) + TilesOf(rooms[|rooms| - 1])
  }

  function SumCost(rooms: seq<RoomRecord>): real
  {
    if rooms == [] then 0.0 else SumCost(rooms[..|rooms| - 1]) + CostOf(rooms[|rooms| - 1])
  }

  /** A number that `|| 0` has already passed through reads back unchanged. */
  lemma OrOfOrZero(x: Option<real>)
    ensures Or(Some(Or(x, 0.0)), 0.0) == Or(x, 0.0)
  {
  }

  /** The legacy room's figures survive the second `|| 0` fallback of the
      totals: its area is the legacy total area, or else length × width. */
  lemma LegacyRoomFigures(rl: Option<real>, rw: Option<real>, totalArea: Option<real>, tiles: Option<real>, cost: Option<real>)
    requires Truthy(rl) || Truthy(rw)
    ensures var room := RoomsShown([], rl, rw, totalArea, tiles, cost)[0];
            AreaOf(room) == Or(totalArea, Or(rl, 0.0) * Or(rw, 0.0))
            && TilesOf(room) == Or(tiles, 0.0) && CostOf(room) == Or(cost, 0.0)
  {
    var room := RoomsShown([], rl, rw, totalArea, tiles, cost)[0];
    OrOfOrZero(rl);
    OrOfOrZero(rw);
    OrOfOrZero(tiles);
    OrOfOrZero(cost);
    assert Or(room.length, 0.0) * Or(room.width, 0.0) == Or(rl, 0.0) * Or(rw, 0.0);
  }

  /** `computedTotals`, used only when no totals were passed in. */
  function ShownTotals(given: Option<Totals>, rooms: seq<RoomRecord>): (t: Totals)
    ensures given.Some? ==> t == given.value
    ensures given.None? && rooms == [] ==> t == Totals(0.0, 0.0, 0.0)
    ensures given.None? ==> t == Totals(SumArea(rooms), SumTiles(rooms), SumCost(rooms))
  {
    var computed := if |rooms| > 0 then Totals(SumArea(rooms), SumTiles(rooms), SumCost(rooms))
                    else Totals(0.0, 0.0, 0.0);
    if given.Some? then given.value else computed
  }

  /** With no rooms array and no totals passed in, the totals shown are the
      legacy figures: the legacy area (or length × width), tile count and cost. */
  lemma {:induction false} LegacyTotals(rl: Option<real>, rw: Option<real>, totalArea: Option<real>, tiles: Option<real>, cost: Option<real>)
    requires Truthy(rl) || Truthy(rw)
    ensures ShownTotals(None, RoomsShown([], rl, rw, totalArea, tiles, cost))
            == Totals(Or(totalArea, Or(rl, 0.0) * Or(rw, 0.0)), Or(tiles, 0.0), Or(cost, 0.0))
  {
    var rooms := RoomsShown([], rl, rw, totalArea, tiles, cost);
    LegacyRoomFigures(rl, rw, totalArea, tiles, cost);
    assert |rooms| == 1 && rooms[..0] == [];
    assert SumArea(rooms) == AreaOf(rooms[0]);
    assert SumTiles(rooms) == TilesOf(rooms[0]);
    assert SumCost(rooms) == CostOf(rooms[0]);
  }

  /** The room previewed: `rooms[active] || rooms[0] || {}`, `None`
      standing for the empty object. */
  function ActiveRoom(rooms: seq<RoomRecord>, active: int): (r: Option<RoomRecord>)
    ensures 0 <= active < |rooms| ==> r == Some(rooms[active])
    ensures !(0 <= active < |rooms|) && rooms != [] ==> r == Some(rooms[0])
    ensures r.None? <==> rooms == []
  {
    if 0 <= active < |rooms| then Some(rooms[active])
    else if |rooms| > 0 then Some(rooms[0])
    else None
  }

  datatype Preview = Preview(stats: Stats, buy: Purchase, coveragePct: real)

  /** The statistics shown for the previewed room: the tile grid of its
      length and width (0 when missing) with the tile sides in feet. */
  function PreviewOf(rooms: seq<RoomRecord>, active: int, tileLength: Option<real>, tileWidth: Option<real>,
                     allowance: real): (p: Preview)
    ensures var room := ActiveRoom(rooms, active);
            var l := if room.Some? then Or(room.value.length, 0.0) else 0.0;
            var w := if room.Some? then Or(room.value.width, 0.0) else 0.0;
            p.stats == TileStats(l, w, NormalizeFeet(tileLength), NormalizeFeet(tileWidth))
    ensures p.coveragePct == CoveragePct(p.stats)
    ensures 0.0 <= p.coveragePct <= 100.0
    ensures p.buy == PurchaseWaste(p.stats.roomArea, p.stats.panelArea, allowance)
  {
    var tl := NormalizeFeet(tileLength);
    var tw := NormalizeFeet(tileWidth);
    var room := ActiveRoom(rooms, active);
    var l := if room.Some? then Or(room.value.length, 0.0) else 0.0;
    var w := if room.Some? then Or(room.value.width, 0.0) else 0.0;
    var stats := TileStats(l, w, tl, tw);
    CoverageInRange(l, w, tl, tw);
    Preview(stats, PurchaseWaste(stats.roomArea, stats.panelArea, allowance), CoveragePct(stats))
  }
}
