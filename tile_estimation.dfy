/** The tile estimation form: the list of rooms being edited, the validation
    of the global tile details and the rooms, and the per-room estimate that
    is handed to the result page. Text fields are represented by what
    `parseFloat` makes of them (`None` for a non-finite reading); room ids,
    the elapsed time and the stored estimate counter are given values. */
module TileEstimation {
  import opened Common
  import TileResult

  /** `parseNum(v, fb)`: the parsed value when it is finite, else the fallback
      (`None` plays the role of `NaN`). */
  function ParseNum(parsed: Option<real>, fallback: Option<real>): (r: Option<real>)
    ensures parsed.Some? ==> r == parsed
    ensures parsed.None? ==> r == fallback
  {
    if parsed.Some? then parsed else fallback
  }

  /** A value passes `Number.isFinite(n) && n > 0`, or `n > 0` (false for NaN). */
  predicate Positive(x: Option<real>)
  {
    x.Some? && x.value > 0.0
  }

  datatype RoomForm = RoomForm(id: int, name: string, length: Option<real>, width: Option<real>)

  /** The label of the n-th room, `Room ${n}`. */
  function RoomLabel(n: nat): (s: string)
    ensures |s| > 5 && s[..5] == "Room "
    ensures forall i :: 5 <= i < |s| ==> IsDigitChar(s[i])
    ensures DigitsValue(s[5..]) == n
  {
    "Room " + DecimalText(n)
  }

  /** `addRoom`: one new room, labelled after the new list length, with empty
      dimensions. */
  function AddRoom(rooms: seq<RoomForm>, newId: int): (r: seq<RoomForm>)
    ensures |r| == |rooms| + 1 && r[..|rooms|] == rooms
    ensures r[|rooms|] == RoomForm(newId, RoomLabel(|rooms| + 1), None, None)
  {
    rooms + [RoomForm(newId, RoomLabel(|rooms| + 1), None, None)]
  }

  /** The rooms whose id differs from `id`, in their original order. */
  function WithoutId(rooms: seq<RoomForm>, id: int): (r: seq<RoomForm>)
    ensures |r| <= |rooms|
    ensures forall x :: x in r <==> x in rooms && x.id != id
  {
    Filter(rooms, (x: RoomForm) => x.id != id)
  }

  /** `removeRoom`: a list of exactly one room is kept as it is. */
  function RemoveRoom(rooms: seq<RoomForm>, id: int): (r: seq<RoomForm>)
    ensures |rooms| == 1 ==> r == rooms
    ensures |rooms| != 1 ==> r == WithoutId(rooms, id)
  {
    if |rooms| == 1 then rooms else WithoutId(rooms, id)
  }

  predicate UniqueIds(rooms: seq<RoomForm>)
  {
    forall i, j :: 0 <= i < j < |rooms| ==> rooms[i].id != rooms[j].id
  }

  /** With distinct ids, removing one id drops at most one room. */
  lemma {:induction false} WithoutIdDropsAtMostOne(rooms: seq<RoomForm>, id: int)
    requires UniqueIds(rooms)
    ensures |WithoutId(rooms, id)| >= |rooms| - 1
    ensures (forall x :: x in rooms ==> x.id != id) ==> WithoutId(rooms, id) == rooms
  {
    if rooms != [] {
      WithoutIdDropsAtMostOne(rooms[1..], id);
      if rooms[0].id == id {
        FilterKeepsAll(rooms[1..], (x: RoomForm) => x.id != id);
      }
    }
  }

  /** A non-empty list with distinct ids never becomes empty, and only the
      room with the given id can disappear. */
  lemma RemoveRoomKeepsOne(rooms: seq<RoomForm>, id: int)
    requires |rooms| >= 1 && UniqueIds(rooms)
    ensures |RemoveRoom(rooms, id)| >= 1
    ensures forall x :: x in rooms && x.id != id ==> x in RemoveRoom(rooms, id)
  {
    WithoutIdDropsAtMostOne(rooms, id);
  }

  /** The field an input edits, with the new value. */
  datatype Edit = SetName(name: string) | SetLength(length: Option<real>) | SetWidth(width: Option<real>)

  /** `{ ...x, [field]: value }`: exactly one field takes the new value. */
  function Apply(room: RoomForm, e: Edit): (r: RoomForm)
    ensures r.id == room.id
    ensures r.name == (if e.SetName? then e.name else room.name)
    ensures r.length == (if e.SetLength? then e.length else room.length)
    ensures r.width == (if e.SetWidth? then e.width else room.width)
  {
    match e
    case SetName(n) => room.(name := n)
    case SetLength(v) => room.(length := v)
    case SetWidth(v) => room.(width := v)
  }

  /** `setRoom`: every room with the id is edited, the others are kept. */
  function SetRoom(rooms: seq<RoomForm>, id: int, e: Edit): (r: seq<RoomForm>)
    ensures |r| == |rooms|
    ensures forall i :: 0 <= i < |rooms| ==> r[i] == (if rooms[i].id == id then Apply(rooms[i], e) else rooms[i])
  {
    seq(|rooms|, i requires 0 <= i < |rooms| => if rooms[i].id == id then Apply(rooms[i], e) else rooms[i])
  }

  /** Why an estimate was refused; the room alert quotes `r.name || 'Room n'`. */
  datatype Alert = InvalidGlobals | InvalidRoom(name: string)

  datatype RoomResult = RoomResult(name: string, length: real, width: real, area: real, tiles: int, cost: real)

  datatype Estimate = Estimate(
    timeSaved: real, tileLength: real, tileWidth: real, allowance: real, price: real,
    rooms: seq<RoomResult>, totals: TileResult.Totals)

  /** The allowance as read: an unparsable allowance counts as 0. */
  function AllowanceOf(allowance: Option<real>): real
  {
    ParseNum(allowance, Some(0.0)).value
  }

  predicate GlobalsOk(tileLength: Option<real>, tileWidth: Option<real>, allowance: Option<real>, price: Option<real>)
  {
    Positive(tileLength) && Positive(tileWidth) && Positive(price) && AllowanceOf(allowance) >= 0.0
  }

  predicate RoomOk(r: RoomForm)
  {
    Positive(r.length) && Positive(r.width)
  }

  /** The tiles for a room of the given area: the area over one tile's area,
      grown by the allowance, rounded up. */
  function TilesFor(area: real, tl: real, tw: real, allow: real): (n: int)
    requires tl > 0.0 && tw > 0.0
    ensures (n - 1) as real * (tl * tw) < area * (1.0 + allow / 100.0) <= n as real * (tl * tw)
  {
    var k := Ceil((area / (tl * tw)) * (1.0 + allow / 100.0));
    FewestCovering(area, tl * tw, 1.0 + allow / 100.0, k);
    k
  }

  /** Rounding `area / tileArea · g` up gives the fewest tiles whose area
      reaches `area · g`. */
  lemma FewestCovering(area: real, p: real, g: real, k: int)
    requires p > 0.0 && k == Ceil((area / p) * g)
    ensures (k - 1) as real * p < area * g <= k as real * p
  {
    var x := (area / p) * g;
    assert x * p == area * g;
    assert (k - 1) as real < x <= k as real;
    assert (k - 1) as real * p < x * p;
    assert x * p <= k as real * p;
  }

  /** The name carried to the result: `r.name?.trim() || 'Room ' + (i+1)`. */
  function ResultName(name: string, i: nat): (s: string)
    ensures s != []
    ensures Trim(name) != [] ==> s == Trim(name)
    ensures Trim(name) == [] ==> s == RoomLabel(i + 1)
  {
    if Trim(name) != [] then Trim(name) else RoomLabel(i + 1)
  }

  /** The name quoted in the alert: `r.name || 'Room ' + (i+1)`. */
  function AlertName(name: string, i: nat): (s: string)
    ensures name != [] ==> s == name
    ensures name == [] ==> s == RoomLabel(i + 1)
  {
    if name != [] then name else RoomLabel(i + 1)
  }

  /** One entry of `perRoom`. */
  function RoomResultOf(r: RoomForm, i: nat, tl: real, tw: real, allow: real, unit: real): (res: RoomResult)
    requires RoomOk(r) && tl > 0.0 && tw > 0.0
    ensures res.name != [] && res.length > 0.0 && res.width > 0.0 && res.area > 0.0
    ensures res.cost == res.tiles as real * unit
  {
    var l := r.length.value;
    var w := r.width.value;
    var area := l * w;
    PositiveProduct(l, w);
    var tiles := TilesFor(area, tl, tw, allow);
    RoomResult(ResultName(r.name, i), l, w, area, tiles, tiles as real * unit)
  }

  /** The entry of a room: its dimensions, their product, the tiles for
      that area and their price. */
  lemma RoomResultFields(r: RoomForm, i: nat, tl: real, tw: real, allow: real, unit: real)
    requires RoomOk(r) && tl > 0.0 && tw > 0.0
    ensures var res := RoomResultOf(r, i, tl, tw, allow, unit);
            res.name == ResultName(r.name, i)
            && res.length == r.length.value && res.width == r.width.value
            && res.area == r.length.value * r.width.value
            && res.tiles == TilesFor(res.area, tl, tw, allow) && res.cost == res.tiles as real * unit
  {
  }

  /** `perRoom` once every room has passed: one entry per room, in order,
      entry i computed from room i alone. */
  function PerRoom(rooms: seq<RoomForm>, tl: real, tw: real, allow: real, unit: real): (rs: seq<RoomResult>)
    requires forall i :: 0 <= i < |rooms| ==> RoomOk(rooms[i])
    requires tl > 0.0 && tw > 0.0
    ensures |rs| == |rooms|
  {
    seq(|rooms|, i requires 0 <= i < |rooms| => RoomResultOf(rooms[i], i, tl, tw, allow, unit))
  }

  /** Handling room i extends the entries of the rooms before it. */
  lemma PerRoomSnoc(rooms: seq<RoomForm>, i: nat, tl: real, tw: real, allow: real, unit: real)
    requires i < |rooms| && forall j :: 0 <= j <= i ==> RoomOk(rooms[j])
    requires tl > 0.0 && tw > 0.0
    ensures PerRoom(rooms[..i + 1], tl, tw, allow, unit)
            == PerRoom(rooms[..i], tl, tw, allow, unit) + [RoomResultOf(rooms[i], i, tl, tw, allow, unit)]
  {
    var lhs := PerRoom(rooms[..i + 1], tl, tw, allow, unit);
    var rhs := PerRoom(rooms[..i], tl, tw, allow, unit) + [RoomResultOf(rooms[i], i, tl, tw, allow, unit)];
    forall j | 0 <= j <= i ensures lhs[j] == rhs[j] {
      assert rooms[..i + 1][j] == rooms[j];
      if j < i {
        assert rooms[..i][j] == rooms[j];
      }
    }
  }

  /** Index of the first room with an invalid dimension, if any. */
  function FirstInvalid(rooms: seq<RoomForm>): (k: Option<nat>)
    ensures k.None? <==> forall i :: 0 <= i < |rooms| ==> RoomOk(rooms[i])
    ensures k.Some? ==> k.value < |rooms| && !RoomOk(rooms[k.value])
                        && forall i :: 0 <= i < k.value ==> RoomOk(rooms[i])
  {
    if rooms == [] then None
    else if !RoomOk(rooms[|rooms| - 1]) then
      var earlier := FirstInvalid(rooms[..|rooms| - 1]);
      if earlier.Some? then earlier else Some(|rooms| - 1)
    else
      FirstInvalid(rooms[..|rooms| - 1])
  }

  function TotalArea(rs: seq<RoomResult>): real
  {
    if rs == [] then 0.0 else TotalArea(rs[..|rs| - 1]) + rs[|rs| - 1].area
  }

  function TotalTiles(rs: seq<RoomResult>): real
  {
    if rs == [] then 0.0 else TotalTiles(rs[..|rs| - 1]) + rs[|rs| - 1].tiles as real
  }

  function TotalCost(rs: seq<RoomResult>): real
  {
    if rs == [] then 0.0 else TotalCost(rs[..|rs| - 1]) + rs[|rs| - 1].cost
  }

  /** What `handleEstimate` hands to the result page, as a function of its
      inputs. */
  function EstimateOf(elapsedMins: real, tileLength: Option<real>, tileWidth: Option<real>, allowance: Option<real>,
                      price: Option<real>, rooms: seq<RoomForm>): (r: Result<Estimate, Alert>)
    ensures !GlobalsOk(tileLength, tileWidth, allowance, price) ==> r == Err(InvalidGlobals)
    ensures GlobalsOk(tileLength, tileWidth, allowance, price) && FirstInvalid(rooms).Some? ==>
              var k := FirstInvalid(rooms).value;
              r == Err(InvalidRoom(AlertName(rooms[k].name, k)))
    ensures r.Ok? ==> |r.value.rooms| == |rooms| && r.value.timeSaved == MaxR(0.0, 15.0 - elapsedMins)
    ensures r.Ok? ==>
              GlobalsOk(tileLength, tileWidth, allowance, price)
              && (forall i :: 0 <= i < |rooms| ==> RoomOk(rooms[i]))
              && r.value.tileLength == tileLength.value && r.value.tileWidth == tileWidth.value
              && r.value.allowance == AllowanceOf(allowance) && r.value.price == price.value
              && r.value.rooms == PerRoom(rooms, tileLength.value, tileWidth.value, AllowanceOf(allowance), price.value)
              && r.value.totals == TileResult.Totals(TotalArea(r.value.rooms), TotalTiles(r.value.rooms), TotalCost(r.value.rooms))
  {
    if !GlobalsOk(tileLength, tileWidth, allowance, price) then Err(InvalidGlobals)
    else
      var k := FirstInvalid(rooms);
      if k.Some? then Err(InvalidRoom(AlertName(rooms[k.value].name, k.value)))
      else
        var tl, tw, allow, unit := tileLength.value, tileWidth.value, AllowanceOf(allowance), price.value;
        var perRoom := PerRoom(rooms, tl, tw, allow, unit);
        Ok(Estimate(MaxR(0.0, 15.0 - elapsedMins), tl, tw, allow, unit, perRoom,
                    TileResult.Totals(TotalArea(perRoom), TotalTiles(perRoom), TotalCost(perRoom))))
  }

  /** `handleEstimate`: the stored estimate counter is bumped before any
      validation; the globals are checked, then the rooms one by one, the
      first invalid room aborting the whole estimate. */
  method HandleEstimate(elapsedMins: real, storedCount: int, tileLength: Option<real>, tileWidth: Option<real>,
                        allowance: Option<real>, price: Option<real>, rooms: seq<RoomForm>)
    returns (newCount: int, r: Result<Estimate, Alert>)
    ensures newCount == storedCount + 1
    ensures r == EstimateOf(elapsedMins, tileLength, tileWidth, allowance, price, rooms)
  {
    var timeSaved := MaxR(0.0, 15.0 - elapsedMins);
    newCount := storedCount + 1;
    var tl := ParseNum(tileLength, None);
    var tw := ParseNum(tileWidth, None);
    var allow := ParseNum(allowance, Some(0.0)).value;
    var unit := ParseNum(price, None);
    if !(Positive(tl) && Positive(tw) && Positive(unit)) || allow < 0.0 {
      return newCount, Err(InvalidGlobals);
    }
    var perRoom: seq<RoomResult> := [];
    var i := 0;
    while i < |rooms|
      invariant 0 <= i <= |rooms|
      invariant forall j :: 0 <= j < i ==> RoomOk(rooms[j])
      invariant perRoom == PerRoom(rooms[..i], tl.value, tw.value, allow, unit.value)
    {
      var room := rooms[i];
      if !RoomOk(room) {
        assert FirstInvalid(rooms) == Some(i) by {
          FirstInvalidIs(rooms, i);
        }
        return newCount, Err(InvalidRoom(AlertName(room.name, i)));
      }
      PerRoomSnoc(rooms, i, tl.value, tw.value, allow, unit.value);
      perRoom := perRoom + [RoomResultOf(room, i, tl.value, tw.value, allow, unit.value)];
      i := i + 1;
    }
    assert rooms[..i] == rooms;
    var totals := TileResult.Totals(TotalArea(perRoom), TotalTiles(perRoom), TotalCost(perRoom));
    r := Ok(Estimate(timeSaved, tl.value, tw.value, allow, unit.value, perRoom, totals));
  }

  /** The first invalid room is the one every earlier room passes. */
  lemma FirstInvalidIs(rooms: seq<RoomForm>, i: nat)
    requires i < |rooms| && !RoomOk(rooms[i])
    requires forall j :: 0 <= j < i ==> RoomOk(rooms[j])
    ensures FirstInvalid(rooms) == Some(i)
  {
  }

  /** `valid`: the globals and every room pass the same checks as
      `handleEstimate`. */
  function Valid(tileLength: Option<real>, tileWidth: Option<real>, allowance: Option<real>,
                 price: Option<real>, rooms: seq<RoomForm>): (b: bool)
    ensures b <==> GlobalsOk(tileLength, tileWidth, allowance, price)
                   && forall i :: 0 <= i < |rooms| ==> RoomOk(rooms[i])
  {
    var globalsValid := Positive(ParseNum(tileLength, None)) && Positive(ParseNum(tileWidth, None))
                        && Positive(ParseNum(price, None)) && ParseNum(allowance, Some(0.0)).value >= 0.0;
    var roomsValid := forall i :: 0 <= i < |rooms| ==> RoomOk(rooms[i]);
    globalsValid && roomsValid
  }

  /** The form is flagged valid exactly when the estimate goes through. */
  lemma ValidIffEstimateSucceeds(elapsedMins: real, tileLength: Option<real>, tileWidth: Option<real>,
                                 allowance: Option<real>, price: Option<real>, rooms: seq<RoomForm>)
    ensures Valid(tileLength, tileWidth, allowance, price, rooms)
            <==> EstimateOf(elapsedMins, tileLength, tileWidth, allowance, price, rooms).Ok?
  {
  }

  /** One invalid room anywhere refuses the whole estimate. */
  lemma AllOrNothing(elapsedMins: real, tileLength: Option<real>, tileWidth: Option<real>,
                     allowance: Option<real>, price: Option<real>, rooms: seq<RoomForm>, k: nat)
    requires k < |rooms| && !RoomOk(rooms[k])
    ensures EstimateOf(elapsedMins, tileLength, tileWidth, allowance, price, rooms).Err?
  {
  }

  /** A successful estimate carries the parsed globals, and entry j is room
      j's dimensions, its area, the tiles for that area at the entered tile
      size and allowance, and their cost at the entered price. */
  lemma EstimateShape(elapsedMins: real, tileLength: Option<real>, tileWidth: Option<real>,
                      allowance: Option<real>, price: Option<real>, rooms: seq<RoomForm>)
    requires EstimateOf(elapsedMins, tileLength, tileWidth, allowance, price, rooms).Ok?
    ensures var e := EstimateOf(elapsedMins, tileLength, tileWidth, allowance, price, rooms).value;
            e.tileLength == tileLength.value > 0.0 && e.tileWidth == tileWidth.value > 0.0
            && e.price == price.value > 0.0 && e.allowance == AllowanceOf(allowance) >= 0.0
            && |e.rooms| == |rooms|
            && forall j :: 0 <= j < |rooms| ==>
                 RoomOk(rooms[j])
                 && e.rooms[j].length == rooms[j].length.value && e.rooms[j].width == rooms[j].width.value
                 && e.rooms[j].area == rooms[j].length.value * rooms[j].width.value
                 && e.rooms[j].tiles == TilesFor(e.rooms[j].area, tileLength.value, tileWidth.value, AllowanceOf(allowance))
                 && e.rooms[j].cost == e.rooms[j].tiles as real * price.value
  {
  }

  /** The entry of a valid room has a positive area, at least as many tiles
      as the bare area needs (and at least one), and a positive cost. */
  lemma EntryBounds(r: RoomForm, i: nat, tl: real, tw: real, allow: real, unit: real)
    requires RoomOk(r) && tl > 0.0 && tw > 0.0 && unit > 0.0 && allow >= 0.0
    ensures var rr := RoomResultOf(r, i, tl, tw, allow, unit);
            rr.area > 0.0 && rr.tiles >= Ceil(rr.area / (tl * tw)) >= 1 && rr.cost > 0.0
  {
    var l, w := r.length.value, r.width.value;
    PositiveProduct(l, w);
    TilesBounds(l * w, tl, tw, allow);
    PositiveProduct(TilesFor(l * w, tl, tw, allow) as real, unit);
  }

  lemma PositiveProduct(a: real, b: real)
    requires a > 0.0 && b > 0.0
    ensures a * b > 0.0
  {
  }

  lemma TilesBounds(area: real, tl: real, tw: real, allow: real)
    requires area > 0.0 && tl > 0.0 && tw > 0.0 && allow >= 0.0
    ensures TilesFor(area, tl, tw, allow) >= Ceil(area / (tl * tw)) >= 1
  {
    var base := area / (tl * tw);
    assert base > 0.0;
    assert base * (1.0 + allow / 100.0) >= base by {
      assert base * (allow / 100.0) >= 0.0;
    }
    TileResult.CeilMono(base, base * (1.0 + allow / 100.0));
  }

  /** The per-room tile count agrees with the result page's purchase count
      when the tile sizes are below 12, so no inch conversion applies. */
  lemma TilesMatchPurchase(area: real, tl: real, tw: real, allow: real)
    requires area != 0.0 && 0.0 < tl < 12.0 && 0.0 < tw < 12.0
    ensures TileResult.NormalizeFeet(Some(tl)) == tl && TileResult.NormalizeFeet(Some(tw)) == tw
    ensures TilesFor(area, tl, tw, allow) == TileResult.PurchaseWaste(area, tl * tw, allow).purchaseTiles
  {
    PositiveProduct(tl, tw);
    ScaledPurchase(area, tl * tw, allow);
  }

  /** Dividing by the tile area before or after adding the allowance gives
      the same count. */
  lemma ScaledPurchase(area: real, p: real, allow: real)
    requires area != 0.0 && p != 0.0
    ensures Ceil((area / p) * (1.0 + allow / 100.0)) == TileResult.PurchaseWaste(area, p, allow).purchaseTiles
  {
    TileResult.PurchaseTilesFormula(area, p, allow);
    ScaledCeil(area, p, allow);
  }

  lemma ScaledCeil(a: real, p: real, allow: real)
    requires p != 0.0
    ensures Ceil((a / p) * (1.0 + allow / 100.0)) == Ceil((a * (1.0 + allow / 100.0)) / p)
  {
    var q := a / p;
    assert a == q * p;
    assert (a * (1.0 + allow / 100.0)) / p == q * (1.0 + allow / 100.0);
  }

  /** The record the result page receives for one room. */
  function ToRecord(r: RoomResult): (rec: TileResult.RoomRecord)
    ensures rec.name == r.name && rec.length == Some(r.length) && rec.width == Some(r.width)
    ensures rec.area == Some(r.area) && rec.tiles == Some(r.tiles as real) && rec.cost == Some(r.cost)
  {
    TileResult.RoomRecord(r.name, Some(r.length), Some(r.width), Some(r.area), Some(r.tiles as real), None, Some(r.cost), None)
  }

  function ToRecords(rs: seq<RoomResult>): (recs: seq<TileResult.RoomRecord>)
    ensures |recs| == |rs|
    ensures forall i :: 0 <= i < |rs| ==> recs[i] == ToRecord(rs[i])
  {
    seq(|rs|, i requires 0 <= i < |rs| => ToRecord(rs[i]))
  }

  predicate AllPositive(rs: seq<RoomResult>)
  {
    forall i :: 0 <= i < |rs| ==> rs[i].area > 0.0 && rs[i].tiles > 0 && rs[i].cost > 0.0
  }

  /** With every area, tile count and cost non-zero, none of the result page's
      `||` fallbacks fires, so its computed totals equal the sums made here. */
  lemma {:induction false} ComputedTotalsAgree(rs: seq<RoomResult>)
    requires AllPositive(rs)
    ensures TileResult.SumArea(ToRecords(rs)) == TotalArea(rs)
    ensures TileResult.SumTiles(ToRecords(rs)) == TotalTiles(rs)
    ensures TileResult.SumCost(ToRecords(rs)) == TotalCost(rs)
  {
    if rs != [] {
      var n := |rs|;
      assert ToRecords(rs)[..n - 1] == ToRecords(rs[..n - 1]);
      ComputedTotalsAgree(rs[..n - 1]);
    }
  }

  /** The totals shown on the result page are those of the estimate, whether
      they are passed along or recomputed from the rooms. */
  lemma ShownTotalsAgree(elapsedMins: real, tileLength: Option<real>, tileWidth: Option<real>,
                         allowance: Option<real>, price: Option<real>, rooms: seq<RoomForm>)
    requires EstimateOf(elapsedMins, tileLength, tileWidth, allowance, price, rooms).Ok?
    ensures var e := EstimateOf(elapsedMins, tileLength, tileWidth, allowance, price, rooms).value;
            TileResult.ShownTotals(None, ToRecords(e.rooms)) == e.totals
            && TileResult.ShownTotals(Some(e.totals), ToRecords(e.rooms)) == e.totals
  {
    var e := EstimateOf(elapsedMins, tileLength, tileWidth, allowance, price, rooms).value;
    EstimateShape(elapsedMins, tileLength, tileWidth, allowance, price, rooms);
    forall i | 0 <= i < |rooms|
      ensures e.rooms[i].area > 0.0 && e.rooms[i].tiles > 0 && e.rooms[i].cost > 0.0
    {
      EntryBounds(rooms[i], i, e.tileLength, e.tileWidth, e.allowance, e.price);
    }
    ComputedTotalsAgree(e.rooms);
  }
}
