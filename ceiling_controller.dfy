/** The batch ceiling estimate handler: checks the request body, estimates every
    room with the server calculator and sums the recommended costs and savings.
    The HTTP response object is replaced by a returned `Result`. */
module CeilingController {
  import opened Common
  import opened ServerCeiling

  datatype RoomRequest = RoomRequest(name: string, length: real, width: real)

  /** `rooms` is `None` when the body's `rooms` is not an array; `prices` is
      `None` when it is missing. */
  datatype Request = Request(rooms: Option<seq<RoomRequest>>, prices: Option<Prices>)

  datatype Response = Response(results: seq<Layout>, totalCost: real, totalSavings: real)

  datatype Failure = BadRequest(status: int, message: string)

  /** `{ room: name, ...layout }`: the submitted name is written first and the
      spread of the layout then overwrites it with the size text. */
  function RoomEntry(room: RoomRequest, prices: Prices): (e: Layout)
    ensures e == CalculateLayout(room.length, room.width, prices)
    ensures e.room == SizeText(room.length, room.width)
  {
    var layout := CalculateLayout(room.length, room.width, prices);
    var named := layout.(room := SubmittedName(room.name));
    named.(room := layout.room)
  }

  /** `rooms.map(...)`: one entry per room, in input order. */
  function Results(rooms: seq<RoomRequest>, prices: Prices): (rs: seq<Layout>)
    ensures |rs| == |rooms|
    ensures forall i :: 0 <= i < |rooms| ==> rs[i] == RoomEntry(rooms[i], prices)
  {
    seq(|rooms|, i requires 0 <= i < |rooms| => RoomEntry(rooms[i], prices))
  }

  /** `results.reduce((sum, r) => sum + r.recommended.cost, 0)`. */
  function TotalCost(results: seq<Layout>): real
  {
    if results == [] then 0.0 else TotalCost(results[..|results| - 1]) + results[|results| - 1].recommended.cost
  }

  /** `results.reduce((sum, r) => sum + r.savings, 0)`. */
  function TotalSavings(results: seq<Layout>): real
  {
    if results == [] then 0.0 else TotalSavings(results[..|results| - 1]) + results[|results| - 1].savings
  }

  /** The handler: a 400 error when `rooms` is not an array or `prices` is
      missing, otherwise the per-room results and their totals. */
  function CalculateEstimate(req: Request): (r: Result<Response, Failure>)
    ensures r.Err? <==> req.rooms.None? || req.prices.None?
    ensures r.Err? ==> r.error.status == 400
    ensures r.Ok? ==> |r.value.results| == |req.rooms.value|
    ensures r.Ok? ==> forall i :: 0 <= i < |req.rooms.value| ==>
              r.value.results[i] == CalculateLayout(req.rooms.value[i].length, req.rooms.value[i].width, req.prices.value)
    ensures r.Ok? ==> r.value.results == Results(req.rooms.value, req.prices.value)
                      && r.value.totalCost == TotalCost(r.value.results)
                      && r.value.totalSavings == TotalSavings(r.value.results)
                      && r.value.totalSavings >= 0.0
    ensures r.Ok? && req.rooms.value == [] ==> r.value.totalCost == 0.0 && r.value.totalSavings == 0.0
  {
    if req.rooms.None? || req.prices.None? then
      Err(BadRequest(400, "rooms array and prices are required"))
    else
      var results := Results(req.rooms.value, req.prices.value);
      TotalSavingsNonNegative(req.rooms.value, req.prices.value);
      Ok(Response(results, TotalCost(results), TotalSavings(results)))
  }

  /** What every room would cost if all used the same orientation `k`. */
  function TotalCostOfOption(results: seq<Layout>, k: nat): real
    requires k < 2
    requires forall i :: 0 <= i < |results| ==> |results[i].options| == 2
  {
    if results == [] then 0.0
    else TotalCostOfOption(results[..|results| - 1], k) + results[|results| - 1].options[k].cost
  }

  /** What the calculator promises of one layout: two options, the
      recommended one no dearer than either, and savings that bring it up to
      the dearer one. */
  predicate SoundLayout(r: Layout)
  {
    |r.options| == 2 && r.savings >= 0.0
    && r.recommended.cost <= r.options[0].cost && r.recommended.cost <= r.options[1].cost
    && r.recommended.cost + r.savings >= r.options[0].cost
    && r.recommended.cost + r.savings >= r.options[1].cost
  }

  lemma LayoutIsSound(length: real, width: real, prices: Prices)
    ensures SoundLayout(CalculateLayout(length, width, prices))
  {
  }

  /** The sums over sound layouts: savings not negative, the recommended
      total no dearer than one fixed orientation, and with the savings added
      no cheaper than it. */
  lemma {:induction false} SoundTotals(rs: seq<Layout>, k: nat)
    requires k < 2
    requires forall i :: 0 <= i < |rs| ==> SoundLayout(rs[i]) && |rs[i].options| == 2
    ensures TotalSavings(rs) >= 0.0
    ensures TotalCost(rs) <= TotalCostOfOption(rs, k)
    ensures TotalCost(rs) + TotalSavings(rs) >= TotalCostOfOption(rs, k)
  {
    if rs != [] {
      var front := rs[..|rs| - 1];
      assert forall i :: 0 <= i < |front| ==> front[i] == rs[i];
      SoundTotals(front, k);
    }
  }

  lemma ResultsAreSound(rooms: seq<RoomRequest>, prices: Prices)
    ensures forall i :: 0 <= i < |rooms| ==>
              SoundLayout(Results(rooms, prices)[i]) && |Results(rooms, prices)[i].options| == 2
  {
    var rs := Results(rooms, prices);
    forall i | 0 <= i < |rooms| ensures SoundLayout(rs[i]) && |rs[i].options| == 2 {
      LayoutIsSound(rooms[i].length, rooms[i].width, prices);
    }
  }

  /** Every layout produced by the calculator has non-negative savings, so the
      summed savings are non-negative. */
  lemma TotalSavingsNonNegative(rooms: seq<RoomRequest>, prices: Prices)
    ensures TotalSavings(Results(rooms, prices)) >= 0.0
  {
    ResultsAreSound(rooms, prices);
    SoundTotals(Results(rooms, prices), 0);
  }

  /** The recommended total never exceeds laying every room in one fixed
      orientation, and adding the savings gives at least the total of that
      orientation. */
  lemma TotalCostIsBest(rooms: seq<RoomRequest>, prices: Prices, k: nat)
    requires k < 2
    ensures var rs := Results(rooms, prices);
            TotalCost(rs) <= TotalCostOfOption(rs, k)
            && TotalCost(rs) + TotalSavings(rs) >= TotalCostOfOption(rs, k)
  {
    ResultsAreSound(rooms, prices);
    SoundTotals(Results(rooms, prices), k);
  }
}
