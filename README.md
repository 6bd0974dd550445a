# Material Estimator — a Dafny model of the estimation core

Material Estimator is a web application for shop owners. It estimates tile and
false-ceiling materials and their cost. It keeps saved projects, a price table
and a dashboard, and exports reports. This project models the logic of that
application, one Dafny module per source file:

- `ServerCeiling` (`server/utils/ceilingCalculator.js`) is the ceiling grid estimator:
  - the first-match room case list;
  - the two orientations of Main T-bars, each costed;
  - the recommendation of the strictly cheaper one, and the savings.
- `CeilingController` (`server/controllers/ceilingController.js`) is the batch handler:
  - it returns a 400 error when the rooms are not an array or the prices are missing;
  - otherwise it returns one layout per room, the summed recommended cost and the summed savings.
- `ClientCeiling` (`client/src/utils/ceilingCalculator.js`) is the older browser-side calculator. It has its own line formula, a `<=` tie rule and default prices.
- `TileEstimation` (`client/src/pages/TileEstimation.js`) is the tile form:
  - adding, removing and editing rooms;
  - the validity flag;
  - `handleEstimate`, which validates the globals and then the rooms one by one, and builds the per-room entries and totals.
- `TileResult` (`client/src/pages/TileEstimationResult.js`) is the result page's arithmetic:
  - inch-to-foot normalisation;
  - the nested loop that counts full and cut tiles, proved equal to a closed form;
  - cut waste, purchase waste and coverage;
  - the legacy single-room fallback, the recomputed totals and the previewed room.
- `Projects` (`client/src/pages/Projects.js`) is the saved-projects page, a class:
  - search and type filter, and the header counts;
  - pagination by ten and its navigation clamps;
  - the delete dialog.
- `Pricing` (`client/src/pages/PricingManagement.js`) is the price table, a class:
  - four protected core prices and the user's extra materials;
  - editing, deleting and adding.
- `Dashboard` (`client/src/pages/Dashboard.js`) holds the dashboard figures:
  - the total time saved and the project count;
  - a monthly tally, a loop over a 12-slot array;
  - the tile-only, ceiling-only and both distribution by trimmed, lower-cased project name.
- `Profile` (`client/src/pages/Profile.js`) is the password-strength meter `evaluatePassword`.
- `CeilingReport` (`client/src/pages/CeilingEstimationResult.js`) holds the non-drawing logic of the ceiling report:
  - `asciiSafe`;
  - the clamp on preview line counts;
  - the "Cheaper" column;
  - the PDF cursor with `ensureSpace` and page breaks, and the project card height;
  - the once-per-session record of the time saved.
- `Common` holds what these share: Option and Result, `Math.ceil`, JavaScript `trim`, ASCII lower-casing, `includes`, filtering, and decimal text.

Numbers are exact reals. A text input is represented by the number it parses to, with `None` standing for `NaN`, an empty input, `null` or `undefined`. Ids, clocks, confirmation dialogs, request outcomes and browser storage contents are passed in as parameters.

On a cost tie the server recommends the second option, "along Width": its reduce (`server/utils/ceilingCalculator.js:61`) keeps the first option only when it is strictly cheaper. The older client calculator uses `<=` and recommends "along Length" on a tie. `ClientCeiling.SquareRoomTieRulesDisagree` proves that the two calculators disagree on every square room. `CeilingReport.SquareRoomCheaperDisagrees` proves that the report's "Cheaper" column says "A" for such a room while the server recommends B.

The server calculator does not check the dimensions: `ServerCeiling.CalculateLayout` accepts any length and width, zero and negative ones included. `ServerCeiling.CountsNonNegative` states what holds for sides of at least 0.01 ft.

## Model

| member | source | states |
|---|---|---|
| ServerCeiling.DetectCase | server/utils/ceilingCalculator.js:2-15 | the first six range tests cover every pair of sides, so the result is always one of C1–C6; the result is C1 exactly when a side is below 2 |
| ServerCeiling.Trunc | server/utils/ceilingCalculator.js:9-10 | rounding toward zero: the integer between 0 and x less than one away from x, the quotient behind JavaScript's `%` |
| ServerCeiling.JsRem | server/utils/ceilingCalculator.js:9-10 | JavaScript's `a % b` is 0 exactly when a/b is a whole number, so `% 2` and `% 12` test divisibility; its laws are in JsRemLaws |
| ServerCeiling.JsRemLaws | server/utils/ceilingCalculator.js:9-10 | JavaScript's `a % b`: a = b·trunc(a/b) + remainder, the remainder has the sign of a and is smaller than b in magnitude |
| ServerCeiling.JsRemExamples | server/utils/ceilingCalculator.js:9-10 | `-7 % 2` is -1 and `7.5 % 2` is 1.5, unlike a floored remainder |
| ServerCeiling.OptionFor | server/utils/ceilingCalculator.js:30-59 | the option's quantities: lines of `floor((side-0.01)/2)`, segments of `ceil(side/12)`, panels `ceil(L·W/4)`, wall angles `ceil(2(L+W)/10)`; the cost is each quantity at its unit price; a join is required iff the Main T side exceeds 12 |
| ServerCeiling.BestIndex | server/utils/ceilingCalculator.js:61 | the reduce picks the first option only when it is strictly cheaper; the chosen one is never dearer |
| ServerCeiling.CalculateLayout | server/utils/ceilingCalculator.js:17-71 | the case of (longer, shorter) side; option A is OptionFor along Length with the longer side as Main T side, option B along Width with the shorter; the recommended one is one of them and no dearer than either; it is the first iff strictly cheaper; savings are the absolute cost difference, never negative; C5 never occurs |
| ServerCeiling.OptionForSwap | server/utils/ceilingCalculator.js:40-42 | panels and wall angles are symmetric in length and width |
| ServerCeiling.OptionForTagOnly | server/utils/ceilingCalculator.js:25-59 | two options with the same sides differ only in their orientation tag |
| ServerCeiling.SquareRoomTie | server/utils/ceilingCalculator.js:61-69 | a square room costs both options the same; the tie recommends "along Width" and saves 0 |
| ServerCeiling.SwapChangesOnlyRoom | server/utils/ceilingCalculator.js:17-71 | swapping length and width changes only the room text |
| ServerCeiling.PanelsAndWallAnglesShared | server/utils/ceilingCalculator.js:39-42 | panels and wall angles are the same in both options |
| ServerCeiling.EvenSideLineCount | server/utils/ceilingCalculator.js:31-32 | a side of 2k ft gets k-1 lines, and none on the far wall |
| ServerCeiling.EvenRoomAlongLength | server/utils/ceilingCalculator.js:30-38 | in a 2k × 2j ft room (k ≥ j) option A has j-1 Main T rows of the long side's segments and (k-1)·j Cross T pieces |
| ServerCeiling.OptionCountsNonNegative | server/utils/ceilingCalculator.js:30-42 | with sides of at least 0.01 every quantity of an option is non-negative |
| ServerCeiling.CountsNonNegative | server/utils/ceilingCalculator.js:17-59 | with sides of at least 0.01 every quantity of both options is non-negative |
| ServerCeiling.JoinRequiredIffTwoSegments | server/utils/ceilingCalculator.js:33-57 | a join is required exactly when a row needs two or more 12 ft segments |
| ServerCeiling.LayoutJoinFlags | server/utils/ceilingCalculator.js:25-57 | the join flag of each option is that of the longer or shorter side |
| CeilingController.RoomEntry | server/controllers/ceilingController.js:9-13 | the spread overwrites the submitted name, so the entry is the server layout and its `room` is the size text |
| CeilingController.Results | server/controllers/ceilingController.js:9-13 | one entry per room, in order, each the server layout of that room |
| CeilingController.CalculateEstimate | server/controllers/ceilingController.js:3-19 | error iff rooms missing or prices missing, status 400; otherwise the results room by room, `totalCost` the sum of the recommended costs and `totalSavings` the sum of the savings, never negative; zero totals for no rooms |
| CeilingController.LayoutIsSound | server/utils/ceilingCalculator.js:61-69 | each layout has two options, a recommendation no dearer than either, and savings lifting it to the dearer one |
| CeilingController.SoundTotals | server/controllers/ceilingController.js:15-16 | over sound layouts the summed savings are non-negative, and the summed cost lies between the all-k total minus the savings and the all-k total |
| CeilingController.ResultsAreSound | server/controllers/ceilingController.js:9-13 | every result entry is a sound layout |
| CeilingController.TotalSavingsNonNegative | server/controllers/ceilingController.js:16 | the total savings are never negative |
| CeilingController.TotalCostIsBest | server/controllers/ceilingController.js:15-16 | the total cost never exceeds laying every room in one fixed orientation, and with the savings added is at least that |
| ClientCeiling.DetectCase | client/src/utils/ceilingCalculator.js:4-17 | the result is always one of the six range tags; "Standard Case" never occurs |
| ClientCeiling.CalculateOption | client/src/utils/ceilingCalculator.js:20-46 | the orientation tag, the panels `ceil(L·W/4)` and the wall angles `ceil(2(L+W)/WA_len)` |
| ClientCeiling.Lines | client/src/utils/ceilingCalculator.js:24-25 | the lines at 2, 4, …, 2n ft are exactly those not beyond the side: 2n ≤ side < 2n + 2 (the closed form is LinesIsHalfSide) |
| ClientCeiling.CalculateMaterials | client/src/utils/ceilingCalculator.js:49-75 | the default prices apply when none are given; option A runs along length and option B along width; the detected case is that of the longer and the shorter side; A is recommended iff its cost is `<=` B's; the savings and the note quote the absolute difference |
| ClientCeiling.BetterAndOtherDistinct | client/src/utils/ceilingCalculator.js:61-62 | `better` and `other` are always the two distinct options, the cheaper first |
| ClientCeiling.OrientationSwap | client/src/utils/ceilingCalculator.js:20-46 | along-length on L×W equals along-width on W×L apart from the tag |
| ClientCeiling.CrossTeeLengthUnused | client/src/utils/ceilingCalculator.js:20-53 | the `CT_len` argument has no effect |
| ClientCeiling.LinesIsHalfSide | client/src/utils/ceilingCalculator.js:24-25 | `floor((s-2)/2)+1` equals `floor(s/2)` |
| ClientCeiling.PanelsAndWallAnglesShared | client/src/utils/ceilingCalculator.js:33-34 | panels and wall angles agree in both options |
| ClientCeiling.ClientLinesVersusServer | client/src/utils/ceilingCalculator.js:24-25 | the client places at least as many lines as the server on any side, and at most one more |
| ClientCeiling.ClientCountsWallLine | client/src/utils/ceilingCalculator.js:24-25 | on a 2k ft side the client places k lines and the server k-1 |
| ClientCeiling.SquareRoomTieRulesDisagree | client/src/utils/ceilingCalculator.js:61 | for a square room the server recommends along Width and the client along Length |
| TileEstimation.ParseNum | client/src/pages/TileEstimation.js:79-82 | the parsed number when finite, else the fallback |
| TileEstimation.RoomLabel | client/src/pages/TileEstimation.js:84-86 | `Room ${n}`: "Room " followed by digits that spell n |
| TileEstimation.AddRoom | client/src/pages/TileEstimation.js:84-87 | one room appended, labelled after the new length, with empty dimensions; the others unchanged |
| TileEstimation.WithoutId | client/src/pages/TileEstimation.js:90 | exactly the rooms with another id remain |
| TileEstimation.RemoveRoom | client/src/pages/TileEstimation.js:88-91 | a single room is never removed; otherwise the rooms with that id go |
| TileEstimation.WithoutIdDropsAtMostOne | client/src/pages/TileEstimation.js:90 | with distinct ids at most one room goes, and none when no room has the id |
| TileEstimation.RemoveRoomKeepsOne | client/src/pages/TileEstimation.js:88-91 | the list never becomes empty, and only the room with that id can disappear |
| TileEstimation.Apply | client/src/pages/TileEstimation.js:93 | exactly the edited field changes |
| TileEstimation.SetRoom | client/src/pages/TileEstimation.js:92-94 | rooms with the id are edited, the rest kept, the length unchanged |
| TileEstimation.ResultName | client/src/pages/TileEstimation.js:128 | the trimmed name when non-blank, else "Room i+1"; never empty |
| TileEstimation.AlertName | client/src/pages/TileEstimation.js:120 | the raw name when non-empty, else "Room i+1" |
| TileEstimation.TilesFor | client/src/pages/TileEstimation.js:123-126 | the fewest whole tiles whose area reaches the room area grown by the allowance: n−1 tiles fall short, n suffice |
| TileEstimation.FewestCovering | client/src/pages/TileEstimation.js:123-126 | rounding `area/tileArea·g` up gives the fewest tiles covering `area·g` |
| TileEstimation.RoomResultOf | client/src/pages/TileEstimation.js:123-130 | an entry has a non-empty name, positive dimensions and area, and cost = tiles × price; every field is given by RoomResultFields |
| TileEstimation.RoomResultFields | client/src/pages/TileEstimation.js:123-130 | an entry carries the dimensions, their product, `ceil(area/tileArea·(1+allow/100))` tiles and their price |
| TileEstimation.PerRoom | client/src/pages/TileEstimation.js:115-131 | one entry per room |
| TileEstimation.PerRoomSnoc | client/src/pages/TileEstimation.js:116-130 | handling room i extends the entries of the earlier rooms by its own |
| TileEstimation.FirstInvalid | client/src/pages/TileEstimation.js:116-122 | none iff every room is valid; otherwise the least index of an invalid room |
| TileEstimation.EstimateOf | client/src/pages/TileEstimation.js:96-146 | refused for invalid globals, then for the first invalid room with its alert name; otherwise the globals passed and every room is valid, the estimate carries the entered tile length, tile width, allowance and price, one `PerRoom` entry per room computed from those, the three totals summed over the entries, and time saved `max(0, 15 - elapsed)` |
| TileEstimation.HandleEstimate | client/src/pages/TileEstimation.js:96-146 | the loop's outcome equals `EstimateOf`; the estimate counter is bumped first, whatever follows |
| TileEstimation.FirstInvalidIs | client/src/pages/TileEstimation.js:116-122 | the first room failing, every earlier one passing, is the one reported |
| TileEstimation.Valid | client/src/pages/TileEstimation.js:148-159 | valid iff the globals pass and every room passes |
| TileEstimation.ValidIffEstimateSucceeds | client/src/pages/TileEstimation.js:105-159 | the validity flag is true exactly when the estimate goes through |
| TileEstimation.AllOrNothing | client/src/pages/TileEstimation.js:116-122 | one invalid room refuses the whole estimate |
| TileEstimation.EstimateShape | client/src/pages/TileEstimation.js:105-145 | a successful estimate carries the entered positive tile sizes and price and the non-negative allowance; entry j has room j's dimensions and area, the tiles for that area at the entered tile size and allowance, and their cost at the entered price |
| TileEstimation.EntryBounds | client/src/pages/TileEstimation.js:123-126 | a valid room's area is positive, its tiles are at least `ceil(area/tileArea)` and at least 1, and its cost is positive |
| TileEstimation.TilesBounds | client/src/pages/TileEstimation.js:125 | a non-negative allowance never lowers the tile count below the bare count, which is at least 1 |
| TileEstimation.TilesMatchPurchase | client/src/pages/TileEstimation.js:125 | for tile sides under 12 the form's tile count equals the result page's purchase count |
| TileEstimation.ScaledPurchase | client/src/pages/TileEstimationResult.js:64-65 | dividing by the tile area before or after applying the allowance gives the same count |
| TileEstimation.ToRecord | client/src/pages/TileEstimation.js:127-130 | the record the result page receives carries the entry's fields |
| TileEstimation.ToRecords | client/src/pages/TileEstimation.js:142 | one record per entry, in order |
| TileEstimation.ComputedTotalsAgree | client/src/pages/TileEstimationResult.js:329-334 | when every entry's area, tile count and cost are positive, the result page's recomputed totals equal the form's sums |
| TileEstimation.ShownTotalsAgree | client/src/pages/TileEstimation.js:133-143 | the totals shown for an estimate are its own, whether passed along or recomputed |
| TileResult.NormalizeFeet | client/src/pages/TileEstimationResult.js:13-17 | 0 for a missing or non-positive value; a value of 12 or more is divided by 12 as inches; otherwise unchanged |
| TileResult.FitCount | client/src/pages/TileEstimationResult.js:38 | the tiles ending inside the room among the first n are at most n |
| TileResult.WasteFigures | client/src/pages/TileEstimationResult.js:44-56 | covered = tiles × tile area, waste area not negative and at least covered minus room area; the cut waste % is waste area over covered area × 100, or 0 when nothing is covered |
| TileResult.TileStats | client/src/pages/TileEstimationResult.js:20-57 | the all-zero figures when any dimension is zero; full and cut counts non-negative |
| TileResult.TileStatsFeet | client/src/pages/TileEstimationResult.js:20-57 | the nested loop's figures equal the closed form `TileStats` |
| TileResult.FitCountClosedForm | client/src/pages/TileEstimationResult.js:36-42 | the fitting tiles among the first n number `floor(len/t)` clamped to [0, n] |
| TileResult.FitCountOfGrid | client/src/pages/TileEstimationResult.js:30-38 | on a positive axis `floor(len/t)` of `ceil(len/t)` tiles fit whole |
| TileResult.TileGridPartition | client/src/pages/TileEstimationResult.js:30-42 | the grid is `ceil(W/tW)` × `ceil(L/tL)`, every cell full or cut, full = `floor(W/tW)·floor(L/tL)` |
| TileResult.NoCutIffExactFit | client/src/pages/TileEstimationResult.js:36-42 | no tile is cut iff both room sides are whole multiples of the tile sides |
| TileResult.CutWasteBounds | client/src/pages/TileEstimationResult.js:44-49 | the grid covers the room, waste area is covered minus room area, waste % is 100 × (covered − room) / covered and lies in [0, 100) |
| TileResult.PurchaseWaste | client/src/pages/TileEstimationResult.js:60-70 | the all-zero purchase when the tile area or the room area is 0; covered = tiles bought × tile area; the waste % is waste area over covered area × 100, or 0 when nothing is covered; the waste area is never negative |
| TileResult.PurchaseTilesFormula | client/src/pages/TileEstimationResult.js:64-65 | tiles bought = `ceil(area·(1+allow/100)/tileArea)` |
| TileResult.PurchaseBounds | client/src/pages/TileEstimationResult.js:60-70 | with a non-negative allowance: at least the bare count, covered = tiles × tile area covers the room, waste area = covered − room, waste % = 100 × (covered − room) / covered, in [0, 100) |
| TileResult.CoveragePct | client/src/pages/TileEstimationResult.js:348 | coverage is capped at 100 |
| TileResult.CoverageInRange | client/src/pages/TileEstimationResult.js:325-348 | for non-negative tile sides coverage is in [0, 100], and exactly 100 when the room and tile sides are all positive |
| TileResult.Or | client/src/pages/TileEstimationResult.js:314-316 | `Number(x) \|\| fb`: the value when present and non-zero, otherwise the fallback |
| TileResult.RoomsShown | client/src/pages/TileEstimationResult.js:310-322 | the given rooms when any; else, when a legacy length or width is set, one "Room 1" whose length, width, tiles and cost are the legacy fields with `\|\| 0` and whose area is the legacy total area or else length × width; else none |
| TileResult.ShownTotals | client/src/pages/TileEstimationResult.js:328-337 | totals passed in win; otherwise the sums with the `\|\|` fallbacks, zero for no rooms |
| TileResult.LegacyTotals | client/src/pages/TileEstimationResult.js:310-337 | with no rooms array and no totals passed in, the totals shown are the legacy total area (or length × width), the legacy tile count and the legacy cost |
| TileResult.ActiveRoom | client/src/pages/TileEstimationResult.js:343 | the selected room when in range, else the first room, else none exactly when there are no rooms |
| TileResult.PreviewOf | client/src/pages/TileEstimationResult.js:340-348 | the preview's figures are the tile grid of the active room's length and width (0 when missing) with the tile sides in feet; coverage is that of those figures and lies in [0, 100]; the purchase is that of the figures |
| Projects.Filtered | client/src/pages/Projects.js:73-81 | exactly the projects of the chosen type (or all) whose lower-cased name contains the lower-cased search |
| Projects.FilterAllEmptySearch | client/src/pages/Projects.js:73-81 | 'All' with an empty search shows every project, in order |
| Projects.CountKind | client/src/pages/Projects.js:85-86 | a type count never exceeds the list |
| Projects.KindCountsBounded | client/src/pages/Projects.js:84-86 | the Tile and Ceiling counts together never exceed the total |
| Projects.TotalPages | client/src/pages/Projects.js:90 | at least 1; 1 for no rows; otherwise the least p with p·10 ≥ n |
| Projects.SliceIndex | client/src/pages/Projects.js:91-94 | `slice` bounds: negative from the end, clamped into [0, len] |
| Projects.Slice | client/src/pages/Projects.js:91-94 | `slice(a, b)` is the rows between the clamped bounds, empty when they cross |
| Projects.Paginated | client/src/pages/Projects.js:91-94 | page p ≥ 1 is the rows from 10(p−1) to 10p of the filtered list, cut at its end; its size and coverage are PageSize, PagesUpToPrefix and PagesCoverFiltered |
| Projects.PageSize | client/src/pages/Projects.js:89-94 | any page, even out of range, holds at most 10 rows |
| Projects.PagesUpToPrefix | client/src/pages/Projects.js:89-94 | pages 1..k together are the first 10k rows |
| Projects.PagesCoverFiltered | client/src/pages/Projects.js:89-94 | pages 1..totalPages together are exactly the filtered list |
| Projects.ProjectsPage.constructor | client/src/pages/Projects.js:61-62 | the loaded projects, no search, 'All', page 1 (in range), dialog closed |
| Projects.ProjectsPage.Pages | client/src/pages/Projects.js:90 | there is always at least one page |
| Projects.ProjectsPage.PrevPage | client/src/pages/Projects.js:306 | page becomes `max(1, p-1)`, keeps it in range, nothing else changes |
| Projects.ProjectsPage.NextPage | client/src/pages/Projects.js:321 | page becomes `min(totalPages, p+1)`, keeps it in range, nothing else changes |
| Projects.ProjectsPage.GoToPage | client/src/pages/Projects.js:311-317 | button i selects page i+1, which is in range |
| Projects.ProjectsPage.SetSearch | client/src/pages/Projects.js:139-141 | a changed search resets to page 1 (in range); an unchanged one keeps the page; nothing else changes |
| Projects.ProjectsPage.SetFilter | client/src/pages/Projects.js:139-141 | a changed type filter resets to page 1 (in range); clicking the active pill keeps the page; nothing else changes |
| Projects.ProjectsPage.DeleteClick | client/src/pages/Projects.js:111-114 | the dialog opens on that project; the list is unchanged |
| Projects.ProjectsPage.ConfirmDelete | client/src/pages/Projects.js:116-130 | no target: nothing; success: the projects with the target id are removed; failure: an alert, the list kept; the dialog closes either way |
| Projects.ProjectsPage.CancelDelete | client/src/pages/Projects.js:132-135 | the dialog closes, nothing else changes |
| Projects.WithoutId | client/src/pages/Projects.js:122 | exactly the projects with another id remain |
| Projects.DeleteUnknownIdKeepsAll | client/src/pages/Projects.js:122 | deleting an id no project has keeps the list |
| Pricing.CorePrice | client/src/pages/PricingManagement.js:91 | the stored core price, or 0 for a missing key |
| Pricing.Rows | client/src/pages/PricingManagement.js:87-100 | the four core rows in fixed order, flagged core, then one non-core row per extra in order |
| Pricing.WithPrice | client/src/pages/PricingManagement.js:122 | the extras with that id get the price, the rest unchanged |
| Pricing.WithoutExtra | client/src/pages/PricingManagement.js:132 | exactly the extras with another id remain |
| Pricing.WithPriceKeepsShape | client/src/pages/PricingManagement.js:122 | a non-negative new price keeps all prices non-negative and ids and names in place |
| Pricing.WithoutExtraKeepsPrices | client/src/pages/PricingManagement.js:132 | deleting keeps all prices non-negative |
| Pricing.PricingPage.constructor | client/src/pages/PricingManagement.js:41-74 | the stored core prices or the defaults 450/80/380/190, the stored extras or none; nothing being edited |
| Pricing.PricingPage.StartEdit | client/src/pages/PricingManagement.js:107-110 | the row enters edit mode with its price in the box |
| Pricing.PricingPage.CancelEdit | client/src/pages/PricingManagement.js:111-114 | edit mode ends and the box empties |
| Pricing.PricingPage.SaveEdit | client/src/pages/PricingManagement.js:115-126 | the price clamped at 0 replaces one core key or the extras' price, keeps prices non-negative, then edit mode ends |
| Pricing.PricingPage.HandleDelete | client/src/pages/PricingManagement.js:129-134 | a core row is never deleted; an extra goes only when confirmed |
| Pricing.PricingPage.HandleAdd | client/src/pages/PricingManagement.js:137-148 | a blank trimmed name changes nothing; otherwise one extra with the trimmed name and the price clamped at 0 is appended and the form cleared |
| Pricing.CoreRowsAlwaysShown | client/src/pages/PricingManagement.js:87-93 | the first four rows do not depend on the extras |
| Dashboard.TotalTimeSaved | client/src/pages/Dashboard.js:37-38 | the sum of the stored savings: 0 for none, the value itself for one; adding one is TotalTimeSavedAppend, the sign is TotalTimeSavedNonNegative |
| Dashboard.TotalTimeSavedAppend | client/src/pages/Dashboard.js:37-38 | one more saving adds exactly that amount |
| Dashboard.TotalTimeSavedNonNegative | client/src/pages/Dashboard.js:37-38 | non-negative savings give a non-negative total |
| Dashboard.SavedProjectsCount | client/src/pages/Dashboard.js:51-54 | the count is tiles plus ceilings, duplicates included |
| Dashboard.MonthTally | client/src/pages/Dashboard.js:57-70 | twelve counters |
| Dashboard.MonthTallyCounts | client/src/pages/Dashboard.js:62-68 | counter m is the number of projects dated in month m |
| Dashboard.MonthTallyTotal | client/src/pages/Dashboard.js:57-70 | the bars add up to the projects with a parseable date |
| Dashboard.MonthlyCounts | client/src/pages/Dashboard.js:57-70 | the array loop yields the tally, counter m counting month m |
| Dashboard.NameSetMembers | client/src/pages/Dashboard.js:74-86 | a key is in the map iff some project's trimmed lower-cased name is it |
| Dashboard.TileKinds | client/src/pages/Dashboard.js:77-81 | after the tiles, the map has every tile key, seen as a tile |
| Dashboard.MarkCeilingStep | client/src/pages/Dashboard.js:82-86 | entering one ceiling key keeps the map's meaning |
| Dashboard.AddCeilingKinds | client/src/pages/Dashboard.js:82-86 | after the ceilings, every key of both lists is there with the kinds it was seen under |
| Dashboard.BuildKinds | client/src/pages/Dashboard.js:76-86 | the map's keys are the names of both lists, each with (is a tile name, is a ceiling name) |
| Dashboard.CountedStep | client/src/pages/Dashboard.js:89-95 | visiting a key adds one to its own kind's counter only |
| Dashboard.CountKinds | client/src/pages/Dashboard.js:88-95 | the counters are the numbers of keys seen as tile only, ceiling only, and both |
| Dashboard.Distribution | client/src/pages/Dashboard.js:74-101 | tile-only = \|T − C\|, ceiling-only = \|C − T\|, both = \|T ∩ C\| over the name-key sets |
| Dashboard.DistributionPartition | client/src/pages/Dashboard.js:88-101 | the three counts add up to the distinct names of both lists |
| Dashboard.RepeatedNameCountsOnce | client/src/pages/Dashboard.js:74-86 | a name repeated (after trim and lower-case) adds no key |
| Profile.LengthPoints | client/src/pages/Profile.js:21-22 | 0 below 8 characters, 1 from 8, 2 from 12 |
| Profile.RawScore | client/src/pages/Profile.js:21-24 | the points sum to between 0 and 4 |
| Profile.EvaluatePassword | client/src/pages/Profile.js:9-36 | the empty password gives 0, "Very weak" and "Start typing"; otherwise the score is the point sum, the suggestions are those of the failed tests in order, and label and colour are indexed by the score |
| Profile.Suggestions | client/src/pages/Profile.js:27-30 | at most four suggestions, the length one first exactly when the password is under 12 characters; each one's condition is SuggestionsExact |
| Profile.SuggestionsExact | client/src/pages/Profile.js:27-30 | each suggestion appears iff its test fails; at most four; never "Start typing" |
| Profile.CapNeverApplies | client/src/pages/Profile.js:25 | the cap at 4 never changes the score |
| Profile.StrongPasswordScoresFour | client/src/pages/Profile.js:15-30 | 12+ characters with lower, upper, digit and symbol score 4 with no suggestion |
| Profile.FourNeedsLengthDigitAndSymbol | client/src/pages/Profile.js:21-24 | a score of 4 needs 12+ characters, a digit, a symbol and upper case |
| Profile.NoSuggestionMeansFour | client/src/pages/Profile.js:21-30 | no suggestion implies a score of 4 |
| Profile.ExampleStrong | client/src/pages/Profile.js:15-24 | "aA1!aA1!aA1!" scores 4 |
| CeilingReport.KeepPrintable | client/src/pages/CeilingEstimationResult.js:28 | exactly the printable ASCII characters remain |
| CeilingReport.ReplaceChar | client/src/pages/CeilingEstimationResult.js:29-30 | each occurrence of one character is replaced, nothing else moves |
| CeilingReport.AsciiSafe | client/src/pages/CeilingEstimationResult.js:25-32 | "" for null; otherwise the trimmed printable-ASCII characters of the input, so only printable ASCII with no space at either end |
| CeilingReport.TrimKeepsPrintable | client/src/pages/CeilingEstimationResult.js:31 | trimming printable text keeps it printable, with no space at the ends |
| CeilingReport.PrintableStaysPrintable | client/src/pages/CeilingEstimationResult.js:28-30 | the replacements keep printable text printable |
| CeilingReport.ReplacementsAreNoOps | client/src/pages/CeilingEstimationResult.js:28-30 | '≈' and '•' are already gone after the first step, so the two replacements change nothing |
| CeilingReport.AsciiSafeIdempotent | client/src/pages/CeilingEstimationResult.js:25-32 | cleaning cleaned text changes nothing |
| CeilingReport.DrawnLines | client/src/pages/CeilingEstimationResult.js:140-143 | at most cells-1 lines, not negative for a grid of at least one cell, and `floor(count)` when that is within range |
| CeilingReport.PreviewLinesBounded | client/src/pages/CeilingEstimationResult.js:140-143 | on the 12×12 preview between 0 and 11 lines each way; 11 for a count of 11 or more, 0 for a negative one |
| CeilingReport.CheaperLabel | client/src/pages/CeilingEstimationResult.js:578 | "-" unless both costs exist; then "A" iff a ≤ b and "B" iff a > b |
| CeilingReport.OptionCost | client/src/pages/CeilingEstimationResult.js:576-577 | an option's cost exists exactly when the room has that option |
| CeilingReport.RoomCheaper | client/src/pages/CeilingEstimationResult.js:576-578 | "-" for a room with fewer than two options; otherwise "A" iff option A costs at most option B and "B" iff it costs more |
| CeilingReport.CheaperColumnVersusServer | client/src/pages/CeilingEstimationResult.js:575-580 | the column says "A" iff option A costs no more; it says "A" while the server recommends B exactly on a cost tie |
| CeilingReport.SquareRoomCheaperDisagrees | client/src/pages/CeilingEstimationResult.js:578 | a square room shows "A" while the server recommends along Width |
| CeilingReport.PdfDocument.constructor | client/src/pages/CeilingEstimationResult.js:484-489 | the new document has one page |
| CeilingReport.PdfDocument.Header | client/src/pages/CeilingEstimationResult.js:492-502 | content starts at `HEADER_H + 22` = 118 |
| CeilingReport.PdfDocument.EnsureSpace | client/src/pages/CeilingEstimationResult.js:503-507 | y stays when the block fits above the 40 pt margin; otherwise one page is added and y restarts at 118; a block no taller than a page's content always fits afterwards |
| CeilingReport.PutLine | client/src/pages/CeilingEstimationResult.js:532-540 | each key/value line moves the cursor down |
| CeilingReport.InfoCard | client/src/pages/CeilingEstimationResult.js:513-564 | the card is at least 145 pt tall and the next section starts one 18 pt gap below it; InfoCardIsFixedHeight gives the exact height |
| CeilingReport.InfoCardIsFixedHeight | client/src/pages/CeilingEstimationResult.js:513-564 | the card's content never exceeds the 145 pt minimum, so the next section starts at infoTop + 145 + 18 |
| Common.NonNegativeNumber | client/src/pages/CeilingEstimationResult.js:356 | `Math.max(0, Number(x \|\| 0))`, used for the shown time saved and for the price inputs of the pricing page: never negative, 0 when missing or negative, the value itself otherwise |
| CeilingReport.SavingsLog.constructor | client/src/pages/CeilingEstimationResult.js:352-361 | the session marks and the stored savings as given |
| CeilingReport.SavingsLog.RecordOnce | client/src/pages/CeilingEstimationResult.js:352-361 | the key is marked; already marked: nothing changes; otherwise the clamped value is appended unless it is 0 |
| CeilingReport.RecordedSavingsPositive | client/src/pages/CeilingEstimationResult.js:356-359 | recording keeps every stored saving positive and raises the dashboard total by the shown value |
| Common.Ceil | client/src/pages/TileEstimation.js:125 | `Math.ceil`: the least integer not below x |
| Common.Filter | client/src/pages/Projects.js:74 | `Array.prototype.filter`: exactly the kept elements, never longer |
| Common.Trim | client/src/pages/PricingManagement.js:139 | `String.prototype.trim` never lengthens a string |
| Common.TrimSpec | client/src/pages/Dashboard.js:74 | the trimmed text occurs at the first non-whitespace position, has no whitespace at either end, and only whitespace was cut |
| Common.TrimEmptyIffAllWhitespace | client/src/pages/PricingManagement.js:139-141 | a name is blank after trimming iff it is all whitespace |
| Common.TrimIdempotent | client/src/pages/CeilingEstimationResult.js:31 | trimming twice is trimming once |
| Common.Lower | client/src/pages/Projects.js:76-77 | lower-casing keeps the length and maps each character |
| Common.Includes | client/src/pages/Projects.js:78 | `includes` holds iff the text occurs at some position |
| Common.IncludesEmpty | client/src/pages/Projects.js:78 | every string includes the empty string |
| Common.DecimalText | client/src/pages/TileEstimation.js:84-86 | `${n}`: a non-empty digit string that spells n, with no leading zero from 10 up |
| Common.DecimalTextInjective | client/src/pages/TileEstimation.js:84-86 | different numbers give different texts, so the room labels differ |

## Left out

- Rendering is not modelled: JSX, canvases, colours, fonts, charts, PNG export and the PDF drawing calls. Only the cursor arithmetic and page count of the PDF export are kept.
- Network requests, authentication and browser storage are not modelled. Their outcomes are parameters: the loaded projects, the delete request's success, stored prices, and the session and storage lists.
- `Date.now`, `crypto.randomUUID` and `window.confirm` are not modelled; the elapsed minutes, new ids and the user's answer are parameters.
- Floating point is not modelled: numbers are exact reals, with no rounding, `NaN` or `Infinity`. `parseFloat`, `Number(text)` and `Number.isFinite` on text are represented by `Option<real>`, and `NaN` by `None`.
- Pricing.PricingPage.SaveEdit: `Math.max(0, NaN)` is `NaN` in JavaScript, and a non-numeric price text would store it. The model has no `NaN`, so the price is never below 0.
- Number formatting is not modelled: `toFixed`, `toLocaleString` and the `"<l> ft × <w> ft"` room text, which becomes the value `SizeText(length, width)`.
- `toLowerCase` and `trim` are modelled for ASCII letters and the usual whitespace characters only; full Unicode case mapping and UTF-16 lengths are not modelled.
- ClientCeiling.CalculateOption: its contract states the orientation, panels and wall angles, but not the Main T, Cross T and cost figures. Those are the body's own arithmetic; the lemmas about the line formula cover them.
- The dashboard's early return when no user is signed in is not modelled; the figures are those computed once the lists are loaded. The `parseInt` of the stored estimate count and the pie chart's percentages are also not modelled.
- Projects.ProjectsPage.ConfirmDelete: the current page is not clamped after a delete, as in the source, so the page can fall outside the new page count; only the navigation methods promise to keep it in range.
- The server's case tests C7–C12 are modelled as written, but the lemmas prove them unreachable, so no property is stated about them.
- Legacy result fields stored as text (for example a length of `"10"`) are treated as numbers.
- The rest of the application is not part of this model: sign-up, login, OTP and password reset, routes and Mongoose models, the admin pages, and the save and list endpoints.
