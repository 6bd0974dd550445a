/** The ceiling price table: four protected core prices followed by the
    user's extra materials, with inline editing, deletion of extras and an
    add form. Persisting to browser storage, the confirmation dialog and the
    clock are not modelled: the dialog's answer and the new item's id are
    passed in, and the text of the price inputs is given as the number it
    parses to (`None` for an empty input). */
module Pricing {
  import opened Common

  datatype CoreItem = CoreItem(id: string, title: string, cfgKey: string)

  /** `CORE_ITEMS`, in their fixed order. */
  const CoreItems: seq<CoreItem> := [
    CoreItem("priceMT", "Main T-bar", "mt"),
    CoreItem("priceCT", "Cross T-bar", "ct"),
    CoreItem("pricePanel", "Panel", "panel"),
    CoreItem("priceWA", "Wall Angle", "wa")
  ]

  /** The default core prices, from the shared price configuration. */
  const DefaultCore: map<string, real> :=
    map["priceMT" := 450.0, "priceCT" := 80.0, "pricePanel" := 380.0, "priceWA" := 190.0]

  datatype Extra = Extra(id: string, name: string, price: real)

  datatype Row = Row(id: string, name: string, price: real, core: bool)

  /** `Number(core[id] ?? 0)`: a missing key reads as 0. */
  function CorePrice(core: map<string, real>, id: string): (p: real)
    ensures id in core ==> p == core[id]
    ensures id !in core ==> p == 0.0
  {
    if id in core then core[id] else 0.0
  }

  function CoreRow(core: map<string, real>, ci: CoreItem): Row
  {
    Row(ci.id, ci.title, CorePrice(core, ci.id), true)
  }

  function ExtraRow(e: Extra): Row
  {
    Row(e.id, e.name, e.price, false)
  }

  /** The table: the four core rows in fixed order, then one row per extra
      material in its stored order. */
  function Rows(core: map<string, real>, extras: seq<Extra>): (r: seq<Row>)
    ensures |r| == |CoreItems| + |extras|
    ensures forall i :: 0 <= i < |CoreItems| ==> r[i] == CoreRow(core, CoreItems[i]) && r[i].core
    ensures forall j :: 0 <= j < |extras| ==> r[|CoreItems| + j] == ExtraRow(extras[j]) && !r[|CoreItems| + j].core
  {
    seq(|CoreItems|, i requires 0 <= i < |CoreItems| => CoreRow(core, CoreItems[i]))
      + seq(|extras|, j requires 0 <= j < |extras| => ExtraRow(extras[j]))
  }

  /** The extras with the price of id `id` replaced; nothing else moves. */
  function WithPrice(extras: seq<Extra>, id: string, price: real): (r: seq<Extra>)
    ensures |r| == |extras|
    ensures forall i :: 0 <= i < |extras| ==>
              r[i] == if extras[i].id == id then extras[i].(price := price) else extras[i]
  {
    seq(|extras|, i requires 0 <= i < |extras| => if extras[i].id == id then extras[i].(price := price) else extras[i])
  }

  /** The extras without id `id`, the others kept in order. */
  function WithoutExtra(extras: seq<Extra>, id: string): (r: seq<Extra>)
    ensures |r| <= |extras|
    ensures forall x :: x in r <==> x in extras && x.id != id
  {
    Filter(extras, (x: Extra) => x.id != id)
  }

  predicate NonNegativePrices(extras: seq<Extra>)
  {
    forall i :: 0 <= i < |extras| ==> extras[i].price >= 0.0
  }

  /** Setting a price that is not negative keeps every extra price not
      negative, and keeps the ids and names in place. */
  lemma WithPriceKeepsShape(extras: seq<Extra>, id: string, price: real)
    requires price >= 0.0 && NonNegativePrices(extras)
    ensures NonNegativePrices(WithPrice(extras, id, price))
    ensures forall i :: 0 <= i < |extras| ==>
              WithPrice(extras, id, price)[i].id == extras[i].id && WithPrice(extras, id, price)[i].name == extras[i].name
  {
  }

  /** Deleting keeps the remaining prices not negative. */
  lemma WithoutExtraKeepsPrices(extras: seq<Extra>, id: string)
    requires NonNegativePrices(extras)
    ensures NonNegativePrices(WithoutExtra(extras, id))
  {
    var r := WithoutExtra(extras, id);
    forall i | 0 <= i < |r| ensures r[i].price >= 0.0 {
      assert r[i] in extras;
    }
  }

  /** The page's state. */
  class PricingPage {
    var core: map<string, real>
    var extras: seq<Extra>
    var editingId: Option<string>
    var tempPrice: Option<real>
    var showAdd: bool
    var newName: string
    var newPrice: Option<real>

    /** The page after loading: `storedCore` and `storedExtras` are what the
        browser storage held, if anything. */
    constructor (storedCore: Option<map<string, real>>, storedExtras: Option<seq<Extra>>)
      ensures core == (if storedCore.Some? then storedCore.value else DefaultCore)
      ensures extras == (if storedExtras.Some? then storedExtras.value else [])
      ensures editingId.None? && tempPrice.None? && !showAdd && newName == "" && newPrice.None?
    {
      core := if storedCore.Some? then storedCore.value else DefaultCore;
      extras := if storedExtras.Some? then storedExtras.value else [];
      editingId := None;
      tempPrice := None;
      showAdd := false;
      newName := "";
      newPrice := None;
    }

    function Table(): seq<Row>
      reads this
    {
      Rows(core, extras)
    }

    /** `startEdit`: the row goes into edit mode with its price in the box. */
    method StartEdit(row: Row)
      modifies this
      ensures editingId == Some(row.id) && tempPrice == Some(row.price)
      ensures core == old(core) && extras == old(extras)
      ensures showAdd == old(showAdd) && newName == old(newName) && newPrice == old(newPrice)
    {
      editingId := Some(row.id);
      tempPrice := Some(row.price);
    }

    /** `cancelEdit`: no row is in edit mode and the box is emptied. */
    method CancelEdit()
      modifies this
      ensures editingId.None? && tempPrice.None?
      ensures core == old(core) && extras == old(extras)
      ensures showAdd == old(showAdd) && newName == old(newName) && newPrice == old(newPrice)
    {
      editingId := None;
      tempPrice := None;
    }

    /** `saveEdit`: the entered price, clamped at 0, replaces one core key or
        the price of the extras with that id; then editing ends. */
    method SaveEdit(row: Row)
      modifies this
      ensures var price := NonNegativeNumber(old(tempPrice));
              (row.core ==> core == old(core)[row.id := price] && extras == old(extras))
              && (!row.core ==> extras == WithPrice(old(extras), row.id, price) && core == old(core))
      ensures NonNegativePrices(old(extras)) ==> NonNegativePrices(extras)
      ensures editingId.None? && tempPrice.None?
      ensures showAdd == old(showAdd) && newName == old(newName) && newPrice == old(newPrice)
    {
      var price := NonNegativeNumber(tempPrice);
      if row.core {
        core := core[row.id := price];
      } else {
        if NonNegativePrices(extras) {
          WithPriceKeepsShape(extras, row.id, price);
        }
        extras := WithPrice(extras, row.id, price);
      }
      CancelEdit();
    }

    /** `handleDelete`: core rows are never deleted; an extra is removed
        when the user confirms. */
    method HandleDelete(row: Row, confirmed: bool)
      modifies this
      ensures core == old(core)
      ensures row.core || !confirmed ==> extras == old(extras)
      ensures !row.core && confirmed ==> extras == WithoutExtra(old(extras), row.id)
      ensures NonNegativePrices(old(extras)) ==> NonNegativePrices(extras)
      ensures editingId == old(editingId) && tempPrice == old(tempPrice)
      ensures showAdd == old(showAdd) && newName == old(newName) && newPrice == old(newPrice)
    {
      if row.core {
        return;
      }
      if !confirmed {
        return;
      }
      if NonNegativePrices(extras) {
        WithoutExtraKeepsPrices(extras, row.id);
      }
      extras := WithoutExtra(extras, row.id);
    }

    /** `handleAdd`: a name that is blank after trimming changes nothing;
        otherwise one item with the trimmed name and a price clamped at 0 is
        appended, and the form is closed and cleared. */
    method HandleAdd(newId: string)
      modifies this
      ensures Trim(old(newName)) == [] ==>
                extras == old(extras) && showAdd == old(showAdd) && newName == old(newName) && newPrice == old(newPrice)
      ensures Trim(old(newName)) != [] ==>
                extras == old(extras) + [Extra(newId, Trim(old(newName)), NonNegativeNumber(old(newPrice)))]
                && !showAdd && newName == "" && newPrice.None?
      ensures NonNegativePrices(old(extras)) ==> NonNegativePrices(extras)
      ensures core == old(core) && editingId == old(editingId) && tempPrice == old(tempPrice)
    {
      var name := Trim(newName);
      var price := NonNegativeNumber(newPrice);
      if name == [] {
        return;
      }
      extras := extras + [Extra(newId, name, price)];
      showAdd := false;
      newName := "";
      newPrice := None;
    }
  }

  /** Whatever the extras, the table always starts with the four core rows,
      so no operation on the extras can remove one. */
  lemma CoreRowsAlwaysShown(core: map<string, real>, extras1: seq<Extra>, extras2: seq<Extra>)
    ensures Rows(core, extras1)[..|CoreItems|] == Rows(core, extras2)[..|CoreItems|]
  {
  }
}
