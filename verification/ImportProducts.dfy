/**
 * What a whole file becomes: each product as its first row writes it, and each of
 * its options as that option's own row does
 * (src/modules/catalog/product-import.ts:213-695).
 */
module ImportProducts {
  import opened Common
  import opened ImportText
  import opened SellingUnits
  import opened ProductImport
  import opened ImportTheorems
  import opened ImportOutcomes
  import Barcode
  import Naira

  // -- As written -------------------------------------------------------------

  predicate BarcodeReads(cell: string, code: Option<string>) {
    if cell == "" then code == None else code.Some? && code == Barcode.Resolve(cell)
  }

  function ProductPrice(p: Product, i: nat): Option<int>
    requires i < |p.units|
  {
    if i == 0 then p.basePrice else p.units[i].price
  }

  predicate AnyPrice(p: Product) {
    exists i :: 0 <= i < |p.units| && ProductPrice(p, i).Some?
  }

  /** A unit is sold when it has a price; with no price anywhere, all are, but that a wholesaler does not sell the single piece of many. */
  predicate SoldAsPriced(p: Product, wholesale: bool) {
    forall i :: 0 <= i < |p.units| ==> (p.units[i].isSellable <==>
      if AnyPrice(p) then ProductPrice(p, i).Some? else |p.units| == 1 || i > 0 || !wholesale)
  }

  /** What the till picks first: of what is sold, the largest for a wholesaler and the smallest for anyone else. */
  predicate PickedFirst(p: Product, wholesale: bool) {
    forall i, d :: 0 <= i < |p.units| && 0 <= d < |p.units| && p.units[d].isDefault && p.units[i].isSellable ==>
      if wholesale then p.units[i].factor <= p.units[d].factor else p.units[d].factor <= p.units[i].factor
  }

  predicate SameUnits(units: seq<Unit>, drafts: seq<Draft>) {
    && |units| == |drafts|
    && forall i :: 0 <= i < |units| ==>
         units[i].name == drafts[i].name && units[i].factor == drafts[i].factor && units[i].price == drafts[i].price
  }

  predicate NamesOption(cells: Cells) {
    cells.option != "" || cells.optionType != ""
  }

  /** The product is the row's: its name, size, price and barcode, its units as its columns write them, and how they are sold. */
  ghost predicate AsWritten(ctx: Context, cells: Cells, p: Product) {
    && p.name == cells.name && p.size == cells.size && PriceReads(cells.price, p.basePrice)
    && (exists drafts :: UnitsAsWritten(cells, drafts) && SameUnits(p.units, drafts))
    && SoldAsPriced(p, ctx.wholesale) && PickedFirst(p, ctx.wholesale)
    && (if NamesOption(cells) then
          && p.barcode == None && p.variants != []
          && var option := ReadOptionCells(cells.optionType, cells.option, None);
             && option.Ok? && p.attributes == option.value.attributes
             && p.variants[0].values == option.value.values && p.variants[0].prices == []
             && BarcodeReads(cells.barcode, p.variants[0].barcode)
        else
          p.attributes == [] && p.variants == [] && BarcodeReads(cells.barcode, p.barcode))
  }

  lemma {:induction false} BarcodeIsRead(s: State, ctx: Context, cell: string)
    requires ReadBarcode(s, ctx, cell).problems == []
    ensures BarcodeReads(cell, ReadBarcode(s, ctx, cell).value)
  {
    hide RoundedCode;
  }

  lemma {:induction false} SettledAsWritten(drafts: seq<Draft>, basePrice: Option<int>, wholesale: bool, p: Product)
    requires FactorsOk(drafts) && drafts[0].price.None?
    requires SettleUnits(drafts, basePrice, wholesale).Ok? && p.units == SettleUnits(drafts, basePrice, wholesale).value
    requires p.basePrice == basePrice
    ensures SameUnits(p.units, drafts) && SoldAsPriced(p, wholesale) && PickedFirst(p, wholesale)
  {
    hide Choose, UnitsOf, AnyPriced, SoldAsPriced, PickedFirst, SameUnits, AnyPrice, FactorsOk;
    var priced := AnyPriced(drafts, basePrice);
    var units := UnitsOf(drafts, basePrice, priced, |drafts|, wholesale);
    var c := Choose(units, None, wholesale).value;
    ChosenSame(drafts, units, c, p.units);
    forall i | 0 <= i < |drafts|
      ensures PriceOf(drafts[i], basePrice) == ProductPrice(p, i)
    {
      SamePrice(drafts, basePrice, p, i);
    }
    PricedTogether(drafts, basePrice, p);
    SoldTogether(drafts, basePrice, wholesale, p, priced);
    PickedTogether(units, wholesale, p);
  }

  lemma {:induction false} ChosenSame(drafts: seq<Draft>, units: seq<Unit>, c: nat, after: seq<Unit>)
    requires |units| == |drafts| && c < |units| && after == units[c := units[c].(isDefault := true)]
    requires forall i :: 0 <= i < |units| ==>
      units[i].name == drafts[i].name && units[i].factor == drafts[i].factor && units[i].price == drafts[i].price
    ensures SameUnits(after, drafts)
  {
  }

  lemma {:induction false} SamePrice(drafts: seq<Draft>, basePrice: Option<int>, p: Product, i: nat)
    requires FactorsOk(drafts) && p.basePrice == basePrice && SameUnits(p.units, drafts) && i < |drafts|
    ensures PriceOf(drafts[i], basePrice) == ProductPrice(p, i)
  {
  }

  lemma {:induction false} SoldTogether(drafts: seq<Draft>, basePrice: Option<int>, wholesale: bool, p: Product, priced: bool)
    requires FactorsOk(drafts) && |p.units| == |drafts| && (priced <==> AnyPrice(p))
    requires forall i :: 0 <= i < |drafts| ==> PriceOf(drafts[i], basePrice) == ProductPrice(p, i)
    requires forall i :: 0 <= i < |drafts| ==>
      p.units[i].isSellable == UnitOf(drafts[i], basePrice, priced, |drafts|, wholesale).isSellable
    ensures SoldAsPriced(p, wholesale)
  {
    hide AnyPrice;
  }

  lemma {:induction false} PickedTogether(units: seq<Unit>, wholesale: bool, p: Product)
    requires forall i :: 0 <= i < |units| ==> !units[i].isDefault
    requires Choose(units, None, wholesale).Ok?
    requires var c := Choose(units, None, wholesale).value; p.units == units[c := units[c].(isDefault := true)]
    ensures PickedFirst(p, wholesale)
  {
    hide Choose;
    var c := Choose(units, None, wholesale).value;
    forall i, d | 0 <= i < |p.units| && 0 <= d < |p.units| && p.units[d].isDefault && p.units[i].isSellable
      ensures if wholesale then p.units[i].factor <= p.units[d].factor else p.units[d].factor <= p.units[i].factor
    {
      FreshChoiceIsExtreme(units, wholesale, i);
    }
  }

  lemma {:induction false} PricedTogether(drafts: seq<Draft>, basePrice: Option<int>, p: Product)
    requires |p.units| == |drafts| && forall i :: 0 <= i < |drafts| ==> PriceOf(drafts[i], basePrice) == ProductPrice(p, i)
    ensures AnyPriced(drafts, basePrice) <==> AnyPrice(p)
  {
    if AnyPriced(drafts, basePrice) {
      var i :| 0 <= i < |drafts| && PriceOf(drafts[i], basePrice).Some?;
      assert ProductPrice(p, i).Some?;
    }
  }

  /** The product a sound first row makes is the row's. */
  lemma {:induction false} FirstRowAsWritten(s: State, ctx: Context, cells: Cells)
    requires FirstProblems(s, ctx, cells) == []
    requires SettleUnits(ReadUnits(cells).value, ReadPrice(cells.price).value, ctx.wholesale).Ok?
    ensures AsWritten(ctx, cells,
                      ProductOf(s, ctx, cells, SettleUnits(ReadUnits(cells).value, ReadPrice(cells.price).value, ctx.wholesale).value))
  {
    hide ReadBarcode, ReadCategory, ReadOptionCells, SettleUnits, ReadUnits, GenerateSku, VariantKey, FirstFree, UnitsAsWritten, SameUnits,
         SoldAsPriced, PickedFirst, BarcodeReads, PriceReads, FactorsOk;
    var p := ProductOf(s, ctx, cells, SettleUnits(ReadUnits(cells).value, ReadPrice(cells.price).value, ctx.wholesale).value);
    BarcodeIsRead(s, ctx, cells.barcode);
    PriceIsRead(cells.price);
    RowUnitsAsWritten(cells);
    DraftsAreOk(cells);
    BaseHasNoPrice(cells);
    SettledAsWritten(ReadUnits(cells).value, ReadPrice(cells.price).value, ctx.wholesale, p);
  }

  lemma {:induction false} BaseHasNoPrice(cells: Cells)
    requires UnitsAsWritten(cells, ReadUnits(cells).value)
    ensures ReadUnits(cells).value != [] && ReadUnits(cells).value[0].price.None?
  {
  }

  // -- An option's own row ----------------------------------------------------

  /** A cell of the row gives this unit this price: the price cell the base unit, a column the unit it names. */
  predicate CellPrices(cells: Cells, units: seq<Unit>, i: nat, price: int)
    requires i < |units|
  {
    || (i == 0 && cells.price != "" && Naira.Parse(cells.price) == Ok(price))
    || SlotPrices(cells.slots, units, i, price)
  }

  predicate SlotPrices(slots: seq<Slot>, units: seq<Unit>, i: nat, price: int)
    requires i < |units|
  {
    exists slot :: slot in slots && SlotPrice(slot, units[i].name, price)
  }

  predicate SlotPrice(slot: Slot, name: string, price: int) {
    slot.name != "" && Lower(slot.name) == Lower(name) && slot.price != "" && Naira.Parse(slot.price) == Ok(price)
  }

  /** The option's own prices are those its row gives and the product does not have, each of a unit that is sold. */
  ghost predicate OwnPricesAsWritten(cells: Cells, p: Product, prices: seq<OwnPrice>) {
    && (forall own :: own in prices ==> exists i :: 0 <= i < |p.units| && OwnOf(cells, p, own, i))
    && (forall i, n :: 0 <= i < |p.units| && CellPrices(cells, p.units, i, n) && ProductPrice(p, i) != Some(n) ==>
          OwnPrice(p.units[i].name, n) in prices)
  }

  predicate OwnOf(cells: Cells, p: Product, own: OwnPrice, i: nat)
    requires i < |p.units|
  {
    && own.unitName == p.units[i].name && p.units[i].isSellable
    && CellPrices(cells, p.units, i, own.price) && ProductPrice(p, i) != Some(own.price)
  }

  ghost predicate OptionAsWritten(cells: Cells, p: Product, v: Variant) {
    var option := ReadOptionCells(cells.optionType, cells.option, Some(p.attributes));
    && option.Ok? && v.values == option.value.values && v.key == VariantKey(v.values)
    && BarcodeReads(cells.barcode, v.barcode)
    && OwnPricesAsWritten(cells, p, v.prices)
  }

  lemma {:induction false} OneOwnPrice(raw: string, p: Product, i: nat)
    requires UnitsOk(p.units) && i < |p.units| && ReadOwnPrice(raw, p.units[i], p.basePrice).problems == []
    ensures var own := ReadOwnPrice(raw, p.units[i], p.basePrice).value;
      if raw != "" && Naira.Parse(raw).Ok? && ProductPrice(p, i) != Some(Naira.Parse(raw).value)
      then own == [OwnPrice(p.units[i].name, Naira.Parse(raw).value)] && p.units[i].isSellable
      else own == []
  {
    hide NamesApart, OneDefault;
    assert p.units[i].factor == 1 <==> i == 0;
  }

  lemma {:induction false} UnitFound(units: seq<Unit>, name: string)
    ensures match UnitNamed(units, name)
      case None => forall i :: 0 <= i < |units| ==> Lower(units[i].name) != Lower(name)
      case Some(u) => exists i :: 0 <= i < |units| && units[i] == u && Lower(units[i].name) == Lower(name)
  {
    if units != [] && Lower(units[0].name) != Lower(name) {
      UnitFound(units[1..], name);
      assert forall i :: 0 < i < |units| ==> units[i] == units[1..][i - 1];
      if UnitNamed(units[1..], name).Some? {
        var i :| 0 <= i < |units[1..]| && units[1..][i] == UnitNamed(units[1..], name).value;
        assert units[i + 1] == units[1..][i];
      }
    }
  }

  /** What one column of an option's row gives: the unit it names, its own price when that differs. */
  lemma {:induction false} OneSlotPrice(slot: Slot, p: Product)
    requires UnitsOk(p.units) && ReadOptionSlot(slot, p).problems == []
    ensures forall own :: own in ReadOptionSlot(slot, p).value ==> exists i :: 0 <= i < |p.units| && OwnOfSlot(slot, p, own, i)
    ensures forall i, n :: 0 <= i < |p.units| && SlotPrice(slot, p.units[i].name, n) && ProductPrice(p, i) != Some(n) ==>
      OwnPrice(p.units[i].name, n) in ReadOptionSlot(slot, p).value
  {
    hide Lower, ReadOwnPrice, Naira.Parse, PlainCount, Decimal, OneDefault;
    if slot.name != "" {
      UnitFound(p.units, slot.name);
      var u := UnitNamed(p.units, slot.name).value;
      var i :| 0 <= i < |p.units| && p.units[i] == u && Lower(p.units[i].name) == Lower(slot.name);
      OneOwnPrice(slot.price, p, i);
      forall own | own in ReadOptionSlot(slot, p).value
        ensures OwnOfSlot(slot, p, own, i)
      {
      }
      forall k, n | 0 <= k < |p.units| && SlotPrice(slot, p.units[k].name, n) && ProductPrice(p, k) != Some(n)
        ensures OwnPrice(p.units[k].name, n) in ReadOptionSlot(slot, p).value
      {
        assert k == i;
      }
    }
  }

  predicate OwnOfSlot(slot: Slot, p: Product, own: OwnPrice, i: nat)
    requires i < |p.units|
  {
    own.unitName == p.units[i].name && p.units[i].isSellable && SlotPrice(slot, p.units[i].name, own.price) && ProductPrice(p, i) != Some(own.price)
  }

  predicate OwnOfSlots(slots: seq<Slot>, p: Product, own: OwnPrice, i: nat)
    requires i < |p.units|
  {
    own.unitName == p.units[i].name && p.units[i].isSellable && SlotPrices(slots, p.units, i, own.price) && ProductPrice(p, i) != Some(own.price)
  }

  lemma {:induction false} AllSlotPrices(slots: seq<Slot>, p: Product)
    requires UnitsOk(p.units) && ReadOptionSlots(slots, p).problems == []
    ensures forall own :: own in ReadOptionSlots(slots, p).value ==> exists i :: 0 <= i < |p.units| && OwnOfSlots(slots, p, own, i)
    ensures forall i, n :: 0 <= i < |p.units| && SlotPrices(slots, p.units, i, n) && ProductPrice(p, i) != Some(n) ==>
      OwnPrice(p.units[i].name, n) in ReadOptionSlots(slots, p).value
  {
    hide UnitsOk, ReadOptionSlot, SlotPrice, ProductPrice;
    if slots != [] {
      assert slots == [slots[0]] + slots[1..];
      OneSlotPrice(slots[0], p);
      AllSlotPrices(slots[1..], p);
      forall own | own in ReadOptionSlots(slots, p).value
        ensures exists i :: 0 <= i < |p.units| && OwnOfSlots(slots, p, own, i)
      {
        if own in ReadOptionSlot(slots[0], p).value {
          var i :| 0 <= i < |p.units| && OwnOfSlot(slots[0], p, own, i);
          assert OwnOfSlots(slots, p, own, i);
        } else {
          var i :| 0 <= i < |p.units| && OwnOfSlots(slots[1..], p, own, i);
          assert OwnOfSlots(slots, p, own, i);
        }
      }
    }
  }

  lemma {:induction false} OwnPricesAreRead(cells: Cells, p: Product)
    requires UnitsOk(p.units)
    requires ReadOwnPrice(cells.price, p.units[0], p.basePrice).problems == [] && ReadOptionSlots(cells.slots, p).problems == []
    ensures OwnPricesAsWritten(cells, p, ReadOwnPrice(cells.price, p.units[0], p.basePrice).value + ReadOptionSlots(cells.slots, p).value)
  {
    hide NamesApart, OneDefault, ReadOwnPrice, ReadOptionSlots, SlotPrices, Naira.Parse, ProductPrice;
    OneOwnPrice(cells.price, p, 0);
    AllSlotPrices(cells.slots, p);
    var own, slots := ReadOwnPrice(cells.price, p.units[0], p.basePrice).value, ReadOptionSlots(cells.slots, p).value;
    forall x | x in own + slots
      ensures exists i :: 0 <= i < |p.units| && OwnOf(cells, p, x, i)
    {
      if x in own {
        assert OwnOf(cells, p, x, 0);
      } else {
        var i :| 0 <= i < |p.units| && OwnOfSlots(cells.slots, p, x, i);
        assert OwnOf(cells, p, x, i);
      }
    }
  }

  /** An option row that is added adds one option, as the row writes it. */
  lemma {:induction false} OptionRowAsWritten(s: State, ctx: Context, g: nat, cells: Cells, line: int)
    requires PlanOk(s, ctx) && g < |s.groups| && s.groups[g].option && PlanOption(s, ctx, g, cells, line).Ok?
    requires s.groups[g].product.Some? ==> s.groups[g].attributes == s.groups[g].product.value.attributes
    ensures var after := PlanOption(s, ctx, g, cells, line).value.groups;
      after == s.groups || (s.groups[g].product.Some? && exists v ::
        && after == s.groups[g := s.groups[g].(product := Some(s.groups[g].product.value.(variants := s.groups[g].product.value.variants + [v])))]
        && OptionAsWritten(cells, s.groups[g].product.value, v))
  {
    hide Bearers, ReadBarcode, ReadOptionCells, ReadOwnPrice, ReadOptionSlots, Failed, VariantKey, UnitNamed, OwnPricesAsWritten,
         BarcodeReads, NewOptionProblems, SkusOk, CodesOk, RowsOk, NamesApart, OneDefault;
    if s.groups[g].product.Some? {
      var p := s.groups[g].product.value;
      assert GroupOk(s.groups[g]);
      BaseIsFound(p.units, s.groups[g].baseName);
      var after := PlanOption(s, ctx, g, cells, line).value.groups;
      if after != s.groups {
        NewOptionIsRead(ReadOptionCells(cells.optionType, cells.option, Some(s.groups[g].attributes)), p);
        BarcodeIsRead(s, ctx, cells.barcode);
        OwnPricesAreRead(cells, p);
        var v := after[g].product.value.variants[|p.variants|];
        assert OptionAsWritten(cells, p, v);
        assert after == s.groups[g := s.groups[g].(product := Some(p.(variants := p.variants + [v])))];
      }
    }
  }

  lemma {:induction false} BaseIsFound(units: seq<Unit>, name: string)
    requires units != [] && units[0].name == name
    ensures UnitNamed(units, name) == Some(units[0])
  {
  }

  lemma {:induction false} NewOptionIsRead(option: Result<ReadOption, OptionProblem>, p: Product)
    ensures NewOptionProblems(option, p) == [] ==> option.Ok?
  {
  }

  // -- The whole file ---------------------------------------------------------

  /** A row of the product of this name and size, which the shop does not have. */
  predicate RowOf(ctx: Context, inp: Input, key: string) {
    var cells := TrimAll(inp.cells);
    cells.name != "" && ProductKey(cells.name, cells.size) == key && key !in ctx.existingProducts
  }

  /** The first of them in the file. */
  ghost predicate FirstOf(ctx: Context, inputs: seq<Input>, i: nat, key: string) {
    i < |inputs| && RowOf(ctx, inputs[i], key) && forall j :: 0 <= j < i ==> !RowOf(ctx, inputs[j], key)
  }

  ghost predicate LaterOption(ctx: Context, inputs: seq<Input>, i: nat, n: nat, key: string, p: Product, v: Variant) {
    exists j :: i < j < n <= |inputs| && RowOf(ctx, inputs[j], key) && OptionAsWritten(TrimAll(inputs[j].cells), p, v)
  }

  /** The product is as the first row of its name and size writes it, and each option past the first as a later such row does. */
  ghost predicate Traced(ctx: Context, inputs: seq<Input>, n: nat, i: nat, g: Group) {
    && i < n <= |inputs| && FirstOf(ctx, inputs, i, g.key)
    && (g.product.Some? ==>
          && AsWritten(ctx, TrimAll(inputs[i].cells), g.product.value) && g.attributes == g.product.value.attributes
          && (g.option <==> NamesOption(TrimAll(inputs[i].cells)))
          && forall k :: 0 < k < |g.product.value.variants| ==>
               LaterOption(ctx, inputs, i, n, g.key, g.product.value, g.product.value.variants[k]))
  }

  ghost predicate SomewhereTraced(ctx: Context, inputs: seq<Input>, n: nat, g: Group) {
    exists i :: Traced(ctx, inputs, n, i, g)
  }

  predicate HasGroup(groups: seq<Group>, key: string) {
    exists g :: 0 <= g < |groups| && groups[g].key == key
  }

  ghost predicate AllTraced(s: State, ctx: Context, inputs: seq<Input>, n: nat) {
    && n <= |inputs|
    && (forall g :: 0 <= g < |s.groups| ==> SomewhereTraced(ctx, inputs, n, s.groups[g]))
    && (forall j, key :: 0 <= j < n && RowOf(ctx, inputs[j], key) ==> HasGroup(s.groups, key))
  }

  lemma {:induction false} TracedLater(ctx: Context, inputs: seq<Input>, n: nat, i: nat, g: Group)
    requires Traced(ctx, inputs, n, i, g) && n < |inputs|
    ensures Traced(ctx, inputs, n + 1, i, g)
  {
    hide AsWritten, OptionAsWritten, RowOf, FirstOf;
    if g.product.Some? {
      forall k | 0 < k < |g.product.value.variants|
        ensures LaterOption(ctx, inputs, i, n + 1, g.key, g.product.value, g.product.value.variants[k])
      {
        assert LaterOption(ctx, inputs, i, n, g.key, g.product.value, g.product.value.variants[k]);
      }
    }
  }

  /** A row that leaves the groups as they were, of a product already there or of none. */
  lemma {:induction false} NothingNewTraced(s: State, s1: State, ctx: Context, inputs: seq<Input>, n: nat)
    requires AllTraced(s, ctx, inputs, n) && n < |inputs| && s1.groups == s.groups
    requires forall key :: RowOf(ctx, inputs[n], key) ==> HasGroup(s.groups, key)
    ensures AllTraced(s1, ctx, inputs, n + 1)
  {
    hide Traced, RowOf, HasGroup;
    forall g | 0 <= g < |s1.groups|
      ensures SomewhereTraced(ctx, inputs, n + 1, s1.groups[g])
    {
      assert SomewhereTraced(ctx, inputs, n, s.groups[g]);
      var i :| Traced(ctx, inputs, n, i, s.groups[g]);
      TracedLater(ctx, inputs, n, i, s.groups[g]);
    }
  }

  lemma {:induction false} HasGroupAppend(groups: seq<Group>, g: Group, key: string)
    ensures HasGroup(groups, key) || g.key == key ==> HasGroup(groups + [g], key)
  {
    var after := groups + [g];
    if HasGroup(groups, key) {
      var i :| 0 <= i < |groups| && groups[i].key == key;
      assert after[i].key == key;
    }
    assert after[|groups|] == g;
  }

  lemma {:induction false} NewGroupTraced(s: State, s1: State, ctx: Context, inputs: seq<Input>, n: nat, key: string, g: Group)
    requires AllTraced(s, ctx, inputs, n) && n < |inputs| && s1.groups == s.groups + [g] && g.key == key
    requires RowOf(ctx, inputs[n], key) && !HasGroup(s.groups, key)
    requires g.product.Some? ==>
      && AsWritten(ctx, TrimAll(inputs[n].cells), g.product.value) && g.attributes == g.product.value.attributes
      && (g.option <==> NamesOption(TrimAll(inputs[n].cells))) && |g.product.value.variants| <= 1
    ensures AllTraced(s1, ctx, inputs, n + 1)
  {
    hide HasGroup, AsWritten, TrimAll, ProductKey, OptionAsWritten;
    forall j | 0 <= j < n
      ensures !RowOf(ctx, inputs[j], key)
    {
    }
    assert Traced(ctx, inputs, n + 1, n, g);
    forall k | 0 <= k < |s1.groups|
      ensures SomewhereTraced(ctx, inputs, n + 1, s1.groups[k])
    {
      if k < |s.groups| {
        assert SomewhereTraced(ctx, inputs, n, s.groups[k]);
        var i :| Traced(ctx, inputs, n, i, s.groups[k]);
        TracedLater(ctx, inputs, n, i, s.groups[k]);
      }
    }
    forall j, other | 0 <= j < n + 1 && RowOf(ctx, inputs[j], other)
      ensures HasGroup(s1.groups, other)
    {
      HasGroupAppend(s.groups, g, other);
    }
  }

  /** One option more changes neither what the product is nor what its other options are. */
  lemma {:induction false} OptionAppended(ctx: Context, cells: Cells, p: Product, v: Variant)
    requires AsWritten(ctx, cells, p)
    ensures NamesOption(cells) ==> AsWritten(ctx, cells, p.(variants := p.variants + [v]))
  {
    hide UnitsAsWritten, SameUnits, ReadOptionCells, BarcodeReads, PriceReads;
    var p1 := p.(variants := p.variants + [v]);
    if NamesOption(cells) {
      assert p1.variants[0] == p.variants[0];
      assert SoldAsPriced(p1, ctx.wholesale) && PickedFirst(p1, ctx.wholesale) by {
        SameSelling(p, p1, ctx.wholesale);
      }
    }
  }

  lemma {:induction false} SameSelling(p: Product, p1: Product, wholesale: bool)
    requires p1.units == p.units && p1.basePrice == p.basePrice && SoldAsPriced(p, wholesale) && PickedFirst(p, wholesale)
    ensures SoldAsPriced(p1, wholesale) && PickedFirst(p1, wholesale)
  {
    assert AnyPrice(p1) <==> AnyPrice(p) by {
      assert forall i :: 0 <= i < |p.units| ==> ProductPrice(p1, i) == ProductPrice(p, i);
    }
  }

  lemma {:induction false} SameOption(cells: Cells, p: Product, p1: Product, v: Variant)
    requires OptionAsWritten(cells, p, v) && p1.attributes == p.attributes && p1.units == p.units && p1.basePrice == p.basePrice
    ensures OptionAsWritten(cells, p1, v)
  {
    hide CellPrices, ReadOptionCells, BarcodeReads, VariantKey;
    forall own | own in v.prices
      ensures exists i :: 0 <= i < |p1.units| && OwnOf(cells, p1, own, i)
    {
      var i :| 0 <= i < |p.units| && OwnOf(cells, p, own, i);
      assert OwnOf(cells, p1, own, i);
    }
    forall i, n | 0 <= i < |p1.units| && CellPrices(cells, p1.units, i, n) && ProductPrice(p1, i) != Some(n)
      ensures OwnPrice(p1.units[i].name, n) in v.prices
    {
      assert ProductPrice(p, i) != Some(n);
    }
  }

  lemma {:induction false} GroupWithOptionTraced(ctx: Context, inputs: seq<Input>, n: nat, i: nat, g: Group, v: Variant)
    requires n < |inputs| && Traced(ctx, inputs, n, i, g) && g.product.Some? && RowOf(ctx, inputs[n], g.key)
    requires NamesOption(TrimAll(inputs[i].cells)) && OptionAsWritten(TrimAll(inputs[n].cells), g.product.value, v)
    ensures var p := g.product.value; Traced(ctx, inputs, n + 1, i, g.(product := Some(p.(variants := p.variants + [v]))))
  {
    hide AsWritten, OptionAsWritten, RowOf, FirstOf, TrimAll;
    var p := g.product.value;
    var p1 := p.(variants := p.variants + [v]);
    OptionAppended(ctx, TrimAll(inputs[i].cells), p, v);
    forall k | 0 < k < |p1.variants|
      ensures LaterOption(ctx, inputs, i, n + 1, g.key, p1, p1.variants[k])
    {
      if k < |p.variants| {
        assert LaterOption(ctx, inputs, i, n, g.key, p, p.variants[k]);
        var j :| i < j < n <= |inputs| && RowOf(ctx, inputs[j], g.key) && OptionAsWritten(TrimAll(inputs[j].cells), p, p.variants[k]);
        SameOption(TrimAll(inputs[j].cells), p, p1, p.variants[k]);
      } else {
        SameOption(TrimAll(inputs[n].cells), p, p1, v);
      }
    }
  }

  lemma {:induction false} OptionAddedTraced(s: State, s1: State, ctx: Context, inputs: seq<Input>, n: nat, g: nat, v: Variant)
    requires AllTraced(s, ctx, inputs, n) && n < |inputs| && g < |s.groups| && s.groups[g].product.Some? && GroupOk(s.groups[g])
    requires s.groups[g].option && RowOf(ctx, inputs[n], s.groups[g].key)
    requires var p := s.groups[g].product.value;
      && s1.groups == s.groups[g := s.groups[g].(product := Some(p.(variants := p.variants + [v])))]
      && OptionAsWritten(TrimAll(inputs[n].cells), p, v)
    ensures AllTraced(s1, ctx, inputs, n + 1)
  {
    hide Traced, OptionAsWritten, TrimAll, RowOf, UnitsOk, KeysApart, HasGroup;
    var p := s.groups[g].product.value;
    var g1 := s.groups[g].(product := Some(p.(variants := p.variants + [v])));
    forall k | 0 <= k < |s1.groups|
      ensures SomewhereTraced(ctx, inputs, n + 1, s1.groups[k])
    {
      assert SomewhereTraced(ctx, inputs, n, s.groups[k]);
      var i :| Traced(ctx, inputs, n, i, s.groups[k]);
      if k == g {
        OptionWasNamed(ctx, inputs, n, i, s.groups[g]);
        GroupWithOptionTraced(ctx, inputs, n, i, s.groups[g], v);
      } else {
        TracedLater(ctx, inputs, n, i, s.groups[k]);
      }
    }
    forall j, key | 0 <= j < n + 1 && RowOf(ctx, inputs[j], key)
      ensures HasGroup(s1.groups, key)
    {
      if j == n {
        OneKey(ctx, inputs[n], key, s.groups[g].key);
        GroupThere(s.groups, g, key);
      }
      SameKeys(s.groups, g, g1, key);
    }
  }

  lemma {:induction false} SameKeys(groups: seq<Group>, g: nat, g1: Group, key: string)
    requires g < |groups| && g1.key == groups[g].key && HasGroup(groups, key)
    ensures HasGroup(groups[g := g1], key)
  {
    var k :| 0 <= k < |groups| && groups[k].key == key;
    assert groups[g := g1][k].key == key;
  }

  lemma {:induction false} OneKey(ctx: Context, inp: Input, x: string, y: string)
    requires RowOf(ctx, inp, x) && RowOf(ctx, inp, y)
    ensures x == y
  {
  }

  lemma {:induction false} OptionWasNamed(ctx: Context, inputs: seq<Input>, n: nat, i: nat, g: Group)
    requires Traced(ctx, inputs, n, i, g) && g.product.Some? && g.option
    ensures i < |inputs| && NamesOption(TrimAll(inputs[i].cells))
  {
  }

  // -- One row after another --------------------------------------------------

  lemma {:induction false} FirstRowGroup(s: State, ctx: Context, cells: Cells, line: int, key: string) returns (g: Group)
    requires PlanOk(s, ctx) && key !in ctx.existingProducts && forall i :: 0 <= i < |s.groups| ==> s.groups[i].key != key
    ensures FirstRow(s, ctx, cells, line, key).Ok?
    ensures FirstRow(s, ctx, cells, line, key).value.groups == s.groups + [g] && g.key == key
    ensures g.product.Some? ==>
      && AsWritten(ctx, cells, g.product.value) && g.attributes == g.product.value.attributes
      && (g.option <==> NamesOption(cells)) && |g.product.value.variants| <= 1
    ensures g.product.Some? <==> FirstProblems(s, ctx, cells) == []
  {
    hide PlanOk, ReadBarcode, ReadCategory, ReadOptionCells, SettleUnits, ReadUnits, GenerateSku, VariantKey, FirstFree, AsWritten, GroupOk;
    FirstRowOk(s, ctx, cells, line, key);
    g := FirstRow(s, ctx, cells, line, key).value.groups[|s.groups|];
    if FirstProblems(s, ctx, cells) == [] {
      FirstRowAsWritten(s, ctx, cells);
    }
  }

  lemma {:induction false} NoGroup(groups: seq<Group>, key: string)
    requires FindGroup(groups, key).None?
    ensures !HasGroup(groups, key) && forall i :: 0 <= i < |groups| ==> groups[i].key != key
  {
  }

  lemma {:induction false} RowTraced(s: State, ctx: Context, inputs: seq<Input>, n: nat)
    requires PlanOk(s, ctx) && AllTraced(s, ctx, inputs, n) && n < |inputs| && PlanRow(s, ctx, inputs[n], n).Ok?
    ensures AllTraced(PlanRow(s, ctx, inputs[n], n).value, ctx, inputs, n + 1)
  {
    hide PlanOk, AllTraced, FirstRow, PlanOption, TrimAll, ProductKey, HasGroup, AsWritten, OptionAsWritten;
    var cells := TrimAll(inputs[n].cells);
    var line := if inputs[n].line.Some? then inputs[n].line.value else n + 2;
    var key := ProductKey(cells.name, cells.size);
    var s1 := PlanRow(s, ctx, inputs[n], n).value;
    var g := FindGroup(s.groups, key);
    if cells.name == "" || key in ctx.existingProducts {
      NothingNewTraced(s, s1, ctx, inputs, n);
    } else if g.None? {
      NoGroup(s.groups, key);
      var made := FirstRowGroup(s, ctx, cells, line, key);
      NewGroupTraced(s, s1, ctx, inputs, n, key, made);
    } else {
      GroupThere(s.groups, g.value, key);
      if s.groups[g.value].option && cells.option != "" {
        OptionRowTraced(s, s1, ctx, inputs, n, g.value, cells, line);
      } else {
        NothingNewTraced(s, s1, ctx, inputs, n);
      }
    }
  }

  lemma {:induction false} GroupThere(groups: seq<Group>, g: nat, key: string)
    requires g < |groups| && groups[g].key == key
    ensures HasGroup(groups, key)
  {
  }

  lemma {:induction false} OptionRowTraced(s: State, s1: State, ctx: Context, inputs: seq<Input>, n: nat, g: nat, cells: Cells, line: int)
    requires PlanOk(s, ctx) && AllTraced(s, ctx, inputs, n) && n < |inputs| && g < |s.groups| && s.groups[g].option
    requires cells == TrimAll(inputs[n].cells) && RowOf(ctx, inputs[n], s.groups[g].key)
    requires PlanOption(s, ctx, g, cells, line).Ok? && s1 == PlanOption(s, ctx, g, cells, line).value
    ensures AllTraced(s1, ctx, inputs, n + 1)
  {
    hide AllTraced, PlanOption, TrimAll, ProductKey, HasGroup, AsWritten, OptionAsWritten, GroupOk, SkusOk, CodesOk, RowsOk;
    GroupThere(s.groups, g, s.groups[g].key);
    if s.groups[g].product.Some? {
      TracedAttributes(s, ctx, inputs, n, g);
    }
    OptionRowAsWritten(s, ctx, g, cells, line);
    if s1.groups == s.groups {
      NothingNewTraced(s, s1, ctx, inputs, n);
    } else {
      var v :| s1.groups == s.groups[g := s.groups[g].(product := Some(s.groups[g].product.value.(variants := s.groups[g].product.value.variants + [v])))]
               && OptionAsWritten(cells, s.groups[g].product.value, v);
      assert GroupOk(s.groups[g]);
      OptionAddedTraced(s, s1, ctx, inputs, n, g, v);
    }
  }

  lemma {:induction false} TracedAttributes(s: State, ctx: Context, inputs: seq<Input>, n: nat, g: nat)
    requires AllTraced(s, ctx, inputs, n) && g < |s.groups| && s.groups[g].product.Some?
    ensures s.groups[g].attributes == s.groups[g].product.value.attributes
  {
    hide AsWritten, OptionAsWritten, FirstOf;
    assert SomewhereTraced(ctx, inputs, n, s.groups[g]);
    var i :| Traced(ctx, inputs, n, i, s.groups[g]);
  }

  lemma {:induction false} RowsTraced(s: State, ctx: Context, inputs: seq<Input>, n: nat)
    requires PlanOk(s, ctx) && AllTraced(s, ctx, inputs, n) && PlanRows(s, ctx, inputs[n..], n).Ok?
    ensures AllTraced(PlanRows(s, ctx, inputs[n..], n).value, ctx, inputs, |inputs|)
    decreases |inputs| - n
  {
    hide PlanOk, AllTraced, PlanRow;
    UpTo(s, ctx, inputs, n);
    if n < |inputs| {
      RowOk(s, ctx, inputs[n], n);
      RowTraced(s, ctx, inputs, n);
      assert inputs[n..][1..] == inputs[n + 1..];
      RowsTraced(PlanRow(s, ctx, inputs[n], n).value, ctx, inputs, n + 1);
    }
  }

  lemma {:induction false} UpTo(s: State, ctx: Context, inputs: seq<Input>, n: nat)
    requires AllTraced(s, ctx, inputs, n)
    ensures n <= |inputs|
  {
  }

  lemma {:induction false} NothingTraced(ctx: Context, inputs: seq<Input>)
    ensures AllTraced(Start(ctx), ctx, inputs, 0)
  {
  }

  /**
   * Every product planned is as the first row of its name and size writes it, each
   * of its further options as a later row of that name and size does, and every row
   * of a name and size the shop does not have is a row of some product's.
   */
  lemma {:induction false} PlannedAsWritten(ctx: Context, inputs: seq<Input>)
    requires Plan(ctx, inputs).Ok?
    ensures var groups := Plan(ctx, inputs).value.groups;
      && (forall g :: 0 <= g < |groups| ==> SomewhereTraced(ctx, inputs, |inputs|, groups[g]))
      && (forall j, key :: 0 <= j < |inputs| && RowOf(ctx, inputs[j], key) ==> HasGroup(groups, key))
  {
    hide PlanOk, PlanRows, SomewhereTraced, RowOf, HasGroup;
    StartIsOk(ctx);
    NothingTraced(ctx, inputs);
    assert inputs[0..] == inputs;
    RowsAreOk(Start(ctx), ctx, inputs, 0);
    RowsTraced(Start(ctx), ctx, inputs, 0);
  }

  // -- Which first rows are sound ---------------------------------------------

  /** A barcode cell is blank, or holds a valid code that is nobody's in the shop and not yet in the file. */
  predicate BarcodeSound(s: State, ctx: Context, cell: string) {
    cell == "" ||
    (!RoundedCode(cell) && Barcode.Resolve(cell).Some?
     && Barcode.Resolve(cell).value !in ctx.existingBarcodes && Barcode.Resolve(cell).value !in s.barcodes)
  }

  /**
   * A first row makes its product exactly when its name is of 200 characters at
   * most, its size of 40 and its category of 120, its price is blank or an amount,
   * its units and its option can be read, its barcode is sound, and no unit has a
   * price the shop has no list for.
   */
  lemma {:induction false} FirstRowSoundExactly(s: State, ctx: Context, cells: Cells)
    ensures FirstProblems(s, ctx, cells) == [] <==>
      && |cells.name| <= 200 && |cells.size| <= 40 && |cells.category| <= 120
      && (cells.price == "" || Naira.Parse(cells.price).Ok?)
      && ReadUnits(cells).problems == []
      && (NamesOption(cells) ==> ReadOptionCells(cells.optionType, cells.option, None).Ok?)
      && BarcodeSound(s, ctx, cells.barcode)
      && (ctx.hasPriceList || forall i :: 0 <= i < |ReadUnits(cells).value| ==> ReadUnits(cells).value[i].price.None?)
  {
    hide ReadUnits, ReadOptionCells, RoundedCode, Barcode.Resolve, Naira.Parse, FindCategory;
  }
}
