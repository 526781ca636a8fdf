/**
 * What every import plan keeps
 * (src/modules/catalog/product-import.ts:213-695, 882-888).
 */
module ImportTheorems {
  import opened Common
  import opened ImportText
  import opened SellingUnits
  import opened ProductImport

  // -- Units ------------------------------------------------------------------

  predicate OneDefault(units: seq<Unit>) {
    exists d :: 0 <= d < |units| && IsTheDefault(units, d)
  }

  predicate IsTheDefault(units: seq<Unit>, d: nat)
    requires d < |units|
  {
    units[d].isDefault && units[d].isSellable && forall i :: 0 <= i < |units| && i != d ==> !units[i].isDefault
  }

  predicate NamesApart(units: seq<Unit>) {
    forall i, j :: 0 <= i < j < |units| ==> Lower(units[i].name) != Lower(units[j].name)
  }

  /** One base unit, every other of two or more, each with its own name, and one sold unit picked first. */
  predicate UnitsOk(units: seq<Unit>) {
    && units != [] && units[0].factor == 1 && (forall i :: 0 < i < |units| ==> units[i].factor >= 2)
    && NamesApart(units) && OneDefault(units)
  }

  lemma {:induction false} DraftsAreOk(cells: Cells)
    ensures var r := ReadUnits(cells);
      && FactorsOk(r.value) && r.value[0].name == BaseName(cells)
      && (r.problems == [] ==> Distinct(DraftNames(r.value)))
  {
    var start := Drafting([Draft(BaseName(cells), 1, None)], [], []);
    SlotsAreOk(start, cells.slots);
    var d := ReadSlots(start, cells.slots);
    PortionsAreOk(d.drafts, d.portions);
  }

  lemma {:induction false} SomethingIsSold(drafts: seq<Draft>, basePrice: Option<int>, wholesale: bool) returns (i: nat)
    requires FactorsOk(drafts)
    ensures i < |drafts|
    ensures UnitsOf(drafts, basePrice, AnyPriced(drafts, basePrice), |drafts|, wholesale)[i].isSellable
  {
    var priced := AnyPriced(drafts, basePrice);
    var units := UnitsOf(drafts, basePrice, priced, |drafts|, wholesale);
    if priced {
      i :| 0 <= i < |drafts| && PriceOf(drafts[i], basePrice).Some?;
      assert units[i] == UnitOf(drafts[i], basePrice, priced, |drafts|, wholesale);
    } else {
      i := if |drafts| == 1 then 0 else 1;
      assert units[i] == UnitOf(drafts[i], basePrice, priced, |drafts|, wholesale);
    }
  }

  /** However the units come, some unit is sold, so choosing one never fails. */
  lemma {:induction false} SettledIsOk(drafts: seq<Draft>, basePrice: Option<int>, wholesale: bool)
    requires FactorsOk(drafts) && Distinct(DraftNames(drafts))
    ensures SettleUnits(drafts, basePrice, wholesale).Ok?
    ensures var units := SettleUnits(drafts, basePrice, wholesale).value;
      UnitsOk(units) && units[0].name == drafts[0].name
  {
    hide Choose, UnitsOf, AnyPriced, UnitsOk, DraftNames;
    var priced := AnyPriced(drafts, basePrice);
    var units := UnitsOf(drafts, basePrice, priced, |drafts|, wholesale);
    var sold := SomethingIsSold(drafts, basePrice, wholesale);
    ChosenIsSold(units, None, wholesale);
    PickedIsOk(drafts, units, Choose(units, None, wholesale).value);
  }

  /** Marking one sold unit of a sound list as the one picked first. */
  lemma {:induction false} PickedIsOk(drafts: seq<Draft>, units: seq<Unit>, c: nat)
    requires FactorsOk(drafts) && Distinct(DraftNames(drafts)) && |units| == |drafts| && c < |units| && units[c].isSellable
    requires forall i :: 0 <= i < |units| ==>
      units[i].name == drafts[i].name && units[i].factor == drafts[i].factor && !units[i].isDefault
    ensures UnitsOk(units[c := units[c].(isDefault := true)])
  {
    var settled := units[c := units[c].(isDefault := true)];
    assert IsTheDefault(settled, c);
    forall i, j | 0 <= i < j < |settled|
      ensures Lower(settled[i].name) != Lower(settled[j].name)
    {
      assert DraftNames(drafts)[i] != DraftNames(drafts)[j];
    }
  }

  // -- What the plan so far keeps ---------------------------------------------

  predicate KeysApart(variants: seq<Variant>) {
    forall i, j :: 0 <= i < j < |variants| ==> variants[i].key != variants[j].key
  }

  /** The product's units settle, its options differ, and there are options exactly when its first row named one. */
  predicate GroupOk(g: Group) {
    g.product.Some? ==>
      var p := g.product.value;
      && UnitsOk(p.units) && p.units[0].name == g.baseName
      && KeysApart(p.variants) && |p.variants| <= MAX_OPTIONS && (g.option <==> p.variants != [])
      && (g.option ==> p.barcode.None?)
  }

  predicate SkusOk(s: State, ctx: Context) {
    && ctx.existingSkus <= s.skus
    && (forall i :: 0 <= i < |s.groups| && s.groups[i].product.Some? ==>
          s.groups[i].product.value.sku in s.skus && s.groups[i].product.value.sku !in ctx.existingSkus)
    && (forall i, j :: 0 <= i < j < |s.groups| && s.groups[i].product.Some? && s.groups[j].product.Some? ==>
          s.groups[i].product.value.sku != s.groups[j].product.value.sku)
  }

  function Same(code: Option<string>, c: string): nat {
    if code == Some(c) then 1 else 0
  }

  function OnVariants(variants: seq<Variant>, c: string): nat {
    if variants == [] then 0 else Same(variants[0].barcode, c) + OnVariants(variants[1..], c)
  }

  function OnProduct(p: Option<Product>, c: string): nat {
    if p.None? then 0 else Same(p.value.barcode, c) + OnVariants(p.value.variants, c)
  }

  /** How many products and options bear a barcode. */
  function Bearers(groups: seq<Group>, c: string): nat {
    if groups == [] then 0 else OnProduct(groups[0].product, c) + Bearers(groups[1..], c)
  }

  /** A barcode is on one thing at most, is remembered, and is nobody's in the shop. */
  ghost predicate CodesOk(s: State, ctx: Context) {
    && (forall c: string :: Bearers(s.groups, c) <= 1 && (Bearers(s.groups, c) > 0 ==> c in s.barcodes))
    && (forall c :: c in s.barcodes ==> c !in ctx.existingBarcodes)
  }

  predicate GroupsOk(s: State, ctx: Context) {
    && (forall i :: 0 <= i < |s.groups| ==> GroupOk(s.groups[i]) && s.groups[i].key !in ctx.existingProducts)
    && (forall i, j :: 0 <= i < j < |s.groups| ==> s.groups[i].key != s.groups[j].key)
  }

  /** Rows belong to groups that exist, a skipped row to none, and a product that could not be made has a row in error. */
  predicate RowsOk(s: State) {
    && (forall i :: 0 <= i < |s.rows| && s.rows[i].group.Some? ==> s.rows[i].group.value < |s.groups| && s.rows[i].status != Skip)
    && (forall i :: 0 <= i < |s.rows| && s.rows[i].status == Add ==> s.rows[i].group.Some?)
    && (forall g: nat :: g < |s.groups| && s.groups[g].product.None? ==> Failed(s.rows, g))
  }

  ghost predicate PlanOk(s: State, ctx: Context) {
    GroupsOk(s, ctx) && SkusOk(s, ctx) && CodesOk(s, ctx) && RowsOk(s)
  }

  lemma {:induction false} BearersAppend(groups: seq<Group>, g: Group, c: string)
    ensures Bearers(groups + [g], c) == Bearers(groups, c) + OnProduct(g.product, c)
  {
    if groups == [] {
      assert [] + [g] == [g] && [g][1..] == [];
    } else {
      assert (groups + [g])[1..] == groups[1..] + [g];
      BearersAppend(groups[1..], g, c);
    }
  }

  lemma {:induction false} BearersUpdate(groups: seq<Group>, i: nat, g: Group, c: string)
    requires i < |groups|
    ensures Bearers(groups[i := g], c) == Bearers(groups, c) - OnProduct(groups[i].product, c) + OnProduct(g.product, c)
  {
    if i == 0 {
      assert groups[0 := g][1..] == groups[1..];
    } else {
      assert groups[i := g][1..] == groups[1..][i - 1 := g];
      BearersUpdate(groups[1..], i - 1, g, c);
    }
  }

  lemma {:induction false} OnVariantsAppend(variants: seq<Variant>, v: Variant, c: string)
    ensures OnVariants(variants + [v], c) == OnVariants(variants, c) + Same(v.barcode, c)
  {
    if variants == [] {
      assert [] + [v] == [v] && [v][1..] == [];
    } else {
      assert (variants + [v])[1..] == variants[1..] + [v];
      OnVariantsAppend(variants[1..], v, c);
    }
  }

  lemma {:induction false} FailedAppend(rows: seq<Row>, row: Row, g: nat)
    ensures Failed(rows + [row], g) <==> Failed(rows, g) || (row.group == Some(g) && row.status == Wrong)
  {
    var after := rows + [row];
    if Failed(rows, g) {
      var i :| 0 <= i < |rows| && rows[i].group == Some(g) && rows[i].status == Wrong;
      assert after[i] == rows[i];
    }
    assert after[|rows|] == row;
  }

  /** A row put under a group there already is. */
  lemma {:induction false} WithRowOk(s: State, ctx: Context, line: int, problems: seq<Problem>, group: Option<nat>)
    requires PlanOk(s, ctx) && (group.Some? ==> group.value < |s.groups|) && (problems == [] ==> group.Some?)
    ensures PlanOk(WithRow(s, line, problems, group), ctx)
  {
    hide GroupOk, Bearers;
    var s1 := WithRow(s, line, problems, group);
    forall g: nat | g < |s1.groups| && s1.groups[g].product.None?
      ensures Failed(s1.rows, g)
    {
      FailedAppend(s.rows, s1.rows[|s.rows|], g);
    }
  }

  lemma {:induction false} SkippedOk(s: State, ctx: Context, line: int)
    requires PlanOk(s, ctx)
    ensures PlanOk(s.(rows := s.rows + [Row(line, Skip, [], None)]), ctx)
  {
    hide GroupOk, Bearers;
    var row := Row(line, Skip, [], None);
    forall g: nat | g < |s.groups| && s.groups[g].product.None?
      ensures Failed(s.rows + [row], g)
    {
      FailedAppend(s.rows, row, g);
    }
  }

  /** What reading a first row's category and barcode leaves alone. */
  lemma {:induction false} ReadOk(s: State, ctx: Context, category: Choice, raw: string, line: int)
    requires PlanOk(s, ctx)
    ensures var code := ReadBarcode(s, ctx, raw).value;
      var read := WithBarcode(WithCategory(s, category), code, line);
      && PlanOk(read, ctx)
      && read.groups == s.groups && read.rows == s.rows && read.skus == s.skus
      && (code.Some? ==> Bearers(s.groups, code.value) == 0 && code.value in read.barcodes)
  {
    hide GroupOk, Bearers, Failed, RoundedCode;
  }

  lemma {:induction false} AddGroupOk(s: State, ctx: Context, g: Group, skus: set<string>, line: int, problems: seq<Problem>)
    requires PlanOk(s, ctx) && GroupOk(g) && g.key !in ctx.existingProducts
    requires forall i :: 0 <= i < |s.groups| ==> s.groups[i].key != g.key
    requires if g.product.Some? then g.product.value.sku !in s.skus && skus == {g.product.value.sku} && problems == [] else skus == {} && problems != []
    requires forall c: string :: OnProduct(g.product, c) <= 1 && (OnProduct(g.product, c) > 0 ==> Bearers(s.groups, c) == 0 && c in s.barcodes)
    ensures PlanOk(WithRow(s.(groups := s.groups + [g], skus := s.skus + skus), line, problems, Some(|s.groups|)), ctx)
  {
    hide GroupOk, Bearers, OnProduct;
    var s1 := WithRow(s.(groups := s.groups + [g], skus := s.skus + skus), line, problems, Some(|s.groups|));
    forall c: string
      ensures Bearers(s1.groups, c) <= 1 && (Bearers(s1.groups, c) > 0 ==> c in s1.barcodes)
    {
      BearersAppend(s.groups, g, c);
    }
    forall i: nat | i < |s1.groups| && s1.groups[i].product.None?
      ensures Failed(s1.rows, i)
    {
      FailedAppend(s.rows, s1.rows[|s.rows|], i);
    }
  }

  /** The product a sound first row makes is in order, and bears at most the row's own barcode. */
  lemma {:induction false} MadeIsOk(s: State, ctx: Context, cells: Cells, key: string)
    requires FirstProblems(s, ctx, cells) == []
    ensures var units := SettleUnits(ReadUnits(cells).value, ReadPrice(cells.price).value, ctx.wholesale);
      && units.Ok?
      && var p := ProductOf(s, ctx, cells, units.value);
      && GroupOk(Group(key, HasOption(FirstOption(cells)), AttributesOf(FirstOption(cells)), BaseName(cells), cells.category, Some(p)))
      && p.sku !in s.skus
      && (forall c: string :: OnProduct(Some(p), c) == Same(ReadBarcode(s, ctx, cells.barcode).value, c))
  {
    hide UnitsOk, ReadBarcode, ReadCategory, ReadOptionCells, SettleUnits, ReadUnits, GenerateSku, VariantKey, FirstFree;
    DraftsAreOk(cells);
    assert ReadUnits(cells).problems == [];
    SettledIsOk(ReadUnits(cells).value, ReadPrice(cells.price).value, ctx.wholesale);
    var units := SettleUnits(ReadUnits(cells).value, ReadPrice(cells.price).value, ctx.wholesale).value;
    var p := ProductOf(s, ctx, cells, units);
    forall c: string
      ensures OnProduct(Some(p), c) == Same(ReadBarcode(s, ctx, cells.barcode).value, c)
    {
      if HasOption(FirstOption(cells)) {
        assert p.variants[1..] == [];
        assert OnVariants(p.variants, c) == Same(p.variants[0].barcode, c) + OnVariants(p.variants[1..], c);
      }
    }
  }

  lemma {:induction false} FirstRowOk(s: State, ctx: Context, cells: Cells, line: int, key: string)
    requires PlanOk(s, ctx) && key !in ctx.existingProducts
    requires forall i :: 0 <= i < |s.groups| ==> s.groups[i].key != key
    ensures FirstRow(s, ctx, cells, line, key).Ok? && PlanOk(FirstRow(s, ctx, cells, line, key).value, ctx)
  {
    hide PlanOk, GroupOk, Bearers, FirstProblems, ReadBarcode, ReadCategory, ReadOptionCells, SettleUnits, ReadUnits,
         ProductOf, OnProduct, WithRow;
    var category := ReadCategory(ctx, cells.category).value;
    ReadOk(s, ctx, category, cells.barcode, line);
    var code := ReadBarcode(s, ctx, cells.barcode).value;
    var read := WithBarcode(WithCategory(s, category), code, line);
    var option := FirstOption(cells);
    var group := Group(key, HasOption(option), AttributesOf(option), BaseName(cells), cells.category, None);
    if FirstProblems(s, ctx, cells) != [] {
      NoProduct(group);
      AddGroupOk(read, ctx, group, {}, line, FirstProblems(s, ctx, cells));
      assert read.skus + {} == s.skus;
    } else {
      MadeIsOk(s, ctx, cells, key);
      var units := SettleUnits(ReadUnits(cells).value, ReadPrice(cells.price).value, ctx.wholesale).value;
      var p := ProductOf(s, ctx, cells, units);
      AddGroupOk(read, ctx, group.(product := Some(p)), {p.sku}, line, []);
    }
  }

  lemma {:induction false} NoProduct(g: Group)
    requires g.product.None?
    ensures GroupOk(g) && forall c: string :: OnProduct(g.product, c) == 0
  {
  }

  /** One more option keeps the product in order. */
  lemma {:induction false} OneMoreOption(s: State, ctx: Context, g: nat, v: Variant, line: int)
    requires PlanOk(s, ctx) && g < |s.groups| && s.groups[g].product.Some? && s.groups[g].option
    requires !HasKey(s.groups[g].product.value.variants, v.key) && |s.groups[g].product.value.variants| < MAX_OPTIONS
    requires v.barcode.Some? ==> Bearers(s.groups, v.barcode.value) == 0 && v.barcode.value in s.barcodes
    ensures var p := s.groups[g].product.value;
      PlanOk(s.(groups := s.groups[g := s.groups[g].(product := Some(p.(variants := p.variants + [v])))]), ctx)
  {
    hide UnitsOk, Bearers, Failed;
    var p := s.groups[g].product.value;
    var p1 := p.(variants := p.variants + [v]);
    var g1 := s.groups[g].(product := Some(p1));
    var s1 := s.(groups := s.groups[g := g1]);
    forall c: string
      ensures Bearers(s1.groups, c) <= 1 && (Bearers(s1.groups, c) > 0 ==> c in s1.barcodes)
    {
      BearersUpdate(s.groups, g, g1, c);
      OnVariantsAppend(p.variants, v, c);
    }
    assert GroupOk(s.groups[g]);
    assert GroupOk(g1) by {
      forall i, j | 0 <= i < j < |p1.variants|
        ensures p1.variants[i].key != p1.variants[j].key
      {
        if j == |p.variants| {
          assert p.variants[i].key != v.key;
        }
      }
    }
  }

  lemma {:induction false} BaseIsNamed(units: seq<Unit>, name: string)
    requires units != [] && units[0].name == name
    ensures UnitNamed(units, name) == Some(units[0])
  {
  }

  lemma {:induction false} PlanOptionOk(s: State, ctx: Context, g: nat, cells: Cells, line: int)
    requires PlanOk(s, ctx) && g < |s.groups| && s.groups[g].option
    ensures PlanOption(s, ctx, g, cells, line).Ok? && PlanOk(PlanOption(s, ctx, g, cells, line).value, ctx)
  {
    hide Bearers, ReadBarcode, ReadOptionCells, WithRow, ReadOwnPrice, ReadOptionSlots, Failed, UnitsOk, VariantKey;
    var group := s.groups[g];
    if group.product.None? {
      WithRowOk(s, ctx, line, [FirstRowInError], Some(g));
    } else {
      var p := group.product.value;
      assert GroupOk(group);
      BaseFirst(p.units);
      BaseIsNamed(p.units, group.baseName);
      ReadOk(s, ctx, NoCategory, cells.barcode, line);
      OptionOutcome(s, ctx, g, cells, line);
    }
  }

  lemma {:induction false} BaseFirst(units: seq<Unit>)
    requires UnitsOk(units)
    ensures units != []
  {
  }

  /** A later row either changes nothing but the barcodes seen, or adds its option. */
  lemma {:induction false} OptionOutcome(s: State, ctx: Context, g: nat, cells: Cells, line: int)
    requires PlanOk(s, ctx) && g < |s.groups| && s.groups[g].option && s.groups[g].product.Some?
    requires UnitNamed(s.groups[g].product.value.units, s.groups[g].baseName).Some?
    requires PlanOk(WithBarcode(s, ReadBarcode(s, ctx, cells.barcode).value, line), ctx)
    requires ReadBarcode(s, ctx, cells.barcode).value.Some? ==> Bearers(s.groups, ReadBarcode(s, ctx, cells.barcode).value.value) == 0
    ensures PlanOption(s, ctx, g, cells, line).Ok? && PlanOk(PlanOption(s, ctx, g, cells, line).value, ctx)
  {
    hide PlanOk, Bearers, ReadBarcode, ReadOptionCells, WithRow, ReadOwnPrice, ReadOptionSlots, Failed, UnitsOk, VariantKey, UnitNamed;
    var group, p := s.groups[g], s.groups[g].product.value;
    var option := ReadOptionCells(cells.optionType, cells.option, Some(group.attributes));
    var base := UnitNamed(p.units, group.baseName).value;
    var own, slots := ReadOwnPrice(cells.price, base, p.basePrice), ReadOptionSlots(cells.slots, p);
    var barcode := ReadBarcode(s, ctx, cells.barcode);
    var problems := NewOptionProblems(option, p)
      + (if cells.category != "" && Lower(cells.category) != Lower(group.categoryName) then [CategoryDiffers] else [])
      + (if cells.countedIn != "" && Lower(cells.countedIn) != Lower(group.baseName) then [UnitsDiffer] else [])
      + own.problems + slots.problems + barcode.problems;
    var read := WithBarcode(s, barcode.value, line);
    if problems != [] {
      WithRowOk(read, ctx, line, problems, Some(g));
    } else {
      assert NewOptionProblems(option, p) == [];
      var values := option.value.values;
      var variant := Variant(values, VariantKey(values), own.value + slots.value, barcode.value);
      OneMoreOption(read, ctx, g, variant, line);
      WithRowOk(read.(groups := s.groups[g := group.(product := Some(p.(variants := p.variants + [variant])))]), ctx, line, [], Some(g));
    }
  }

  lemma {:induction false} RowOk(s: State, ctx: Context, inp: Input, index: nat)
    requires PlanOk(s, ctx)
    ensures PlanRow(s, ctx, inp, index).Ok? && PlanOk(PlanRow(s, ctx, inp, index).value, ctx)
  {
    hide PlanOk, FirstRow, PlanOption, TrimAll, IsBlank, ProductKey, WithRow;
    var cells := TrimAll(inp.cells);
    var line := if inp.line.Some? then inp.line.value else index + 2;
    var key := ProductKey(cells.name, cells.size);
    if IsBlank(cells) {
    } else if cells.name == "" {
      WithRowOk(s, ctx, line, [NoName], None);
    } else if key in ctx.existingProducts {
      SkippedOk(s, ctx, line);
    } else {
      var g := FindGroup(s.groups, key);
      if g.None? {
        FirstRowOk(s, ctx, cells, line, key);
      } else if s.groups[g.value].option && cells.option != "" {
        PlanOptionOk(s, ctx, g.value, cells, line);
      } else {
        WithRowOk(s, ctx, line, [SameProductAgain], g);
      }
    }
  }

  lemma {:induction false} RowsAreOk(s: State, ctx: Context, inputs: seq<Input>, index: nat)
    requires PlanOk(s, ctx)
    ensures PlanRows(s, ctx, inputs, index).Ok? && PlanOk(PlanRows(s, ctx, inputs, index).value, ctx)
    decreases inputs
  {
    hide PlanOk, PlanRow;
    if inputs != [] {
      RowOk(s, ctx, inputs[0], index);
      RowsAreOk(PlanRow(s, ctx, inputs[0], index).value, ctx, inputs[1..], index + 1);
    }
  }

  lemma {:induction false} StartIsOk(ctx: Context)
    ensures PlanOk(Start(ctx), ctx)
  {
  }

  // -- The theorems -----------------------------------------------------------

  /** No file makes planning fail: choosing what the till picks first always finds something sold. */
  lemma {:induction false} PlanNeverFails(ctx: Context, inputs: seq<Input>)
    ensures Plan(ctx, inputs).Ok?
  {
    hide PlanOk, PlanRows;
    StartIsOk(ctx);
    RowsAreOk(Start(ctx), ctx, inputs, 0);
  }

  /** A product goes in whole or not at all, and a row added is a row of a product there is. */
  lemma {:induction false} AllRowsOrNone(ctx: Context, inputs: seq<Input>, i: nat, j: nat)
    requires Plan(ctx, inputs).Ok?
    requires i < |Plan(ctx, inputs).value.rows| && j < |Plan(ctx, inputs).value.rows|
    requires Plan(ctx, inputs).value.rows[i].status == Add
    ensures var plan := Plan(ctx, inputs).value;
      && plan.rows[i].group.Some? && plan.rows[i].group.value < |plan.groups|
      && plan.groups[plan.rows[i].group.value].product.Some?
      && (plan.rows[j].group == plan.rows[i].group ==> plan.rows[j].status == Add)
  {
    hide PlanRows, GroupsOk, SkusOk, CodesOk;
    StartIsOk(ctx);
    RowsAreOk(Start(ctx), ctx, inputs, 0);
    var s := PlanRows(Start(ctx), ctx, inputs, 0).value;
    var plan := Plan(ctx, inputs).value;
    assert plan.rows[i] == FinishRow(s.rows[i], s.rows) && plan.rows[j] == FinishRow(s.rows[j], s.rows);
  }

  /**
   * Every product planned has one base unit, every other of two or more, one sold
   * unit picked first, and options no two alike; its code is new to the shop and
   * the file.
   */
  lemma {:induction false} ProductsAreSound(ctx: Context, inputs: seq<Input>, g: nat, h: nat)
    requires Plan(ctx, inputs).Ok? && g < |Plan(ctx, inputs).value.groups| && h < |Plan(ctx, inputs).value.groups|
    requires Plan(ctx, inputs).value.groups[g].product.Some?
    ensures var plan := Plan(ctx, inputs).value;
      var p := plan.groups[g].product.value;
      && UnitsOk(p.units) && KeysApart(p.variants) && |p.variants| <= MAX_OPTIONS
      && p.sku !in ctx.existingSkus && plan.groups[g].key !in ctx.existingProducts
      && (g != h ==> plan.groups[g].key != plan.groups[h].key)
      && (g != h && plan.groups[h].product.Some? ==> plan.groups[h].product.value.sku != p.sku)
  {
    hide PlanRows, UnitsOk, KeysApart, CodesOk, RowsOk;
    StartIsOk(ctx);
    RowsAreOk(Start(ctx), ctx, inputs, 0);
    var s := PlanRows(Start(ctx), ctx, inputs, 0).value;
    assert GroupOk(s.groups[g]);
  }

  /** No barcode is on two things of the plan, nor on one of the shop's and one of the plan. */
  lemma {:induction false} BarcodesAreApart(ctx: Context, inputs: seq<Input>, code: string)
    requires Plan(ctx, inputs).Ok?
    ensures var plan := Plan(ctx, inputs).value;
      Bearers(plan.groups, code) <= 1 && (code in ctx.existingBarcodes ==> Bearers(plan.groups, code) == 0)
  {
    hide PlanRows, GroupsOk, SkusOk, RowsOk;
    StartIsOk(ctx);
    RowsAreOk(Start(ctx), ctx, inputs, 0);
    var s := PlanRows(Start(ctx), ctx, inputs, 0).value;
    assert Bearers(s.groups, code) <= 1;
  }

  // -- The loop ---------------------------------------------------------------

  /** `planImport` as it runs: the rows in turn, then the products with a row in error taken out. */
  method PlanImport(ctx: Context, inputs: seq<Input>) returns (plan: State)
    ensures Plan(ctx, inputs) == Ok(plan)
  {
    hide PlanOk, PlanRow, FinishRow;
    StartIsOk(ctx);
    var s := Start(ctx);
    var i := 0;
    while i < |inputs|
      invariant 0 <= i <= |inputs| && PlanOk(s, ctx)
      invariant PlanRows(s, ctx, inputs[i..], i) == PlanRows(Start(ctx), ctx, inputs, 0)
    {
      assert inputs[i..][1..] == inputs[i + 1..];
      RowOk(s, ctx, inputs[i], i);
      s := PlanRow(s, ctx, inputs[i], i).value;
      i := i + 1;
    }
    var rows := s.rows;
    i := 0;
    while i < |s.rows|
      invariant 0 <= i <= |s.rows| == |rows|
      invariant forall k :: 0 <= k < |rows| ==> rows[k] == if k < i then FinishRow(s.rows[k], s.rows) else s.rows[k]
    {
      rows := rows[i := FinishRow(s.rows[i], s.rows)];
      i := i + 1;
    }
    assert rows == Finish(s.rows, s.rows);
    plan := s.(rows := rows);
  }
}
