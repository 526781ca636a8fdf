/**
 * Planning a catalog import: which rows of a spreadsheet become which products
 * (src/modules/catalog/product-import.ts:213-695, 745-898).
 */
module ProductImport {
  import opened Common
  import opened ImportText
  import opened SellingUnits
  import Barcode
  import Naira

  // -- What goes in -----------------------------------------------------------

  datatype Slot = Slot(name: string, count: string, price: string)

  datatype Cells = Cells(
    name: string, size: string, category: string, countedIn: string, price: string, slots: seq<Slot>,
    barcode: string, optionType: string, option: string)

  datatype Input = Input(line: Option<int>, cells: Cells)

  datatype Category = Category(id: Id, name: string, deleted: bool)

  /** What the catalog already holds. */
  datatype Context = Context(
    existingProducts: set<string>, existingSkus: set<string>, existingBarcodes: set<string>,
    categories: seq<Category>, hasPriceList: bool, wholesale: bool)

  const NAME_LIMIT: nat := 200
  const SIZE_LIMIT: nat := 40
  const UNIT_LIMIT: nat := 40
  const CATEGORY_LIMIT: nat := 120
  const MAX_OPTIONS: nat := 50

  // -- What comes out ---------------------------------------------------------

  datatype Problem =
    | NoName
    | TooLong
    | BadPrice
    | SlotWithoutName
    | BadCount
    | PortionOfNothing
    | PortionNotWhole
    | PortionIsSingle
    | PortionDisagrees
    | UnitsRepeat
    | BadOption(why: OptionProblem)
    | BadBarcode
    | BarcodeTaken
    | NoPriceList
    | FirstRowInError
    | OptionRepeats
    | TooManyOptions
    | CategoryDiffers
    | UnitsDiffer
    | PriceOfUnsold
    | SameProductAgain

  datatype Choice = NoCategory | Live(id: Id) | Revived(id: Id) | Fresh(name: string)

  datatype OwnPrice = OwnPrice(unitName: string, price: int)

  datatype Variant = Variant(values: seq<string>, key: string, prices: seq<OwnPrice>, barcode: Option<string>)

  datatype Product = Product(
    name: string, size: string, sku: string, basePrice: Option<int>, category: Choice, units: seq<Unit>,
    barcode: Option<string>, attributes: seq<string>, variants: seq<Variant>)

  /** One product's rows, gathered by name and size. No product means its first row is in error. */
  datatype Group = Group(
    key: string, option: bool, attributes: seq<string>, baseName: string, categoryName: string, product: Option<Product>)

  datatype Status = Add | Skip | Wrong

  datatype Row = Row(line: int, status: Status, problems: seq<Problem>, group: Option<nat>)

  /** The plan so far. `made` and `revived` are the categories it makes and brings back. */
  datatype State = State(
    groups: seq<Group>, rows: seq<Row>, barcodes: map<string, int>, skus: set<string>, made: set<string>, revived: set<Id>)

  /** What the source would fail on rather than report. */
  datatype Crash = NothingToSell | NoBaseUnit

  // -- Cells ------------------------------------------------------------------

  function TrimSlots(slots: seq<Slot>): seq<Slot> {
    if slots == [] then []
    else [Slot(Trim(slots[0].name), Trim(slots[0].count), Trim(slots[0].price))] + TrimSlots(slots[1..])
  }

  function TrimAll(c: Cells): Cells {
    Cells(Trim(c.name), Trim(c.size), Trim(c.category), Trim(c.countedIn), Trim(c.price), TrimSlots(c.slots),
          Trim(c.barcode), Trim(c.optionType), Trim(c.option))
  }

  predicate IsBlank(c: Cells) {
    && c.name == "" && c.size == "" && c.category == "" && c.countedIn == "" && c.price == ""
    && c.barcode == "" && c.optionType == "" && c.option == ""
    && forall i :: 0 <= i < |c.slots| ==> c.slots[i] == Slot("", "", "")
  }

  datatype Reading<T> = Reading(value: T, problems: seq<Problem>)

  /** `readPrice`: no price is not a problem. */
  function ReadPrice(raw: string): Reading<Option<int>> {
    if raw == "" then Reading(None, [])
    else
      var kobo := Naira.Parse(raw);
      if kobo.Ok? then Reading(Some(kobo.value), []) else Reading(None, [BadPrice])
  }

  // -- Units ------------------------------------------------------------------

  datatype Draft = Draft(name: string, factor: nat, price: Option<int>)

  datatype PortionDraft = PortionDraft(name: string, price: Option<int>, count: Option<nat>, part: Portion)

  datatype Drafting = Drafting(drafts: seq<Draft>, portions: seq<PortionDraft>, problems: seq<Problem>)

  /** One unit column: a unit, a portion kept for later, or a problem. */
  function ReadSlot(d: Drafting, slot: Slot): Drafting {
    if slot.name == "" then
      if slot.count != "" || slot.price != "" then d.(problems := d.problems + [SlotWithoutName]) else d
    else
      var price := ReadPrice(slot.price);
      var part := ReadPortion(slot.name);
      var count := ReadCount(slot.count);
      var known := d.(problems := d.problems + price.problems);
      if part.Some? then
        if slot.count == "" then known.(portions := d.portions + [PortionDraft(slot.name, price.value, None, part.value)])
        else if count.None? then known.(problems := known.problems + [BadCount])
        else known.(portions := d.portions + [PortionDraft(slot.name, price.value, count, part.value)])
      else if count.None? then known.(problems := known.problems + [BadCount])
      else known.(drafts := d.drafts + [Draft(slot.name, count.value, price.value)])
  }

  function ReadSlots(d: Drafting, slots: seq<Slot>): Drafting
    decreases slots
  {
    if slots == [] then d else ReadSlots(ReadSlot(d, slots[0]), slots[1..])
  }

  function DraftNamed(drafts: seq<Draft>, name: string): Option<Draft> {
    if drafts == [] then None
    else if Lower(drafts[0].name) == Lower(name) then Some(drafts[0])
    else DraftNamed(drafts[1..], name)
  }

  /** A portion, sized from the unit it is part of. */
  function SettlePortion(drafts: seq<Draft>, p: PortionDraft): Reading<seq<Draft>>
    requires p.part.denominator > 0
  {
    var whole := DraftNamed(drafts, p.part.unit);
    if whole.None? then
      if p.count.Some? then Reading(drafts + [Draft(p.name, p.count.value, p.price)], []) else Reading(drafts, [PortionOfNothing])
    else
      var times := whole.value.factor * p.part.numerator;
      if times % p.part.denominator != 0 then Reading(drafts, [PortionNotWhole])
      else
        var exact := times / p.part.denominator;
        if exact < 2 then Reading(drafts, [PortionIsSingle])
        else if p.count.Some? && p.count.value != exact then Reading(drafts, [PortionDisagrees])
        else Reading(drafts + [Draft(p.name, exact, p.price)], [])
  }

  function SettlePortions(drafts: seq<Draft>, portions: seq<PortionDraft>): Reading<seq<Draft>>
    requires forall i :: 0 <= i < |portions| ==> portions[i].part.denominator > 0
    decreases portions
  {
    if portions == [] then Reading(drafts, [])
    else
      var one := SettlePortion(drafts, portions[0]);
      var rest := SettlePortions(one.value, portions[1..]);
      Reading(rest.value, one.problems + rest.problems)
  }

  function DraftNames(drafts: seq<Draft>): (r: seq<string>)
    ensures |r| == |drafts| && forall i :: 0 <= i < |r| ==> r[i] == Lower(drafts[i].name)
  {
    if drafts == [] then [] else [Lower(drafts[0].name)] + DraftNames(drafts[1..])
  }

  /** The base unit first, of one, and every other of two or more. */
  predicate FactorsOk(drafts: seq<Draft>) {
    drafts != [] && drafts[0].factor == 1 && forall i :: 0 < i < |drafts| ==> drafts[i].factor >= 2
  }

  predicate DraftingOk(d: Drafting) {
    && FactorsOk(d.drafts)
    && forall i :: 0 <= i < |d.portions| ==>
         d.portions[i].part.denominator > 0 && (d.portions[i].count.Some? ==> d.portions[i].count.value >= 2)
  }

  lemma {:induction false} SlotsAreOk(d: Drafting, slots: seq<Slot>)
    requires DraftingOk(d)
    ensures DraftingOk(ReadSlots(d, slots)) && ReadSlots(d, slots).drafts[0] == d.drafts[0]
    decreases slots
  {
    if slots != [] {
      SlotsAreOk(ReadSlot(d, slots[0]), slots[1..]);
    }
  }

  lemma {:induction false} PortionsAreOk(drafts: seq<Draft>, portions: seq<PortionDraft>)
    requires DraftingOk(Drafting(drafts, portions, []))
    ensures FactorsOk(SettlePortions(drafts, portions).value) && SettlePortions(drafts, portions).value[0] == drafts[0]
    decreases portions
  {
    if portions != [] {
      var one := SettlePortion(drafts, portions[0]);
      assert FactorsOk(one.value);
      PortionsAreOk(one.value, portions[1..]);
    }
  }

  /** Every unit of a row, and what is wrong with them. */
  function ReadUnits(cells: Cells): Reading<seq<Draft>> {
    var base := Draft(BaseName(cells), 1, None);
    var d := ReadSlots(Drafting([base], [], []), cells.slots);
    SlotsAreOk(Drafting([base], [], []), cells.slots);
    var settled := SettlePortions(d.drafts, d.portions);
    var names := if Distinct(DraftNames(settled.value)) then [] else [UnitsRepeat];
    var long := if exists i :: 0 <= i < |settled.value| && |settled.value[i].name| > UNIT_LIMIT then [TooLong] else [];
    Reading(settled.value, d.problems + settled.problems + names + long)
  }

  /** What stock is counted in: a piece, unless the row says. */
  function BaseName(cells: Cells): string {
    if cells.countedIn == "" then "piece" else cells.countedIn
  }

  function PriceOf(d: Draft, basePrice: Option<int>): Option<int> {
    if d.factor == 1 then basePrice else d.price
  }

  predicate AnyPriced(drafts: seq<Draft>, basePrice: Option<int>) {
    exists i :: 0 <= i < |drafts| && PriceOf(drafts[i], basePrice).Some?
  }

  function UnitOf(d: Draft, basePrice: Option<int>, priced: bool, units: nat, wholesale: bool): Unit {
    Unit(d.name, d.factor, d.price,
         if priced then PriceOf(d, basePrice).Some? else DefaultIsSellable(d.factor, units, wholesale), false)
  }

  function UnitsOf(drafts: seq<Draft>, basePrice: Option<int>, priced: bool, units: nat, wholesale: bool): (r: seq<Unit>)
    ensures |r| == |drafts|
    ensures forall i :: 0 <= i < |r| ==> r[i] == UnitOf(drafts[i], basePrice, priced, units, wholesale)
  {
    if drafts == [] then []
    else [UnitOf(drafts[0], basePrice, priced, units, wholesale)] + UnitsOf(drafts[1..], basePrice, priced, units, wholesale)
  }

  /** A priced unit is sold; with no price anywhere the shop's defaults decide; and one sold unit is picked first. */
  function SettleUnits(drafts: seq<Draft>, basePrice: Option<int>, wholesale: bool): Result<seq<Unit>, Crash> {
    var units := UnitsOf(drafts, basePrice, AnyPriced(drafts, basePrice), |drafts|, wholesale);
    var chosen := Choose(units, None, wholesale);
    if chosen.Err? then Err(NothingToSell)
    else Ok(units[chosen.value := units[chosen.value].(isDefault := true)])
  }

  // -- Categories and barcodes ------------------------------------------------

  /** The last category of this name, live or deleted. */
  function FindCategory(categories: seq<Category>, key: string, deleted: bool): Option<Id>
    decreases |categories|
  {
    if categories == [] then None
    else
      var last := categories[|categories| - 1];
      if Lower(last.name) == key && last.deleted == deleted then Some(last.id)
      else FindCategory(categories[..|categories| - 1], key, deleted)
  }

  /** A live category, else a deleted one brought back, else a new one. */
  function ReadCategory(ctx: Context, name: string): Reading<Choice> {
    var key := Lower(name);
    if name == "" then Reading(NoCategory, [])
    else if |name| > CATEGORY_LIMIT then Reading(NoCategory, [TooLong])
    else if FindCategory(ctx.categories, key, false).Some? then Reading(Live(FindCategory(ctx.categories, key, false).value), [])
    else if FindCategory(ctx.categories, key, true).Some? then Reading(Revived(FindCategory(ctx.categories, key, true).value), [])
    else Reading(Fresh(key), [])
  }

  /** A category is made or brought back as its row is read, whether or not the row goes in. */
  function WithCategory(s: State, c: Choice): State {
    match c
    case Fresh(name) => s.(made := s.made + {name})
    case Revived(id) => s.(revived := s.revived + {id})
    case _ => s
  }

  /** `readBarcode`: valid, nobody's in the shop, and nobody's earlier in the file. */
  function ReadBarcode(s: State, ctx: Context, raw: string): Reading<Option<string>> {
    if raw == "" then Reading(None, [])
    else if RoundedCode(raw) then Reading(None, [BadBarcode])
    else
      var code := Barcode.Resolve(raw);
      if code.None? then Reading(None, [BadBarcode])
      else if code.value in ctx.existingBarcodes || code.value in s.barcodes then Reading(None, [BarcodeTaken])
      else Reading(code, [])
  }

  function WithBarcode(s: State, code: Option<string>, line: int): State {
    if code.None? then s else s.(barcodes := s.barcodes[code.value := line])
  }

  // -- Rows -------------------------------------------------------------------

  function FindGroup(groups: seq<Group>, key: string): (r: Option<nat>)
    ensures r.Some? ==> r.value < |groups| && groups[r.value].key == key
    ensures r.None? ==> forall i :: 0 <= i < |groups| ==> groups[i].key != key
  {
    if groups == [] then None
    else if groups[0].key == key then Some(0)
    else
      var r := FindGroup(groups[1..], key);
      assert forall i :: 0 < i < |groups| ==> groups[i] == groups[1..][i - 1];
      if r.Some? then Some(r.value + 1) else None
  }

  function WithRow(s: State, line: int, problems: seq<Problem>, group: Option<nat>): State {
    s.(rows := s.rows + [Row(line, if problems == [] then Add else Wrong, problems, group)])
  }

  /** The option cells of a first row, when either is filled in. */
  function FirstOption(cells: Cells): Option<Result<ReadOption, OptionProblem>> {
    if cells.option == "" && cells.optionType == "" then None
    else Some(ReadOptionCells(cells.optionType, cells.option, None))
  }

  function OptionProblems(option: Option<Result<ReadOption, OptionProblem>>): seq<Problem> {
    if option.Some? && option.value.Err? then [BadOption(option.value.error)] else []
  }

  /** Everything wrong with a product's first row. */
  function FirstProblems(s: State, ctx: Context, cells: Cells): seq<Problem> {
    var drafts := ReadUnits(cells);
    (if |cells.name| > NAME_LIMIT || |cells.size| > SIZE_LIMIT then [TooLong] else [])
    + ReadPrice(cells.price).problems + drafts.problems
    + OptionProblems(FirstOption(cells))
    + ReadCategory(ctx, cells.category).problems
    + ReadBarcode(s, ctx, cells.barcode).problems
    + (if !ctx.hasPriceList && exists i :: 0 <= i < |drafts.value| && drafts.value[i].price.Some? then [NoPriceList] else [])
  }

  function AttributesOf(option: Option<Result<ReadOption, OptionProblem>>): seq<string> {
    if option.Some? && option.value.Ok? then option.value.value.attributes else []
  }

  predicate HasOption(option: Option<Result<ReadOption, OptionProblem>>) {
    option.Some? && option.value.Ok?
  }

  /** The product a sound first row makes. With options, the row is the first of them and has the barcode. */
  function ProductOf(s: State, ctx: Context, cells: Cells, units: seq<Unit>): Product {
    var option, barcode := FirstOption(cells), ReadBarcode(s, ctx, cells.barcode).value;
    Product(cells.name, cells.size, FirstFree(GenerateSku(cells.name), s.skus, s.skus, 1), ReadPrice(cells.price).value,
            ReadCategory(ctx, cells.category).value, units,
            if HasOption(option) then None else barcode,
            AttributesOf(option),
            if HasOption(option) then [Variant(option.value.value.values, VariantKey(option.value.value.values), [], barcode)] else [])
  }

  /** The first row of a product. */
  function FirstRow(s: State, ctx: Context, cells: Cells, line: int, key: string): Result<State, Crash> {
    var option, problems := FirstOption(cells), FirstProblems(s, ctx, cells);
    var read := WithBarcode(WithCategory(s, ReadCategory(ctx, cells.category).value), ReadBarcode(s, ctx, cells.barcode).value, line);
    var group := Group(key, HasOption(option), AttributesOf(option), BaseName(cells), cells.category, None);
    if problems != [] then
      Ok(WithRow(read.(groups := s.groups + [group]), line, problems, Some(|s.groups|)))
    else
      var units :- SettleUnits(ReadUnits(cells).value, ReadPrice(cells.price).value, ctx.wholesale);
      var product := ProductOf(s, ctx, cells, units);
      Ok(WithRow(read.(groups := s.groups + [group.(product := Some(product))], skus := s.skus + {product.sku}),
                 line, [], Some(|s.groups|)))
  }

  function UnitNamed(units: seq<Unit>, name: string): Option<Unit> {
    if units == [] then None
    else if Lower(units[0].name) == Lower(name) then Some(units[0])
    else UnitNamed(units[1..], name)
  }

  /** An option's own price: one that differs from the product's, of a unit the till sells. */
  function ReadOwnPrice(raw: string, unit: Unit, basePrice: Option<int>): Reading<seq<OwnPrice>> {
    var price := ReadPrice(raw);
    if price.value.None? || price.value == (if unit.factor == 1 then basePrice else unit.price) then Reading([], price.problems)
    else if !unit.isSellable then Reading([], price.problems + [PriceOfUnsold])
    else Reading([OwnPrice(unit.name, price.value.value)], price.problems)
  }

  /** One unit column of a later row: it may repeat the first row's or be blank, and give its own price. */
  function ReadOptionSlot(slot: Slot, p: Product): Reading<seq<OwnPrice>> {
    if slot.name == "" then Reading([], if slot.count != "" || slot.price != "" then [SlotWithoutName] else [])
    else
      var unit := UnitNamed(p.units, slot.name);
      if unit.None? then Reading([], [UnitsDiffer])
      else
        var count := PlainCount(slot.count);
        var own := ReadOwnPrice(slot.price, unit.value, p.basePrice);
        Reading(own.value, (if count != "" && count != Decimal(unit.value.factor) then [UnitsDiffer] else []) + own.problems)
  }

  function ReadOptionSlots(slots: seq<Slot>, p: Product): Reading<seq<OwnPrice>> {
    if slots == [] then Reading([], [])
    else
      var one, rest := ReadOptionSlot(slots[0], p), ReadOptionSlots(slots[1..], p);
      Reading(one.value + rest.value, one.problems + rest.problems)
  }

  predicate HasKey(variants: seq<Variant>, key: string) {
    exists i :: 0 <= i < |variants| && variants[i].key == key
  }

  function NewOptionProblems(option: Result<ReadOption, OptionProblem>, p: Product): seq<Problem> {
    if option.Err? then [BadOption(option.error)]
    else if HasKey(p.variants, VariantKey(option.value.values)) then [OptionRepeats]
    else if |p.variants| >= MAX_OPTIONS then [TooManyOptions]
    else []
  }

  /** A later row of a product with options. */
  function PlanOption(s: State, ctx: Context, g: nat, cells: Cells, line: int): Result<State, Crash>
    requires g < |s.groups|
  {
    var group := s.groups[g];
    if group.product.None? then Ok(WithRow(s, line, [FirstRowInError], Some(g)))
    else
      var p := group.product.value;
      var base := UnitNamed(p.units, group.baseName);
      if base.None? then Err(NoBaseUnit)
      else
        var option := ReadOptionCells(cells.optionType, cells.option, Some(group.attributes));
        var own, slots := ReadOwnPrice(cells.price, base.value, p.basePrice), ReadOptionSlots(cells.slots, p);
        var barcode := ReadBarcode(s, ctx, cells.barcode);
        var problems := NewOptionProblems(option, p)
          + (if cells.category != "" && Lower(cells.category) != Lower(group.categoryName) then [CategoryDiffers] else [])
          + (if cells.countedIn != "" && Lower(cells.countedIn) != Lower(group.baseName) then [UnitsDiffer] else [])
          + own.problems + slots.problems + barcode.problems;
        var read := WithBarcode(s, barcode.value, line);
        if problems != [] then Ok(WithRow(read, line, problems, Some(g)))
        else
          var values := option.value.values;
          var variant := Variant(values, VariantKey(values), own.value + slots.value, barcode.value);
          Ok(WithRow(read.(groups := s.groups[g := group.(product := Some(p.(variants := p.variants + [variant])))]),
                     line, [], Some(g)))
  }

  /** One row of the file. */
  function PlanRow(s: State, ctx: Context, inp: Input, index: nat): Result<State, Crash> {
    var cells := TrimAll(inp.cells);
    var line := if inp.line.Some? then inp.line.value else index + 2;
    var key := ProductKey(cells.name, cells.size);
    if IsBlank(cells) then Ok(s)
    else if cells.name == "" then Ok(WithRow(s, line, [NoName], None))
    else if key in ctx.existingProducts then Ok(s.(rows := s.rows + [Row(line, Skip, [], None)]))
    else
      var g := FindGroup(s.groups, key);
      if g.None? then FirstRow(s, ctx, cells, line, key)
      else if s.groups[g.value].option && cells.option != "" then PlanOption(s, ctx, g.value, cells, line)
      else Ok(WithRow(s, line, [SameProductAgain], g))
  }

  function PlanRows(s: State, ctx: Context, inputs: seq<Input>, index: nat): Result<State, Crash>
    decreases inputs
  {
    if inputs == [] then Ok(s)
    else
      var s1 :- PlanRow(s, ctx, inputs[0], index);
      PlanRows(s1, ctx, inputs[1..], index + 1)
  }

  /** A row of this product is in error. */
  predicate Failed(rows: seq<Row>, g: nat) {
    exists i :: 0 <= i < |rows| && rows[i].group == Some(g) && rows[i].status == Wrong
  }

  function FinishRow(row: Row, rows: seq<Row>): Row {
    if row.status == Add && row.group.Some? && Failed(rows, row.group.value) then row.(status := Wrong) else row
  }

  /** A product goes in whole or not at all. */
  function Finish(left: seq<Row>, rows: seq<Row>): (r: seq<Row>)
    ensures |r| == |left| && forall i :: 0 <= i < |r| ==> r[i] == FinishRow(left[i], rows)
  {
    if left == [] then [] else [FinishRow(left[0], rows)] + Finish(left[1..], rows)
  }

  function Start(ctx: Context): State {
    State([], [], map[], ctx.existingSkus, {}, {})
  }

  /** `planImport`. */
  function Plan(ctx: Context, inputs: seq<Input>): Result<State, Crash> {
    var s :- PlanRows(Start(ctx), ctx, inputs, 0);
    Ok(s.(rows := Finish(s.rows, s.rows)))
  }
}
