/**
 * The categories an import makes or brings back, and whether anything it adds is
 * in them (src/modules/catalog/product-import.ts:227-245, 533-555, 668-695,
 * src/modules/catalog/product-import.service.ts:40-53).
 */
module ImportCategories {
  import opened Common
  import opened ImportText
  import opened SellingUnits
  import opened ProductImport
  import opened ImportTheorems

  // -- What a name in a cell means --------------------------------------------

  predicate InShop(categories: seq<Category>, key: string, deleted: bool) {
    exists i :: 0 <= i < |categories| && Lower(categories[i].name) == key && categories[i].deleted == deleted
  }

  lemma {:induction false} FoundExactly(categories: seq<Category>, key: string, deleted: bool)
    ensures FindCategory(categories, key, deleted).Some? <==> InShop(categories, key, deleted)
    decreases |categories|
  {
    if categories != [] {
      var n := |categories| - 1;
      FoundExactly(categories[..n], key, deleted);
      assert forall i :: 0 <= i < n ==> categories[..n][i] == categories[i];
    }
  }

  // -- What the plan so far keeps ---------------------------------------------

  /** This product's first row means this category. */
  predicate Means(ctx: Context, g: Group, c: Choice) {
    ReadCategory(ctx, g.categoryName).value == c
  }

  predicate SomeMeans(ctx: Context, groups: seq<Group>, c: Choice) {
    exists g :: 0 <= g < |groups| && Means(ctx, groups[g], c)
  }

  predicate HasRow(rows: seq<Row>, g: nat) {
    exists i :: 0 <= i < |rows| && rows[i].group == Some(g)
  }

  /** Categories are those the first rows mean; a product is in the one its first row means; no product is without a row. */
  ghost predicate NamesOk(s: State, ctx: Context) {
    && (forall key :: key in s.made <==> SomeMeans(ctx, s.groups, Fresh(key)))
    && (forall id :: id in s.revived <==> SomeMeans(ctx, s.groups, Revived(id)))
    && (forall g :: 0 <= g < |s.groups| && s.groups[g].product.Some? ==> Means(ctx, s.groups[g], s.groups[g].product.value.category))
    && (forall g: nat :: g < |s.groups| ==> HasRow(s.rows, g))
  }

  lemma {:induction false} RowsOnlyGrow(rows: seq<Row>, row: Row, g: nat)
    ensures HasRow(rows, g) || row.group == Some(g) ==> HasRow(rows + [row], g)
  {
    var after := rows + [row];
    if HasRow(rows, g) {
      var i :| 0 <= i < |rows| && rows[i].group == Some(g);
      assert after[i] == rows[i];
    }
    assert after[|rows|] == row;
  }

  /** A row of no new product. */
  lemma {:induction false} OneMoreRow(s: State, s1: State, ctx: Context, row: Row)
    requires NamesOk(s, ctx) && s1.made == s.made && s1.revived == s.revived && s1.groups == s.groups && s1.rows == s.rows + [row]
    ensures NamesOk(s1, ctx)
  {
    hide SomeMeans, Means, HasRow;
    forall g: nat | g < |s1.groups|
      ensures HasRow(s1.rows, g)
    {
      RowsOnlyGrow(s.rows, row, g);
    }
  }

  lemma {:induction false} MeansAppend(ctx: Context, groups: seq<Group>, g: Group, c: Choice)
    ensures SomeMeans(ctx, groups + [g], c) <==> SomeMeans(ctx, groups, c) || Means(ctx, g, c)
  {
    hide Means;
    var after := groups + [g];
    if SomeMeans(ctx, groups, c) {
      var i :| 0 <= i < |groups| && Means(ctx, groups[i], c);
      assert Means(ctx, after[i], c);
    }
    if Means(ctx, g, c) {
      assert Means(ctx, after[|groups|], c);
    }
  }

  lemma {:induction false} MeansUpdate(ctx: Context, groups: seq<Group>, i: nat, g: Group, c: Choice)
    requires i < |groups| && g.categoryName == groups[i].categoryName
    ensures SomeMeans(ctx, groups[i := g], c) <==> SomeMeans(ctx, groups, c)
  {
    var after := groups[i := g];
    assert forall k :: 0 <= k < |groups| ==> (Means(ctx, after[k], c) <==> Means(ctx, groups[k], c));
  }

  /** What a first row adds, sound or not. */
  lemma {:induction false} FirstRowAdds(s: State, ctx: Context, cells: Cells, line: int, key: string) returns (g: Group, row: Row)
    requires FirstRow(s, ctx, cells, line, key).Ok?
    ensures var s1 := FirstRow(s, ctx, cells, line, key).value;
      && s1.groups == s.groups + [g] && s1.rows == s.rows + [row] && row.group == Some(|s.groups|)
      && g.categoryName == cells.category && (g.product.Some? ==> Means(ctx, g, g.product.value.category))
      && var read := WithCategory(s, ReadCategory(ctx, cells.category).value);
         s1.made == read.made && s1.revived == read.revived
  {
    hide FirstProblems, ReadBarcode, ReadCategory, ReadOptionCells, SettleUnits, ReadUnits, FirstFree, VariantKey, GenerateSku;
    var s1 := FirstRow(s, ctx, cells, line, key).value;
    g, row := s1.groups[|s.groups|], s1.rows[|s.rows|];
  }

  lemma {:induction false} FirstRowNames(s: State, ctx: Context, cells: Cells, line: int, key: string)
    requires NamesOk(s, ctx)
    requires FirstRow(s, ctx, cells, line, key).Ok?
    ensures NamesOk(FirstRow(s, ctx, cells, line, key).value, ctx)
  {
    hide FirstRow, ReadCategory, SomeMeans, HasRow;
    var s1 := FirstRow(s, ctx, cells, line, key).value;
    var g, row := FirstRowAdds(s, ctx, cells, line, key);
    forall c
      ensures SomeMeans(ctx, s1.groups, c) <==> SomeMeans(ctx, s.groups, c) || Means(ctx, g, c)
    {
      MeansAppend(ctx, s.groups, g, c);
    }
    forall k: nat | k < |s1.groups|
      ensures HasRow(s1.rows, k)
    {
      RowsOnlyGrow(s.rows, row, k);
    }
  }

  lemma {:induction false} OptionNames(s: State, ctx: Context, g: nat, cells: Cells, line: int)
    requires NamesOk(s, ctx) && g < |s.groups| && PlanOption(s, ctx, g, cells, line).Ok?
    ensures NamesOk(PlanOption(s, ctx, g, cells, line).value, ctx)
  {
    hide ReadBarcode, ReadCategory, ReadOptionCells, ReadOwnPrice, ReadOptionSlots, NewOptionProblems, SomeMeans, HasRow, VariantKey, UnitNamed;
    var s1 := PlanOption(s, ctx, g, cells, line).value;
    var row := s1.rows[|s.rows|];
    assert s1.rows == s.rows + [row];
    if s1.groups == s.groups {
      OneMoreRow(s, s1, ctx, row);
    } else {
      assert s1.groups == s.groups[g := s1.groups[g]];
      forall c
        ensures SomeMeans(ctx, s1.groups, c) <==> SomeMeans(ctx, s.groups, c)
      {
        MeansUpdate(ctx, s.groups, g, s1.groups[g], c);
      }
      forall k: nat | k < |s1.groups|
        ensures HasRow(s1.rows, k)
      {
        RowsOnlyGrow(s.rows, row, k);
      }
    }
  }

  lemma {:induction false} RowNames(s: State, ctx: Context, inp: Input, index: nat)
    requires NamesOk(s, ctx) && PlanRow(s, ctx, inp, index).Ok?
    ensures NamesOk(PlanRow(s, ctx, inp, index).value, ctx)
  {
    hide NamesOk, FirstRow, PlanOption, TrimAll, IsBlank, ProductKey;
    var cells := TrimAll(inp.cells);
    var line := if inp.line.Some? then inp.line.value else index + 2;
    var key := ProductKey(cells.name, cells.size);
    var s1 := PlanRow(s, ctx, inp, index).value;
    var g := FindGroup(s.groups, key);
    if IsBlank(cells) {
    } else if cells.name == "" || key in ctx.existingProducts {
      OneMoreRow(s, s1, ctx, s1.rows[|s.rows|]);
    } else if g.None? {
      FirstRowNames(s, ctx, cells, line, key);
    } else if s.groups[g.value].option && cells.option != "" {
      OptionNames(s, ctx, g.value, cells, line);
    } else {
      OneMoreRow(s, s1, ctx, s1.rows[|s.rows|]);
    }
  }

  lemma {:induction false} RowsName(s: State, ctx: Context, inputs: seq<Input>, index: nat)
    requires NamesOk(s, ctx) && PlanRows(s, ctx, inputs, index).Ok?
    ensures NamesOk(PlanRows(s, ctx, inputs, index).value, ctx)
    decreases inputs
  {
    hide NamesOk, PlanRow;
    if inputs != [] {
      RowNames(s, ctx, inputs[0], index);
      RowsName(PlanRow(s, ctx, inputs[0], index).value, ctx, inputs[1..], index + 1);
    }
  }

  lemma {:induction false} NothingNamed(ctx: Context)
    ensures NamesOk(Start(ctx), ctx)
  {
  }

  // -- The theorems -----------------------------------------------------------

  /** Before the last pass, and after it, a product has a row in error or has none. */
  lemma {:induction false} FinishedFails(rows: seq<Row>, g: nat)
    ensures Failed(Finish(rows, rows), g) <==> Failed(rows, g)
  {
    var after := Finish(rows, rows);
    if Failed(rows, g) {
      var i :| 0 <= i < |rows| && rows[i].group == Some(g) && rows[i].status == Wrong;
      assert after[i] == FinishRow(rows[i], rows);
    }
    if Failed(after, g) {
      var i :| 0 <= i < |after| && after[i].group == Some(g) && after[i].status == Wrong;
      assert after[i] == FinishRow(rows[i], rows);
    }
  }

  /** A product's first row names this category, and the shop has none of the name. */
  predicate NamesNew(ctx: Context, g: Group, key: string) {
    && g.categoryName != "" && |g.categoryName| <= CATEGORY_LIMIT && Lower(g.categoryName) == key
    && !InShop(ctx.categories, key, false) && !InShop(ctx.categories, key, true)
  }

  /** A product's first row names a category the shop has deleted, the last deleted of that name, and has no live one of. */
  predicate NamesDeleted(ctx: Context, g: Group, id: Id) {
    && g.categoryName != "" && |g.categoryName| <= CATEGORY_LIMIT && !InShop(ctx.categories, Lower(g.categoryName), false)
    && FindCategory(ctx.categories, Lower(g.categoryName), true) == Some(id)
  }

  lemma {:induction false} NewExactly(ctx: Context, g: Group, key: string)
    ensures Means(ctx, g, Fresh(key)) <==> NamesNew(ctx, g, key)
  {
    FoundExactly(ctx.categories, Lower(g.categoryName), false);
    FoundExactly(ctx.categories, Lower(g.categoryName), true);
  }

  lemma {:induction false} DeletedExactly(ctx: Context, g: Group, id: Id)
    ensures Means(ctx, g, Revived(id)) <==> NamesDeleted(ctx, g, id)
  {
    FoundExactly(ctx.categories, Lower(g.categoryName), false);
  }

  /** A category is made, or brought back, exactly when some product's first row names it and the shop has none of the name, or has deleted it. */
  lemma {:induction false} MadeExactly(ctx: Context, inputs: seq<Input>)
    requires Plan(ctx, inputs).Ok?
    ensures var plan := Plan(ctx, inputs).value;
      && (forall key :: key in plan.made <==> exists g :: 0 <= g < |plan.groups| && NamesNew(ctx, plan.groups[g], key))
      && (forall id :: id in plan.revived <==> exists g :: 0 <= g < |plan.groups| && NamesDeleted(ctx, plan.groups[g], id))
  {
    hide Plan, Means, NamesNew, NamesDeleted, InShop, RowsOk;
    var s := BeforeFinish(ctx, inputs);
    var plan := Plan(ctx, inputs).value;
    forall g, key | 0 <= g < |plan.groups|
      ensures NamesNew(ctx, plan.groups[g], key) <==> Means(ctx, plan.groups[g], Fresh(key))
    {
      NewExactly(ctx, plan.groups[g], key);
    }
    forall g, id | 0 <= g < |plan.groups|
      ensures NamesDeleted(ctx, plan.groups[g], id) <==> Means(ctx, plan.groups[g], Revived(id))
    {
      DeletedExactly(ctx, plan.groups[g], id);
    }
  }

  /** Some row adds a product of this category. */
  predicate Used(plan: State, c: Choice) {
    exists i :: 0 <= i < |plan.rows| && Adds(plan, plan.rows[i], c)
  }

  predicate Adds(plan: State, row: Row, c: Choice) {
    && row.status == Add && row.group.Some? && row.group.value < |plan.groups|
    && plan.groups[row.group.value].product.Some? && plan.groups[row.group.value].product.value.category == c
  }

  /** Some product whose first row means this category has no row in error. */
  predicate SoundlyMeant(plan: State, ctx: Context, c: Choice) {
    exists g: nat :: g < |plan.groups| && Means(ctx, plan.groups[g], c) && !Failed(plan.rows, g)
  }

  lemma {:induction false} AddedIsSound(s: State, i: nat)
    requires i < |s.rows| && Finish(s.rows, s.rows)[i].status == Add && s.rows[i].group.Some?
    ensures !Failed(Finish(s.rows, s.rows), s.rows[i].group.value)
  {
    hide Failed;
    FinishedFails(s.rows, s.rows[i].group.value);
  }

  lemma {:induction false} SoundIsAdded(s: State, g: nat) returns (i: nat)
    requires RowsOk(s) && g < |s.groups| && HasRow(s.rows, g) && !Failed(s.rows, g)
    ensures s.groups[g].product.Some?
    ensures i < |s.rows| && Finish(s.rows, s.rows)[i].group == Some(g) && Finish(s.rows, s.rows)[i].status == Add
  {
    i :| 0 <= i < |s.rows| && s.rows[i].group == Some(g);
    assert s.rows[i].status != Wrong;
  }

  /** The plan before its last pass. */
  lemma {:induction false} BeforeFinish(ctx: Context, inputs: seq<Input>) returns (s: State)
    requires Plan(ctx, inputs).Ok?
    ensures Plan(ctx, inputs).value == s.(rows := Finish(s.rows, s.rows))
    ensures RowsOk(s) && NamesOk(s, ctx)
  {
    hide PlanRows, GroupsOk, SkusOk, CodesOk, RowsOk, NamesOk;
    StartIsOk(ctx);
    RowsAreOk(Start(ctx), ctx, inputs, 0);
    NothingNamed(ctx);
    RowsName(Start(ctx), ctx, inputs, 0);
    s := PlanRows(Start(ctx), ctx, inputs, 0).value;
  }

  /**
   * The exact condition: a category is on a product the plan adds, when and only
   * when some product whose first row means it has no row in error, neither the
   * first nor any later option.
   */
  lemma {:induction false} UsedExactly(ctx: Context, inputs: seq<Input>, c: Choice)
    requires Plan(ctx, inputs).Ok?
    ensures Used(Plan(ctx, inputs).value, c) <==> SoundlyMeant(Plan(ctx, inputs).value, ctx, c)
  {
    hide Plan, Failed, HasRow, ReadCategory, SomeMeans, RowsOk;
    var s := BeforeFinish(ctx, inputs);
    var plan := Plan(ctx, inputs).value;
    if Used(plan, c) {
      var i :| 0 <= i < |plan.rows| && Adds(plan, plan.rows[i], c);
      AddedIsSound(s, i);
    }
    if SoundlyMeant(plan, ctx, c) {
      var g: nat :| g < |plan.groups| && Means(ctx, plan.groups[g], c) && !Failed(plan.rows, g);
      FinishedFails(s.rows, g);
      var i := SoundIsAdded(s, g);
      assert Adds(plan, plan.rows[i], c);
    }
  }

  /** What a save goes by: it is refused while any row is in error. */
  predicate MaySave(plan: State) {
    forall i :: 0 <= i < |plan.rows| ==> plan.rows[i].status != Wrong
  }

  /** Every category a plan makes or brings back is one that something it adds is in. */
  ghost predicate NoneUnused(plan: State) {
    && (forall key :: key in plan.made ==> Used(plan, Fresh(key)))
    && (forall id :: id in plan.revived ==> Used(plan, Revived(id)))
  }

  /** Exactly when no category is made or brought back for nothing. */
  lemma {:induction false} NoneUnusedExactly(ctx: Context, inputs: seq<Input>)
    requires Plan(ctx, inputs).Ok?
    ensures var plan := Plan(ctx, inputs).value;
      NoneUnused(plan) <==>
        && (forall key :: key in plan.made ==> SoundlyMeant(plan, ctx, Fresh(key)))
        && (forall id :: id in plan.revived ==> SoundlyMeant(plan, ctx, Revived(id)))
  {
    hide Plan, Used, SoundlyMeant;
    forall c
      ensures Used(Plan(ctx, inputs).value, c) <==> SoundlyMeant(Plan(ctx, inputs).value, ctx, c)
    {
      UsedExactly(ctx, inputs, c);
    }
  }

  /** So a plan that is saved, which has no row in error, leaves no category with nothing in it. */
  lemma {:induction false} SavedMakesNoneUnused(ctx: Context, inputs: seq<Input>)
    requires Plan(ctx, inputs).Ok? && MaySave(Plan(ctx, inputs).value)
    ensures NoneUnused(Plan(ctx, inputs).value)
  {
    hide Plan, Means, Used, RowsOk;
    var plan := Plan(ctx, inputs).value;
    var s := BeforeFinish(ctx, inputs);
    forall c | SomeMeans(ctx, plan.groups, c)
      ensures Used(plan, c)
    {
      var g: nat :| g < |plan.groups| && Means(ctx, plan.groups[g], c);
      assert !Failed(plan.rows, g);
      UsedExactly(ctx, inputs, c);
    }
  }

  // -- The preview ------------------------------------------------------------

  const EMPTY_SHOP := Context({}, {}, {}, [], true, false)

  /** A product "a" of category "c" with a unit column that has a count and no name. */
  const UNNAMED_UNIT := Input(None, Cells("a", "", "c", "", "", [Slot("", "2", "")], "", "", ""))

  /** A product "a" of category "c" and option "x": sound, and twice in one file an option repeated. */
  const ONE_OPTION := Input(None, Cells("a", "", "c", "", "", [], "", "", "x"))

  lemma {:induction false} OneLetter(c: char)
    requires !IsSpace(c)
    ensures Trim([c]) == [c] && Trim("") == ""
  {
  }

  lemma {:induction false} CellsAreTrimmed()
    ensures TrimAll(UNNAMED_UNIT.cells) == UNNAMED_UNIT.cells && TrimAll(ONE_OPTION.cells) == ONE_OPTION.cells
  {
    hide Trim;
    OneLetter('a');
    OneLetter('c');
    OneLetter('x');
    OneLetter('2');
    var slot := Slot("", "2", "");
    assert [slot][1..] == [];
    assert TrimSlots([slot]) == [slot];
  }

  lemma {:induction false} UnitIsUnnamed(s: State)
    ensures FirstProblems(s, EMPTY_SHOP, UNNAMED_UNIT.cells) != []
  {
    hide ReadBarcode, ReadCategory, ReadOptionCells, ReadPrice, SettlePortions;
    var slots := UNNAMED_UNIT.cells.slots;
    var base := Drafting([Draft(BaseName(UNNAMED_UNIT.cells), 1, None)], [], []);
    var d := ReadSlot(base, slots[0]);
    assert d.problems == [SlotWithoutName];
    assert ReadSlots(base, slots) == ReadSlots(d, slots[1..]) == d;
    assert ReadUnits(UNNAMED_UNIT.cells).problems[0] == SlotWithoutName;
  }

  lemma {:induction false} MeansC()
    ensures ReadCategory(EMPTY_SHOP, "c") == Reading(Fresh("c"), [])
  {
    assert Lower("c") == "c";
  }

  /** A preview of a first row in error lists its new category, though the row adds nothing. */
  lemma {:induction false} AFailedRowStillMakesItsCategory()
    ensures var plan := Plan(EMPTY_SHOP, [UNNAMED_UNIT]);
      plan.Ok? && plan.value.made == {"c"} && !MaySave(plan.value) && !Used(plan.value, Fresh("c"))
  {
    hide FirstProblems, ReadBarcode, ReadCategory, ReadOptionCells, SettleUnits, ReadUnits, ProductOf, TrimAll, ProductKey;
    CellsAreTrimmed();
    MeansC();
    var s := Start(EMPTY_SHOP);
    UnitIsUnnamed(s);
    var cells := UNNAMED_UNIT.cells;
    var key := ProductKey(cells.name, cells.size);
    var s1 := FirstRow(s, EMPTY_SHOP, cells, 2, key).value;
    assert PlanRow(s, EMPTY_SHOP, UNNAMED_UNIT, 0) == Ok(s1);
    assert [UNNAMED_UNIT][1..] == [];
    assert PlanRows(s, EMPTY_SHOP, [UNNAMED_UNIT], 0) == Ok(s1);
    assert s1.rows[0].status == Wrong;
  }

  lemma {:induction false} OptionIsRead()
    ensures ReadOptionCells("", "x", None) == Ok(ReadOption(["Option"], ["x"]))
    ensures ReadOptionCells("", "x", Some(["Option"])) == Ok(ReadOption(["Option"], ["x"]))
  {
    assert "x"[1..] == "";
    assert Split("x") == [['x'] + ""];
    assert Clean("x") == "x";
    assert CleanAll(["x"]) == ["x"] by {
      assert ["x"][1..] == [];
    }
  }

  lemma {:induction false} NothingIsWrong(s: State)
    ensures FirstProblems(s, EMPTY_SHOP, ONE_OPTION.cells) == []
    ensures FirstOption(ONE_OPTION.cells) == Some(Ok(ReadOption(["Option"], ["x"])))
  {
    hide ReadOptionCells, ReadCategory;
    OptionIsRead();
    MeansC();
    var cells := ONE_OPTION.cells;
    var base := Draft(BaseName(cells), 1, None);
    assert ReadSlots(Drafting([base], [], []), []) == Drafting([base], [], []);
    assert SettlePortions([base], []) == Reading([base], []);
    assert ReadUnits(cells) == Reading([base], []);
    assert ReadPrice(cells.price) == Reading(None, []);
    assert OptionProblems(FirstOption(cells)) == [];
  }

  /** The second row of that file finds the first one's option. */
  lemma {:induction false} OptionRepeated(s: State, key: string)
    requires s == Start(EMPTY_SHOP)
    ensures var s1 := FirstRow(s, EMPTY_SHOP, ONE_OPTION.cells, 2, key);
      && s1.Ok? && |s1.value.groups| == 1 && s1.value.groups[0].key == key && s1.value.groups[0].option
      && s1.value.made == {"c"} && s1.value.rows == [Row(2, Add, [], Some(0))]
      && var s2 := PlanOption(s1.value, EMPTY_SHOP, 0, ONE_OPTION.cells, 3);
         && s2.Ok? && s2.value.made == {"c"} && |s2.value.groups| == 1
         && exists why :: why != [] && s2.value.rows == s1.value.rows + [Row(3, Wrong, why, Some(0))]
  {
    hide FirstProblems, ReadCategory, ReadOptionCells, SettleUnits, ReadUnits, GenerateSku, FirstFree, VariantKey, PlanOk,
         ReadOwnPrice, ReadOptionSlots;
    var cells := ONE_OPTION.cells;
    StartIsOk(EMPTY_SHOP);
    OptionIsRead();
    NothingIsWrong(s);
    MeansC();
    FirstRowOk(s, EMPTY_SHOP, cells, 2, key);
    var s1 := FirstRow(s, EMPTY_SHOP, cells, 2, key).value;
    PlanOptionOk(s1, EMPTY_SHOP, 0, cells, 3);
    var p := s1.groups[0].product.value;
    assert p.variants[0].key == VariantKey(["x"]);
    assert NewOptionProblems(ReadOptionCells("", "x", Some(["Option"])), p) == [OptionRepeats];
  }

  /** So does a sound first row, when a later option of its product is in error. */
  lemma {:induction false} AFailedOptionStillMakesItsCategory()
    ensures var plan := Plan(EMPTY_SHOP, [ONE_OPTION, ONE_OPTION]);
      plan.Ok? && plan.value.made == {"c"} && !MaySave(plan.value) && !Used(plan.value, Fresh("c"))
  {
    hide FirstRow, PlanOption, TrimAll, ProductKey;
    CellsAreTrimmed();
    var s, cells := Start(EMPTY_SHOP), ONE_OPTION.cells;
    var key := ProductKey(cells.name, cells.size);
    OptionRepeated(s, key);
    var s1 := FirstRow(s, EMPTY_SHOP, cells, 2, key).value;
    var s2 := PlanOption(s1, EMPTY_SHOP, 0, cells, 3).value;
    var file := [ONE_OPTION, ONE_OPTION];
    assert PlanRow(s, EMPTY_SHOP, ONE_OPTION, 0) == Ok(s1);
    assert PlanRow(s1, EMPTY_SHOP, ONE_OPTION, 1) == Ok(s2);
    assert file[1..] == [ONE_OPTION] && [ONE_OPTION][1..] == [];
    assert PlanRows(s1, EMPTY_SHOP, [ONE_OPTION], 1) == Ok(s2);
    assert PlanRows(s, EMPTY_SHOP, file, 0) == Ok(s2);
    assert Failed(s2.rows, 0) by {
      assert s2.rows[1].status == Wrong;
    }
    var plan := Plan(EMPTY_SHOP, file).value;
    assert plan.rows[0] == FinishRow(s2.rows[0], s2.rows) && plan.rows[1] == FinishRow(s2.rows[1], s2.rows);
  }
}
