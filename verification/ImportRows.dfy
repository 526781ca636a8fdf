/**
 * What the report says of each row of the file
 * (src/modules/catalog/product-import.ts:375-422, 668-682).
 */
module ImportRows {
  import opened Common
  import opened ImportText
  import opened ProductImport
  import opened ImportTheorems
  import opened ImportProducts

  /** The rows that are not blank, in order. */
  function Filled(inputs: seq<Input>, n: nat): (r: seq<nat>)
    requires n <= |inputs|
    ensures forall k :: 0 <= k < |r| ==> r[k] < n
  {
    if n == 0 then []
    else Filled(inputs, n - 1) + (if IsBlank(TrimAll(inputs[n - 1].cells)) then [] else [n - 1])
  }

  /** An earlier row has the same name and size. */
  ghost predicate IsLater(ctx: Context, inputs: seq<Input>, i: nat, key: string) {
    exists j :: 0 <= j < i < |inputs| && RowOf(ctx, inputs[j], key)
  }

  /** The first row of this name and size names no option. */
  ghost predicate NoOptions(ctx: Context, inputs: seq<Input>, key: string) {
    exists j: nat :: FirstOf(ctx, inputs, j, key) && !NamesOption(TrimAll(inputs[j].cells))
  }

  /**
   * A row is reported under its line. With no name it is wrong; of a product the
   * shop has it is skipped; any other is a row of its own product's, and wrong when
   * it repeats the product without naming an option, or one that has none.
   */
  ghost predicate Judged(ctx: Context, inputs: seq<Input>, groups: seq<Group>, i: nat, row: Row)
    requires i < |inputs|
  {
    var cells := TrimAll(inputs[i].cells);
    var key := ProductKey(cells.name, cells.size);
    && row.line == (if inputs[i].line.Some? then inputs[i].line.value else i + 2)
    && (cells.name == "" ==> row.status == Wrong && row.group == None)
    && (cells.name != "" && key in ctx.existingProducts ==> row.status == Skip && row.group == None)
    && (cells.name != "" && key !in ctx.existingProducts ==>
          && row.status != Skip
          && row.group.Some? && row.group.value < |groups| && groups[row.group.value].key == key
          && (IsLater(ctx, inputs, i, key) && (cells.option == "" || NoOptions(ctx, inputs, key)) ==> row.status == Wrong))
  }

  ghost predicate OptionNamed(ctx: Context, inputs: seq<Input>, n: nat, g: Group) {
    exists j: nat :: j < n <= |inputs| && FirstOf(ctx, inputs, j, g.key) && (g.option ==> NamesOption(TrimAll(inputs[j].cells)))
  }

  ghost predicate AllJudged(s: State, ctx: Context, inputs: seq<Input>, n: nat) {
    && n <= |inputs|
    && |s.rows| == |Filled(inputs, n)|
    && (forall k :: 0 <= k < |s.rows| ==> Judged(ctx, inputs, s.groups, Filled(inputs, n)[k], s.rows[k]))
    && (forall g :: 0 <= g < |s.groups| ==> OptionNamed(ctx, inputs, n, s.groups[g]))
    && (forall j, key :: 0 <= j < n && RowOf(ctx, inputs[j], key) ==> HasGroup(s.groups, key))
  }

  // -- One row ----------------------------------------------------------------

  /** The groups there were stay where they were, under the same keys. */
  predicate KeysKept(groups: seq<Group>, after: seq<Group>) {
    |groups| <= |after| && forall g :: 0 <= g < |groups| ==> after[g].key == groups[g].key && after[g].option == groups[g].option
  }

  lemma {:induction false} JudgedStill(ctx: Context, inputs: seq<Input>, groups: seq<Group>, after: seq<Group>, i: nat, row: Row)
    requires i < |inputs| && Judged(ctx, inputs, groups, i, row) && KeysKept(groups, after)
    ensures Judged(ctx, inputs, after, i, row)
  {
    hide IsLater, NoOptions, TrimAll, ProductKey;
  }

  lemma {:induction false} HasGroupStill(groups: seq<Group>, after: seq<Group>, key: string)
    requires HasGroup(groups, key) && KeysKept(groups, after)
    ensures HasGroup(after, key)
  {
    var g :| 0 <= g < |groups| && groups[g].key == key;
    assert after[g].key == key;
  }

  /** One row more is judged, of groups there were and perhaps one of its own. */
  lemma {:induction false} OneMoreJudged(s: State, s1: State, ctx: Context, inputs: seq<Input>, n: nat)
    requires AllJudged(s, ctx, inputs, n) && n < |inputs| && KeysKept(s.groups, s1.groups)
    requires if IsBlank(TrimAll(inputs[n].cells)) then s1.rows == s.rows
             else |s1.rows| == |s.rows| + 1 && s1.rows[..|s.rows|] == s.rows && Judged(ctx, inputs, s1.groups, n, s1.rows[|s.rows|])
    requires forall g :: |s.groups| <= g < |s1.groups| ==> OptionNamed(ctx, inputs, n + 1, s1.groups[g])
    requires forall key :: RowOf(ctx, inputs[n], key) ==> HasGroup(s1.groups, key)
    ensures AllJudged(s1, ctx, inputs, n + 1)
  {
    hide Judged, IsBlank, TrimAll, RowOf, HasGroup;
    forall k | 0 <= k < |s1.rows|
      ensures Judged(ctx, inputs, s1.groups, Filled(inputs, n + 1)[k], s1.rows[k])
    {
      if k < |s.rows| {
        assert s1.rows[k] == s1.rows[..|s.rows|][k];
        JudgedStill(ctx, inputs, s.groups, s1.groups, Filled(inputs, n)[k], s.rows[k]);
      }
    }
    forall g | 0 <= g < |s1.groups|
      ensures OptionNamed(ctx, inputs, n + 1, s1.groups[g])
    {
      if g < |s.groups| {
        assert OptionNamed(ctx, inputs, n, s.groups[g]);
      }
    }
    forall j, key | 0 <= j < n + 1 && RowOf(ctx, inputs[j], key)
      ensures HasGroup(s1.groups, key)
    {
      if j < n {
        HasGroupStill(s.groups, s1.groups, key);
      }
    }
  }

  lemma {:induction false} FirstRowShape(s: State, ctx: Context, cells: Cells, line: int, key: string) returns (g: Group, row: Row)
    requires FirstRow(s, ctx, cells, line, key).Ok?
    ensures var s1 := FirstRow(s, ctx, cells, line, key).value;
      && s1.groups == s.groups + [g] && s1.rows == s.rows + [row] && row.group == Some(|s.groups|) && row.line == line && row.status != Skip
      && g.key == key && (g.option ==> NamesOption(cells))
  {
    hide FirstProblems, ReadBarcode, ReadCategory, ReadOptionCells, SettleUnits, ReadUnits, FirstFree, VariantKey, GenerateSku;
    var s1 := FirstRow(s, ctx, cells, line, key).value;
    g, row := s1.groups[|s.groups|], s1.rows[|s.rows|];
  }

  lemma {:induction false} OptionRowShape(s: State, ctx: Context, g: nat, cells: Cells, line: int) returns (row: Row)
    requires g < |s.groups| && PlanOption(s, ctx, g, cells, line).Ok?
    ensures var s1 := PlanOption(s, ctx, g, cells, line).value;
      && KeysKept(s.groups, s1.groups) && |s1.groups| == |s.groups| && s1.rows == s.rows + [row]
      && row.group == Some(g) && row.line == line && row.status != Skip
  {
    hide ReadBarcode, ReadOptionCells, ReadOwnPrice, ReadOptionSlots, NewOptionProblems, VariantKey, UnitNamed;
    row := PlanOption(s, ctx, g, cells, line).value.rows[|s.rows|];
  }

  lemma {:induction false} FirstIsFirst(s: State, ctx: Context, inputs: seq<Input>, n: nat, key: string)
    requires AllJudged(s, ctx, inputs, n) && n < |inputs| && !HasGroup(s.groups, key) && RowOf(ctx, inputs[n], key)
    ensures FirstOf(ctx, inputs, n, key) && !IsLater(ctx, inputs, n, key)
  {
    hide Judged, RowOf, HasGroup;
  }

  lemma {:induction false} OneFirst(ctx: Context, inputs: seq<Input>, i: nat, j: nat, key: string)
    requires FirstOf(ctx, inputs, i, key) && FirstOf(ctx, inputs, j, key)
    ensures i == j
  {
    hide RowOf;
    assert RowOf(ctx, inputs[i], key) && RowOf(ctx, inputs[j], key);
  }

  lemma {:induction false} NotNoOptions(ctx: Context, inputs: seq<Input>, n: nat, g: Group)
    requires OptionNamed(ctx, inputs, n, g) && g.option
    ensures !NoOptions(ctx, inputs, g.key)
  {
    hide RowOf, TrimAll;
    var j: nat :| j < n <= |inputs| && FirstOf(ctx, inputs, j, g.key) && NamesOption(TrimAll(inputs[j].cells));
    forall i: nat | FirstOf(ctx, inputs, i, g.key)
      ensures i == j
    {
      OneFirst(ctx, inputs, i, j, g.key);
    }
  }

  lemma {:induction false} RowJudged(s: State, ctx: Context, inputs: seq<Input>, n: nat)
    requires AllJudged(s, ctx, inputs, n) && n < |inputs| && PlanRow(s, ctx, inputs[n], n).Ok?
    ensures AllJudged(PlanRow(s, ctx, inputs[n], n).value, ctx, inputs, n + 1)
  {
    hide AllJudged, FirstRow, PlanOption, TrimAll, ProductKey, HasGroup, IsLater, NoOptions;
    var cells := TrimAll(inputs[n].cells);
    var line := if inputs[n].line.Some? then inputs[n].line.value else n + 2;
    var key := ProductKey(cells.name, cells.size);
    var s1 := PlanRow(s, ctx, inputs[n], n).value;
    var g := FindGroup(s.groups, key);
    if !IsBlank(cells) && cells.name != "" && key !in ctx.existingProducts {
      if g.None? {
        NoGroup(s.groups, key);
        FirstIsFirst(s, ctx, inputs, n, key);
        var made, row := FirstRowShape(s, ctx, cells, line, key);
        GroupThere(s1.groups, |s.groups|, key);
      } else {
        GroupThere(s.groups, g.value, key);
        if s.groups[g.value].option && cells.option != "" {
          var row := OptionRowShape(s, ctx, g.value, cells, line);
          GroupNamed(s, ctx, inputs, n, g.value);
          NotNoOptions(ctx, inputs, n, s.groups[g.value]);
          GroupThere(s1.groups, g.value, key);
        }
      }
    }
    OneMoreJudged(s, s1, ctx, inputs, n);
  }

  lemma {:induction false} GroupNamed(s: State, ctx: Context, inputs: seq<Input>, n: nat, g: nat)
    requires AllJudged(s, ctx, inputs, n) && g < |s.groups|
    ensures OptionNamed(ctx, inputs, n, s.groups[g])
  {
  }

  lemma {:induction false} RowsJudged(s: State, ctx: Context, inputs: seq<Input>, n: nat)
    requires PlanOk(s, ctx) && AllJudged(s, ctx, inputs, n) && PlanRows(s, ctx, inputs[n..], n).Ok?
    ensures AllJudged(PlanRows(s, ctx, inputs[n..], n).value, ctx, inputs, |inputs|)
    decreases |inputs| - n
  {
    hide PlanOk, AllJudged, PlanRow;
    Within(s, ctx, inputs, n);
    if n < |inputs| {
      RowOk(s, ctx, inputs[n], n);
      RowJudged(s, ctx, inputs, n);
      assert inputs[n..][1..] == inputs[n + 1..];
      RowsJudged(PlanRow(s, ctx, inputs[n], n).value, ctx, inputs, n + 1);
    }
  }

  lemma {:induction false} Within(s: State, ctx: Context, inputs: seq<Input>, n: nat)
    requires AllJudged(s, ctx, inputs, n)
    ensures n <= |inputs|
  {
  }

  lemma {:induction false} NothingJudged(ctx: Context, inputs: seq<Input>)
    ensures AllJudged(Start(ctx), ctx, inputs, 0)
  {
  }

  /** The last pass only turns rows wrong. */
  lemma {:induction false} JudgedAtTheEnd(ctx: Context, inputs: seq<Input>, groups: seq<Group>, i: nat, row: Row, rows: seq<Row>)
    requires i < |inputs| && Judged(ctx, inputs, groups, i, row)
    ensures Judged(ctx, inputs, groups, i, FinishRow(row, rows))
  {
    hide IsLater, NoOptions, TrimAll, ProductKey, Failed;
  }

  /** The report has a row for each row of the file that is not blank, in order, judged as above. */
  lemma {:induction false} EveryRowIsJudged(ctx: Context, inputs: seq<Input>)
    requires Plan(ctx, inputs).Ok?
    ensures var plan, filled := Plan(ctx, inputs).value, Filled(inputs, |inputs|);
      && |plan.rows| == |filled|
      && forall k :: 0 <= k < |filled| ==> Judged(ctx, inputs, plan.groups, filled[k], plan.rows[k])
  {
    hide PlanOk, PlanRows, Judged, Filled, FinishRow;
    StartIsOk(ctx);
    NothingJudged(ctx, inputs);
    assert inputs[0..] == inputs;
    RowsAreOk(Start(ctx), ctx, inputs, 0);
    RowsJudged(Start(ctx), ctx, inputs, 0);
    var s := PlanRows(Start(ctx), ctx, inputs, 0).value;
    var plan, filled := Plan(ctx, inputs).value, Filled(inputs, |inputs|);
    forall k | 0 <= k < |filled|
      ensures Judged(ctx, inputs, plan.groups, filled[k], plan.rows[k])
    {
      JudgedAtTheEnd(ctx, inputs, s.groups, filled[k], s.rows[k], s.rows);
    }
  }
}
