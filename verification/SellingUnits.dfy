/**
 * Which of a product's units the till sells, and which it picks first
 * (src/modules/catalog/selling-units.ts:32-88).
 */
module SellingUnits {
  import opened Common

  datatype Unit = Unit(name: string, factor: nat, price: Option<int>, isSellable: bool, isDefault: bool)

  datatype Refusal = NothingSold | RequestedNotSold

  /** `defaultIsSellable`. */
  predicate DefaultIsSellable(factor: nat, units: nat, wholesale: bool) {
    units <= 1 || factor != 1 || !wholesale
  }

  function Sellable(units: seq<Unit>, from: nat): (r: seq<nat>)
    requires from <= |units|
    ensures forall k :: 0 <= k < |r| ==> from <= r[k] < |units| && units[r[k]].isSellable
    ensures forall i :: from <= i < |units| && units[i].isSellable ==> i in r
    decreases |units| - from
  {
    if from == |units| then []
    else (if units[from].isSellable then [from] else []) + Sellable(units, from + 1)
  }

  function Named(units: seq<Unit>, name: string, from: nat): (r: Option<nat>)
    requires from <= |units|
    ensures r.Some? ==> r.value < |units| && units[r.value].name == name
    decreases |units| - from
  {
    if from == |units| then None
    else if units[from].name == name then Some(from)
    else Named(units, name, from + 1)
  }

  function CurrentDefault(units: seq<Unit>, sellable: seq<nat>): (r: Option<nat>)
    requires forall k :: 0 <= k < |sellable| ==> sellable[k] < |units|
    ensures r.Some? ==> r.value in sellable && units[r.value].isDefault
    ensures r.None? ==> forall k :: 0 <= k < |sellable| ==> !units[sellable[k]].isDefault
  {
    if sellable == [] then None
    else if units[sellable[0]].isDefault then Some(sellable[0])
    else
      var r := CurrentDefault(units, sellable[1..]);
      assert forall x :: x in sellable[1..] ==> x in sellable;
      assert forall k :: 0 < k < |sellable| ==> sellable[k] == sellable[1..][k - 1];
      r
  }

  /** The first of the smallest, or the last of the largest: the ends of a stable sort by factor. */
  function Extreme(units: seq<Unit>, sellable: seq<nat>, largest: bool): (r: nat)
    requires sellable != [] && forall k :: 0 <= k < |sellable| ==> sellable[k] < |units|
    ensures r in sellable
    ensures forall k :: 0 <= k < |sellable| ==>
      if largest then units[sellable[k]].factor <= units[r].factor else units[r].factor <= units[sellable[k]].factor
  {
    if |sellable| == 1 then sellable[0]
    else
      var r := Extreme(units, sellable[1..], largest);
      assert forall x :: x in sellable[1..] ==> x in sellable;
      assert forall k :: 0 < k < |sellable| ==> sellable[k] == sellable[1..][k - 1];
      if largest then
        if units[sellable[0]].factor > units[r].factor then sellable[0] else r
      else
        if units[sellable[0]].factor <= units[r].factor then sellable[0] else r
  }

  /** `chooseDefaultSellingUnit`. */
  function Choose(units: seq<Unit>, requested: Option<string>, wholesale: bool): (r: Result<nat, Refusal>)
    ensures r.Ok? ==> r.value < |units|
  {
    var sellable := Sellable(units, 0);
    if sellable == [] then Err(NothingSold)
    else
      var asked := if requested.Some? then Named(units, requested.value, 0) else None;
      if asked.Some? && !units[asked.value].isSellable then Err(RequestedNotSold)
      else if asked.Some? then Ok(asked.value)
      else
        var current := CurrentDefault(units, sellable);
        if current.Some? then Ok(current.value) else Ok(Extreme(units, sellable, wholesale))
  }

  lemma {:induction false} SomeSellable(units: seq<Unit>)
    ensures Sellable(units, 0) != [] <==> exists i :: 0 <= i < |units| && units[i].isSellable
  {
    var sellable := Sellable(units, 0);
    if exists i :: 0 <= i < |units| && units[i].isSellable {
      var i :| 0 <= i < |units| && units[i].isSellable;
      assert i in sellable;
    }
    if sellable != [] {
      assert units[sellable[0]].isSellable;
    }
  }

  /**
   * A unit is chosen exactly when something is sold and what was asked for, if it
   * is one of the units, is sold; and what is chosen is sold.
   */
  lemma {:induction false} ChosenIsSold(units: seq<Unit>, requested: Option<string>, wholesale: bool)
    ensures Choose(units, requested, wholesale).Ok? <==>
      && (exists i :: 0 <= i < |units| && units[i].isSellable)
      && (requested.Some? && Named(units, requested.value, 0).Some? ==> units[Named(units, requested.value, 0).value].isSellable)
    ensures Choose(units, requested, wholesale).Ok? ==> units[Choose(units, requested, wholesale).value].isSellable
  {
    SomeSellable(units);
    var sellable := Sellable(units, 0);
    forall i | i in sellable
      ensures units[i].isSellable
    {
      var k :| 0 <= k < |sellable| && sellable[k] == i;
    }
  }

  /** Unasked, and with no sold default standing, a wholesaler's is the largest sold unit and anyone else's the smallest. */
  lemma {:induction false} FreshChoiceIsExtreme(units: seq<Unit>, wholesale: bool, i: nat)
    requires forall k :: 0 <= k < |units| && units[k].isSellable ==> !units[k].isDefault
    requires i < |units| && units[i].isSellable
    ensures Choose(units, None, wholesale).Ok?
    ensures var chosen := units[Choose(units, None, wholesale).value].factor;
      if wholesale then units[i].factor <= chosen else chosen <= units[i].factor
  {
    var sellable := Sellable(units, 0);
    assert i in sellable;
    var k :| 0 <= k < |sellable| && sellable[k] == i;
    assert CurrentDefault(units, sellable).None?;
  }
}
