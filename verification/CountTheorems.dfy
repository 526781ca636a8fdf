/**
 * The whole count: it is never refused for shortage, it settles every counted
 * item at its count, and it leaves the rest alone
 * (src/modules/inventory/stocktake.service.ts:254-300).
 */
module CountTheorems {
  import opened Common
  import opened Ledger
  import opened Stock
  import opened Stocktake
  import opened StocktakeTheorems

  // -- Why no pick comes up short ---------------------------------------------

  function OnHandOf(b: Books, c: Sheet, line: Line): int {
    OnHand(b, line.product, line.option, c.location)
  }

  predicate SameItem(x: Line, y: Line) {
    x.product == y.product && x.option == y.option
  }

  /** One variance per item. */
  predicate DistinctItems(vs: seq<Variance>) {
    forall i, j :: 0 <= i < j < |vs| ==> !SameItem(vs[i].line, vs[j].line)
  }

  /** No item is short by more than is there: counts are never negative. */
  predicate Coverable(b: Books, c: Sheet, vs: seq<Variance>) {
    forall i :: 0 <= i < |vs| ==> -vs[i].variance <= OnHandOf(b, c, vs[i].line)
  }

  predicate AllCountable(b: Books, vs: seq<Variance>) {
    forall i :: 0 <= i < |vs| ==> Countable(b, vs[i].line)
  }

  lemma {:induction false} OneShortOk(b: Books, c: Sheet, v: Variance, moving: int)
    requires Sound(b) && 0 <= moving <= -v.variance <= OnHandOf(b, c, v.line) && Countable(b, v.line)
    ensures OneShort(b, c, v, moving).Ok?
  {
    hide Outbound, Sound, VariantAllowed;
    var rest := -v.variance - moving;
    if moving > 0 {
      WithinOnHandIsNeverShort(b, OutFor(c, v.line, moving, TransferOut), 0);
      OutFacts(b, c, v.line, moving, TransferOut);
      var moved := Outbound(b, OutFor(c, v.line, moving, TransferOut), 0).value;
      WroteGives(b, moved.books);
      ChangedAt(b, moved.books, c, [Variance(v.line, -moving)], v.line);
      if rest > 0 {
        WithinOnHandIsNeverShort(moved.books, OutFor(c, v.line, rest, Adjustment), 0);
      }
    } else if rest > 0 {
      WithinOnHandIsNeverShort(b, OutFor(c, v.line, rest, Adjustment), 0);
    }
  }

  lemma {:induction false} ChangedAt(b0: Books, b1: Books, c: Sheet, vs: seq<Variance>, line: Line)
    requires Changed(b0, b1, c, vs)
    ensures OnHandOf(b1, c, line) == OnHandOf(b0, c, line) + Change(vs, c, line.product, line.option, c.location)
  {
  }

  lemma {:induction false} StepChanged(b0: Books, b1: Books, c: Sheet, vs: seq<Variance>, f0: seq<Freed>, f1: seq<Freed>)
    requires Step(b0, b1, c, vs, f0, f1)
    ensures Changed(b0, b1, c, vs) && b1.options == b0.options
  {
  }

  /** A step about one item leaves the others coverable. */
  lemma {:induction false} StillCoverable(b0: Books, b1: Books, c: Sheet, v: Variance, vs: seq<Variance>)
    requires Changed(b0, b1, c, [v]) && b1.options == b0.options
    requires Coverable(b0, c, vs) && AllCountable(b0, vs)
    requires forall i :: 0 <= i < |vs| ==> !SameItem(v.line, vs[i].line)
    ensures Coverable(b1, c, vs) && AllCountable(b1, vs)
  {
    forall i | 0 <= i < |vs|
      ensures -vs[i].variance <= OnHandOf(b1, c, vs[i].line) && Countable(b1, vs[i].line)
    {
      ChangedAt(b0, b1, c, [v], vs[i].line);
      assert -vs[i].variance <= OnHandOf(b0, c, vs[i].line) && Countable(b0, vs[i].line);
    }
  }

  lemma {:induction false} ShortsOk(b: Books, c: Sheet, shorts: seq<Variance>, toMove: int, freed: seq<Freed>)
    requires Sound(b) && AllShort(shorts) && toMove >= 0 && Queue(freed, b.lots)
    requires DistinctItems(shorts) && Coverable(b, c, shorts) && AllCountable(b, shorts)
    ensures Shorts(b, c, shorts, toMove, freed).Ok?
    decreases shorts
  {
    hide Step, OneShort, Sound, Countable, Changed, Queue;
    if shorts != [] {
      var moving := Min(toMove, -shorts[0].variance);
      OneShortOk(b, c, shorts[0], moving);
      var s := OneShort(b, c, shorts[0], moving).value;
      OneShortStep(b, c, shorts[0], moving, freed);
      StepGives(b, s.books, c, [shorts[0]], freed, freed + s.freed);
      StepChanged(b, s.books, c, [shorts[0]], freed, freed + s.freed);
      StillCoverable(b, s.books, c, shorts[0], shorts[1..]);
      ShortsOk(s.books, c, shorts[1..], toMove - moving, freed + s.freed);
    }
  }

  // -- Why a surplus always has a lot -----------------------------------------

  predicate HoldsHere(row: Row, product: Id, location: Id) {
    row.key.product == product && row.key.location == location && row.quantity > 0
  }

  predicate SomethingHere(rows: seq<Row>, product: Id, location: Id) {
    exists i :: 0 <= i < |rows| && HoldsHere(rows[i], product, location)
  }

  lemma {:induction false} NewestHereFinds(lots: map<Id, Lot>, rows: seq<Row>, product: Id, location: Id)
    ensures SomethingHere(rows, product, location) <==> NewestHere(lots, rows, product, location).Some?
    ensures var r := NewestHere(lots, rows, product, location);
      r.Some? ==> exists i :: 0 <= i < |rows| && HoldsHere(rows[i], product, location) && rows[i].key.lot == r.value
  {
    if rows != [] {
      NewestHereFinds(lots, rows[1..], product, location);
      assert SomethingHere(rows, product, location)
        <==> HoldsHere(rows[0], product, location) || SomethingHere(rows[1..], product, location) by {
        if SomethingHere(rows, product, location) && !HoldsHere(rows[0], product, location) {
          var i :| 0 <= i < |rows| && HoldsHere(rows[i], product, location);
          assert HoldsHere(rows[1..][i - 1], product, location);
        }
        if SomethingHere(rows[1..], product, location) {
          var i :| 0 <= i < |rows[1..]| && HoldsHere(rows[1..][i], product, location);
          assert HoldsHere(rows[i + 1], product, location);
        }
      }
      var r := NewestHere(lots, rows, product, location);
      if r.Some? && !(HoldsHere(rows[0], product, location) && rows[0].key.lot == r.value) {
        var i :| 0 <= i < |rows[1..]| && HoldsHere(rows[1..][i], product, location) && rows[1..][i].key.lot == r.value;
        assert HoldsHere(rows[i + 1], product, location) && rows[i + 1].key.lot == r.value;
      }
    }
  }

  /** Either a lot can still be invented for the product, or something of it is already here. */
  predicate CanFind(b: Books, c: Sheet, product: Id) {
    product in c.found && (c.found[product] !in b.lots || SomethingHere(b.balances, product, c.location))
  }

  lemma {:induction false} SurplusFound(b: Books, c: Sheet, product: Id)
    requires Sound(b) && CanFind(b, c, product)
    ensures SurplusLot(b, c, product).Ok?
    ensures SurplusLot(b, c, product).value.lot in SurplusLot(b, c, product).value.lots
  {
    NewestHereFinds(b.lots, b.balances, product, c.location);
    var here := NewestHere(b.lots, b.balances, product, c.location);
    if here.Some? {
      var i :| 0 <= i < |b.balances| && HoldsHere(b.balances[i], product, c.location) && b.balances[i].key.lot == here.value;
      assert HasRow(b.balances, b.balances[i].key);
      RowsOnLots(b, b.balances[i].key);
    }
  }

  lemma {:induction false} InboundOkHere(b: Books, c: Sheet, line: Line, lot: Id, quantity: int, kind: Kind)
    requires quantity > 0 && lot in b.lots && Countable(b, line) && kind in {TransferIn, Adjustment}
    ensures Inbound(b, InKey(c, line, lot), quantity, kind, Some(Count(c.id))).Ok?
  {
  }

  /** Stock that is here stays here while more comes in, and what comes in to a new balance is here too. */
  lemma {:induction false} InboundKeepsSomething(b: Books, key: Key, quantity: int, kind: Kind, reference: Option<Cause>)
    requires Inbound(b, key, quantity, kind, reference).Ok?
    ensures var b1 := Inbound(b, key, quantity, kind, reference).value;
      && (forall p, l :: SomethingHere(b.balances, p, l) ==> SomethingHere(b1.balances, p, l))
      && (!HasRow(b.balances, key) ==> SomethingHere(b1.balances, key.product, key.location))
  {
    var b1 := Inbound(b, key, quantity, kind, reference).value;
    forall p, l | SomethingHere(b.balances, p, l)
      ensures SomethingHere(b1.balances, p, l)
    {
      var i :| 0 <= i < |b.balances| && HoldsHere(b.balances[i], p, l);
      assert HoldsHere(b1.balances[i], p, l);
    }
    if !HasRow(b.balances, key) {
      assert HoldsHere(b1.balances[|b.balances|], key.product, key.location);
    }
  }

  lemma {:induction false} FillOk(b: Books, c: Sheet, line: Line, wanted: int, freed: seq<Freed>)
    requires Sound(b) && Queue(freed, b.lots) && wanted >= 0 && Countable(b, line)
    ensures Fill(b, c, line, wanted, freed).Ok?
    ensures CanFind(b, c, line.product) ==> CanFind(Fill(b, c, line, wanted, freed).value.books, c, line.product)
    ensures Fill(b, c, line, wanted, freed).value.books.options == b.options
    decreases |freed|, wanted
  {
    hide Inbound, Sound, Step, VariantAllowed, SomethingHere;
    if wanted > 0 && freed != [] {
      var taking := Min(wanted, freed[0].quantity);
      var key := InKey(c, line, freed[0].lot);
      InboundOkHere(b, c, line, freed[0].lot, taking, TransferIn);
      var b1 := Inbound(b, key, taking, TransferIn, Some(Count(c.id))).value;
      FillingStep(b, c, line, taking, freed);
      StepGives(b, b1, c, [Variance(line, taking)], freed, AfterTaking(freed, taking));
      StepChanged(b, b1, c, [Variance(line, taking)], freed, AfterTaking(freed, taking));
      InboundKeepsSomething(b, key, taking, TransferIn, Some(Count(c.id)));
      FillOk(b1, c, line, wanted - taking, AfterTaking(freed, taking));
    }
  }

  lemma {:induction false} NoRowOnNewLot(b: Books, key: Key)
    requires Sound(b) && key.lot !in b.lots
    ensures !HasRow(b.balances, key)
  {
    if HasRow(b.balances, key) {
      RowsOnLots(b, key);
      assert false;
    }
  }

  lemma {:induction false} OneOverOk(b: Books, c: Sheet, v: Variance, freed: seq<Freed>)
    requires Sound(b) && Queue(freed, b.lots) && v.variance > 0
    requires Countable(b, v.line) && CanFind(b, c, v.line.product)
    ensures OneOver(b, c, v, freed).Ok?
    ensures CanFind(OneOver(b, c, v, freed).value.books, c, v.line.product)
    ensures OneOver(b, c, v, freed).value.books.options == b.options
  {
    hide Inbound, Sound, Step, VariantAllowed, SomethingHere, SurplusLot;
    FillOk(b, c, v.line, v.variance, freed);
    var f := Fill(b, c, v.line, v.variance, freed).value;
    if f.wanted > 0 {
      FillStep(b, c, v.line, v.variance, freed);
      StepGives(b, f.books, c, [Variance(v.line, v.variance - f.wanted)], freed, f.freed);
      WriteOnOk(f.books, c, v.line, f.wanted);
    }
  }

  lemma {:induction false} WriteOnOk(b: Books, c: Sheet, line: Line, wanted: int)
    requires Sound(b) && wanted > 0 && Countable(b, line) && CanFind(b, c, line.product)
    ensures SurplusLot(b, c, line.product).Ok?
    ensures var s := SurplusLot(b, c, line.product).value;
      var r := Inbound(b.(lots := s.lots), InKey(c, line, s.lot), wanted, Adjustment, Some(Count(c.id)));
      r.Ok? && CanFind(r.value, c, line.product) && r.value.options == b.options
  {
    hide Sound, SomethingHere;
    SurplusFound(b, c, line.product);
    NewestHereFinds(b.lots, b.balances, line.product, c.location);
    var s := SurplusLot(b, c, line.product).value;
    var more := b.(lots := s.lots);
    var key := InKey(c, line, s.lot);
    InboundOkHere(more, c, line, s.lot, wanted, Adjustment);
    InboundKeepsSomething(more, key, wanted, Adjustment, Some(Count(c.id)));
    if s.lot !in b.lots {
      NoRowOnNewLot(b, key);
    }
  }

  lemma {:induction false} OversOk(b: Books, c: Sheet, overs: seq<Variance>, freed: seq<Freed>, product: Id)
    requires Sound(b) && AllOver(overs) && Queue(freed, b.lots) && OneProduct(overs, product)
    requires AllCountable(b, overs) && CanFind(b, c, product)
    ensures Overs(b, c, overs, freed).Ok?
    decreases overs
  {
    hide Step, OneOver, Sound, Countable, CanFind;
    if overs != [] {
      CountableIsAboutOptions(b, overs);
      OneOverOk(b, c, overs[0], freed);
      var s := OneOver(b, c, overs[0], freed).value;
      OneOverStep(b, c, overs[0], freed);
      StepGives(b, s.books, c, [overs[0]], freed, s.freed);
      OversOk(s.books, c, overs[1..], s.freed, product);
    }
  }

  lemma {:induction false} CountableIsAboutOptions(b: Books, vs: seq<Variance>)
    requires AllCountable(b, vs)
    ensures forall b1: Books :: b1.options == b.options ==> AllCountable(b1, vs)
  {
    forall b1: Books | b1.options == b.options
      ensures AllCountable(b1, vs)
    {
      forall i | 0 <= i < |vs|
        ensures Countable(b1, vs[i].line)
      {
        assert Countable(b, vs[i].line);
      }
    }
  }

  // -- One product is never refused -------------------------------------------

  lemma {:induction false} PartsAreMembers(vs: seq<Variance>)
    ensures forall i :: 0 <= i < |ShortOf(vs)| ==> ShortOf(vs)[i] in vs
    ensures forall i :: 0 <= i < |OverOf(vs)| ==> OverOf(vs)[i] in vs
  {
    if vs != [] {
      PartsAreMembers(vs[1..]);
    }
  }

  lemma {:induction false} PartsDistinct(vs: seq<Variance>)
    requires DistinctItems(vs)
    ensures DistinctItems(ShortOf(vs)) && DistinctItems(OverOf(vs))
  {
    if vs != [] {
      PartsDistinct(vs[1..]);
      PartsAreMembers(vs[1..]);
    }
  }

  lemma {:induction false} PartsReady(b: Books, c: Sheet, vs: seq<Variance>)
    requires DistinctItems(vs) && Coverable(b, c, vs) && AllCountable(b, vs)
    ensures DistinctItems(ShortOf(vs)) && Coverable(b, c, ShortOf(vs))
    ensures AllCountable(b, ShortOf(vs)) && AllCountable(b, OverOf(vs))
  {
    PartsDistinct(vs);
    PartsAreMembers(vs);
  }

  /** A product's corrections are never refused: not for shortage, and not for want of a lot. */
  lemma {:induction false} PostProductOk(b: Books, c: Sheet, vs: seq<Variance>, product: Id)
    requires Sound(b) && OneProduct(vs, product)
    requires DistinctItems(vs) && Coverable(b, c, vs) && AllCountable(b, vs)
    requires product in c.found && c.found[product] !in b.lots
    ensures PostProduct(b, c, vs).Ok?
  {
    hide Step, Sound, Overs, Shorts, Countable, Coverable, DistinctItems, AllCountable, ShortOf, OverOf,
         OneProduct, AllShort, AllOver, ToMove;
    Parts(vs, product);
    ToMoveFits(vs, product);
    PartsReady(b, c, vs);
    ShortsOk(b, c, ShortOf(vs), ToMove(vs), []);
    ShortsStep(b, c, ShortOf(vs), ToMove(vs), []);
    var s := Shorts(b, c, ShortOf(vs), ToMove(vs), []).value;
    StepGives(b, s.books, c, ShortOf(vs), [], s.freed);
    StepChanged(b, s.books, c, ShortOf(vs), [], s.freed);
    CountableIsAboutOptions(b, OverOf(vs));
    OversOk(s.books, c, OverOf(vs), s.freed, product);
  }

  // -- The groups -------------------------------------------------------------

  function Flat(groups: seq<Group>): seq<Variance> {
    if groups == [] then [] else groups[0].variances + Flat(groups[1..])
  }

  lemma {:induction false} FlatAddTo(groups: seq<Group>, v: Variance, x: Variance)
    ensures x in Flat(AddTo(groups, v)) <==> x in Flat(groups) || x == v
  {
    if groups != [] && groups[0].product != v.line.product {
      FlatAddTo(groups[1..], v, x);
    }
  }

  lemma {:induction false} FlatAddToChange(groups: seq<Group>, v: Variance, c: Sheet, p: Id, o: Option<Id>, l: Id)
    ensures Change(Flat(AddTo(groups, v)), c, p, o, l) == Change(Flat(groups), c, p, o, l) + Change([v], c, p, o, l)
  {
    if groups == [] {
      assert Flat(AddTo(groups, v)) == [v] + [];
    } else if groups[0].product == v.line.product {
      var rest := Flat(groups[1..]);
      assert ([Group(groups[0].product, groups[0].variances + [v])] + groups[1..])[1..] == groups[1..];
      ChangeConcat(groups[0].variances + [v], rest, c, p, o, l);
      ChangeConcat(groups[0].variances, [v], c, p, o, l);
      ChangeConcat(groups[0].variances, rest, c, p, o, l);
    } else {
      FlatAddToChange(groups[1..], v, c, p, o, l);
      ChangeConcat(groups[0].variances, Flat(groups[1..]), c, p, o, l);
      ChangeConcat(groups[0].variances, Flat(AddTo(groups[1..], v)), c, p, o, l);
      assert ([groups[0]] + AddTo(groups[1..], v))[1..] == AddTo(groups[1..], v);
    }
  }

  /** One group a product, and one variance an item in each. */
  predicate Grouped(groups: seq<Group>) {
    && (forall i, j :: 0 <= i < j < |groups| ==> groups[i].product != groups[j].product)
    && (forall i :: 0 <= i < |groups| ==>
          OneProduct(groups[i].variances, groups[i].product) && DistinctItems(groups[i].variances))
  }

  predicate NotIn(groups: seq<Group>, line: Line) {
    forall i :: 0 <= i < |Flat(groups)| ==> !SameItem(Flat(groups)[i].line, line)
  }

  /** One more variance of the product, of an item not yet among them. */
  lemma {:induction false} OneMoreVariance(own: seq<Variance>, v: Variance)
    requires OneProduct(own, v.line.product) && DistinctItems(own)
    requires forall i :: 0 <= i < |own| ==> !SameItem(own[i].line, v.line)
    ensures OneProduct(own + [v], v.line.product) && DistinctItems(own + [v])
  {
  }

  lemma {:induction false} AddToProducts(groups: seq<Group>, v: Variance, i: nat)
    requires i < |AddTo(groups, v)|
    ensures AddTo(groups, v)[i].product == v.line.product || HasProduct(groups, AddTo(groups, v)[i].product)
  {
    if groups != [] {
      if groups[0].product == v.line.product || i == 0 {
        assert i > 0 ==> AddTo(groups, v)[i] == groups[i];
        assert groups[0].product == AddTo(groups, v)[0].product;
      } else {
        AddToProducts(groups[1..], v, i - 1);
        if HasProduct(groups[1..], AddTo(groups, v)[i].product) {
          var j :| 0 <= j < |groups[1..]| && groups[1..][j].product == AddTo(groups, v)[i].product;
          assert groups[j + 1].product == AddTo(groups, v)[i].product;
        }
      }
    }
  }

  predicate HasProduct(groups: seq<Group>, product: Id) {
    exists j :: 0 <= j < |groups| && groups[j].product == product
  }

  lemma {:induction false} NotInParts(groups: seq<Group>, line: Line)
    requires groups != [] && NotIn(groups, line)
    ensures NotIn(groups[1..], line)
    ensures forall i :: 0 <= i < |groups[0].variances| ==> !SameItem(groups[0].variances[i].line, line)
  {
    hide SameItem;
    var own, rest := groups[0].variances, Flat(groups[1..]);
    var all := own + rest;
    assert all == Flat(groups);
    forall i | 0 <= i < |own|
      ensures !SameItem(own[i].line, line)
    {
      assert all[i] == own[i];
    }
    forall i | 0 <= i < |rest|
      ensures !SameItem(rest[i].line, line)
    {
      assert all[|own| + i] == rest[i];
    }
  }

  lemma {:induction false} AddToGrouped(groups: seq<Group>, v: Variance)
    requires Grouped(groups) && NotIn(groups, v.line)
    ensures Grouped(AddTo(groups, v))
  {
    hide NotIn, OneProduct, DistinctItems, SameItem;
    if groups == [] {
      NoVariances(v.line.product);
      OneMoreVariance([], v);
      assert [] + [v] == [v];
    } else {
      NotInParts(groups, v.line);
      if groups[0].product == v.line.product {
        OneMoreVariance(groups[0].variances, v);
      } else {
        AddToGrouped(groups[1..], v);
        var added := AddTo(groups[1..], v);
        forall i | 0 <= i < |added|
          ensures added[i].product != groups[0].product
        {
          AddToProducts(groups[1..], v, i);
        }
      }
    }
  }

  lemma {:induction false} NoVariances(product: Id)
    ensures OneProduct([], product) && DistinctItems([])
  {
  }

  predicate DistinctLines(lines: seq<Line>) {
    forall i, j :: 0 <= i < j < |lines| ==> !SameItem(lines[i], lines[j])
  }

  /** What the lines say about one item, summed. */
  function LineChange(b: Books, c: Sheet, lines: seq<Line>, p: Id, o: Option<Id>, l: Id): int
    decreases |lines|
  {
    if lines == [] then 0
    else
      var line := lines[|lines| - 1];
      LineChange(b, c, lines[..|lines| - 1], p, o, l)
      + if p == line.product && o == line.option && l == c.location then line.counted - OnHandOf(b, c, line) else 0
  }

  predicate FromLine(b: Books, c: Sheet, lines: seq<Line>, v: Variance) {
    v.line in lines && v.variance == v.line.counted - OnHandOf(b, c, v.line)
  }

  lemma {:induction false} DisagreeingFacts(b: Books, c: Sheet, lines: seq<Line>)
    requires DistinctLines(lines)
    ensures var groups := Disagreeing(b, c, lines);
      && Grouped(groups)
      && (forall v :: v in Flat(groups) ==> FromLine(b, c, lines, v))
    decreases |lines|
  {
    if lines != [] {
      var n := |lines| - 1;
      var line, before := lines[n], lines[..n];
      assert forall i :: 0 <= i < n ==> before[i] == lines[i];
      DisagreeingFacts(b, c, before);
      var groups := Disagreeing(b, c, before);
      var variance := line.counted - OnHandOf(b, c, line);
      if variance != 0 {
        var v := Variance(line, variance);
        forall i | 0 <= i < |Flat(groups)|
          ensures !SameItem(Flat(groups)[i].line, line)
        {
          assert FromLine(b, c, before, Flat(groups)[i]);
        }
        AddToGrouped(groups, v);
        forall x | x in Flat(AddTo(groups, v))
          ensures FromLine(b, c, lines, x)
        {
          FlatAddTo(groups, v, x);
        }
      }
    }
  }

  lemma {:induction false} NothingChanges(c: Sheet, p: Id, o: Option<Id>, l: Id)
    ensures Change(Flat([]), c, p, o, l) == 0
  {
  }

  lemma {:induction false} OneChange(v: Variance, c: Sheet, p: Id, o: Option<Id>, l: Id)
    ensures Change([v], c, p, o, l) == if p == v.line.product && o == v.line.option && l == c.location then v.variance else 0
  {
    assert [v][1..] == [];
  }

  lemma {:induction false} DisagreeingChange(b: Books, c: Sheet, lines: seq<Line>, p: Id, o: Option<Id>, l: Id)
    ensures Change(Flat(Disagreeing(b, c, lines)), c, p, o, l) == LineChange(b, c, lines, p, o, l)
    decreases |lines|
  {
    hide Change, Flat, AddTo, OnHand;
    if lines == [] {
      NothingChanges(c, p, o, l);
    } else {
      var n := |lines| - 1;
      var line, before := lines[n], lines[..n];
      DisagreeingChange(b, c, before, p, o, l);
      var variance := line.counted - OnHandOf(b, c, line);
      if variance != 0 {
        FlatAddToChange(Disagreeing(b, c, before), Variance(line, variance), c, p, o, l);
        OneChange(Variance(line, variance), c, p, o, l);
      }
    }
  }

  // -- The whole count --------------------------------------------------------

  /** Every group's product can have a lot invented for it, and no two the same. */
  predicate CanInvent(b: Books, c: Sheet, groups: seq<Group>) {
    && (forall i :: 0 <= i < |groups| ==> groups[i].product in c.found && c.found[groups[i].product] !in b.lots)
    && (forall i, j :: 0 <= i < j < |groups| && groups[i].product in c.found && groups[j].product in c.found ==>
          c.found[groups[i].product] != c.found[groups[j].product])
  }

  predicate Ready(b: Books, c: Sheet, groups: seq<Group>) {
    && Grouped(groups)
    && (forall i :: 0 <= i < |groups| ==> Coverable(b, c, groups[i].variances) && AllCountable(b, groups[i].variances))
    && CanInvent(b, c, groups)
  }

  lemma {:induction false} OtherProductsUnchanged(vs: seq<Variance>, product: Id, c: Sheet, p: Id, o: Option<Id>, l: Id)
    requires OneProduct(vs, product) && p != product
    ensures Change(vs, c, p, o, l) == 0
  {
    if vs != [] {
      OtherProductsUnchanged(vs[1..], product, c, p, o, l);
    }
  }

  lemma {:induction false} StillReady(b: Books, c: Sheet, groups: seq<Group>, b1: Books)
    requires groups != [] && Ready(b, c, groups)
    requires Changed(b, b1, c, groups[0].variances) && b1.options == b.options
    requires LotsWithin(b1.lots, b.lots, c, groups[0].product)
    ensures Ready(b1, c, groups[1..])
  {
    var rest := groups[1..];
    forall i | 0 <= i < |rest|
      ensures Coverable(b1, c, rest[i].variances) && AllCountable(b1, rest[i].variances)
    {
      var vs := rest[i].variances;
      assert vs == groups[i + 1].variances;
      CountableIsAboutOptions(b, vs);
      forall k | 0 <= k < |vs|
        ensures -vs[k].variance <= OnHandOf(b1, c, vs[k].line)
      {
        ChangedAt(b, b1, c, groups[0].variances, vs[k].line);
        OtherProductsUnchanged(groups[0].variances, groups[0].product, c, vs[k].line.product, vs[k].line.option, c.location);
      }
    }
  }

  lemma {:induction false} PostGroupsSettles(b: Books, c: Sheet, groups: seq<Group>)
    requires Sound(b) && Ready(b, c, groups)
    ensures PostGroups(b, c, groups).Ok?
    ensures Wrote(b, PostGroups(b, c, groups).value)
    ensures Changed(b, PostGroups(b, c, groups).value, c, Flat(groups))
    decreases groups
  {
    hide Sound, PostProduct, Changed, Coverable, AllCountable, OneProduct, Wrote;
    if groups == [] {
      NothingWrote(b, c);
    } else {
      var vs, product := groups[0].variances, groups[0].product;
      PostProductOk(b, c, vs, product);
      PostProductBalances(b, c, vs, product);
      var b1 := PostProduct(b, c, vs).value.books;
      WroteGives(b, b1);
      WroteOptions(b, b1);
      StillReady(b, c, groups, b1);
      PostGroupsSettles(b1, c, groups[1..]);
      var b2 := PostGroups(b1, c, groups[1..]).value;
      SinceThen(b, b1, b2);
      ChangedThen(b, b1, b2, c, vs, Flat(groups[1..]));
    }
  }

  lemma {:induction false} WroteOptions(b0: Books, b1: Books)
    requires Wrote(b0, b1)
    ensures b1.options == b0.options
  {
  }

  lemma {:induction false} NothingWrote(b: Books, c: Sheet)
    requires Sound(b)
    ensures Wrote(b, b) && Changed(b, b, c, [])
  {
    NothingSince(b);
  }

  /** Ids free for invented lots: one for each product counted, all different and none in use. */
  predicate FreshIds(b: Books, c: Sheet, lines: seq<Line>) {
    && (forall i :: 0 <= i < |lines| ==> lines[i].product in c.found && c.found[lines[i].product] !in b.lots)
    && (forall p, q :: p in c.found && q in c.found && p != q ==> c.found[p] != c.found[q])
  }

  lemma {:induction false} DisagreeingReady(b: Books, c: Sheet, lines: seq<Line>)
    requires DistinctLines(lines) && FreshIds(b, c, lines)
    requires forall i :: 0 <= i < |lines| ==> Countable(b, lines[i])
    ensures Ready(b, c, Disagreeing(b, c, lines))
  {
    hide Countable;
    DisagreeingFacts(b, c, lines);
    var groups := Disagreeing(b, c, lines);
    NonEmptyGroups(b, c, lines);
    forall i | 0 <= i < |groups|
      ensures groups[i].product in c.found && c.found[groups[i].product] !in b.lots
      ensures Coverable(b, c, groups[i].variances) && AllCountable(b, groups[i].variances)
    {
      var vs := groups[i].variances;
      forall k | 0 <= k < |vs|
        ensures FromLine(b, c, lines, vs[k])
      {
        MemberOfFlat(groups, i, k);
      }
      assert FromLine(b, c, lines, vs[0]);
    }
  }

  lemma {:induction false} MemberOfFlat(groups: seq<Group>, i: nat, k: nat)
    requires i < |groups| && k < |groups[i].variances|
    ensures groups[i].variances[k] in Flat(groups)
  {
    if i > 0 {
      MemberOfFlat(groups[1..], i - 1, k);
    }
  }

  lemma {:induction false} NonEmptyAddTo(groups: seq<Group>, v: Variance)
    requires forall i :: 0 <= i < |groups| ==> groups[i].variances != []
    ensures forall i :: 0 <= i < |AddTo(groups, v)| ==> AddTo(groups, v)[i].variances != []
  {
    if groups != [] && groups[0].product != v.line.product {
      NonEmptyAddTo(groups[1..], v);
    }
  }

  lemma {:induction false} NonEmptyGroups(b: Books, c: Sheet, lines: seq<Line>)
    ensures forall i :: 0 <= i < |Disagreeing(b, c, lines)| ==> Disagreeing(b, c, lines)[i].variances != []
    decreases |lines|
  {
    if lines != [] {
      var line := lines[|lines| - 1];
      NonEmptyGroups(b, c, lines[..|lines| - 1]);
      var variance := line.counted - OnHandOf(b, c, line);
      if variance != 0 {
        NonEmptyAddTo(Disagreeing(b, c, lines[..|lines| - 1]), Variance(line, variance));
      }
    }
  }

  lemma {:induction false} LineChangeAtLine(b: Books, c: Sheet, lines: seq<Line>, i: nat)
    requires DistinctLines(lines) && i < |lines|
    ensures LineChange(b, c, lines, lines[i].product, lines[i].option, c.location)
         == lines[i].counted - OnHandOf(b, c, lines[i])
    decreases |lines|
  {
    var n := |lines| - 1;
    if i < n {
      LineChangeAtLine(b, c, lines[..n], i);
      assert !SameItem(lines[i], lines[n]);
    } else {
      LineChangeElsewhere(b, c, lines[..n], lines[n].product, lines[n].option, c.location);
    }
  }

  predicate Counted(c: Sheet, lines: seq<Line>, p: Id, o: Option<Id>, l: Id) {
    l == c.location && exists i :: 0 <= i < |lines| && lines[i].product == p && lines[i].option == o
  }

  lemma {:induction false} LineChangeElsewhere(b: Books, c: Sheet, lines: seq<Line>, p: Id, o: Option<Id>, l: Id)
    requires !Counted(c, lines, p, o, l)
    ensures LineChange(b, c, lines, p, o, l) == 0
    decreases |lines|
  {
    if lines != [] {
      var n := |lines| - 1;
      assert l == c.location ==> !(lines[n].product == p && lines[n].option == o);
      LineChangeElsewhere(b, c, lines[..n], p, o, l);
    }
  }

  /**
   * Posting a count with one line an item is refused only when nothing was
   * counted or a line no longer names an option it must. Otherwise every
   * counted item is left at its count, and every item not counted, here or
   * elsewhere, is left alone.
   */
  lemma {:induction false} PostingSettlesTheCount(b: Books, c: Sheet, lines: seq<Line>)
    requires Sound(b) && DistinctLines(lines) && FreshIds(b, c, lines)
    ensures PostCount(b, c, lines).Ok? <==> lines != [] && forall i :: 0 <= i < |lines| ==> Countable(b, lines[i])
    ensures PostCount(b, c, lines).Ok? ==>
      && Wrote(b, PostCount(b, c, lines).value)
      && (forall i :: 0 <= i < |lines| ==> OnHandOf(PostCount(b, c, lines).value, c, lines[i]) == lines[i].counted)
      && (forall p: Id, o: Option<Id>, l: Id :: !Counted(c, lines, p, o, l) ==>
            OnHand(PostCount(b, c, lines).value, p, o, l) == OnHand(b, p, o, l))
  {
    hide Sound, Countable, Changed, Ready, Wrote;
    var groups := Disagreeing(b, c, lines);
    if lines != [] && forall i :: 0 <= i < |lines| ==> Countable(b, lines[i]) {
      DisagreeingReady(b, c, lines);
      PostGroupsSettles(b, c, groups);
      var b1 := PostGroups(b, c, groups).value;
      forall i | 0 <= i < |lines|
        ensures OnHandOf(b1, c, lines[i]) == lines[i].counted
      {
        ChangedAt(b, b1, c, Flat(groups), lines[i]);
        DisagreeingChange(b, c, lines, lines[i].product, lines[i].option, c.location);
        LineChangeAtLine(b, c, lines, i);
      }
      forall p: Id, o: Option<Id>, l: Id | !Counted(c, lines, p, o, l)
        ensures OnHand(b1, p, o, l) == OnHand(b, p, o, l)
      {
        ChangedAtAny(b, b1, c, Flat(groups), p, o, l);
        DisagreeingChange(b, c, lines, p, o, l);
        LineChangeElsewhere(b, c, lines, p, o, l);
      }
    }
  }

  lemma {:induction false} ChangedAtAny(b0: Books, b1: Books, c: Sheet, vs: seq<Variance>, p: Id, o: Option<Id>, l: Id)
    requires Changed(b0, b1, c, vs)
    ensures OnHand(b1, p, o, l) == OnHand(b0, p, o, l) + Change(vs, c, p, o, l)
  {
  }

  lemma {:induction false} NothingDisagrees(b: Books, c: Sheet, lines: seq<Line>)
    requires forall i :: 0 <= i < |lines| ==> OnHandOf(b, c, lines[i]) == lines[i].counted
    ensures Disagreeing(b, c, lines) == []
    decreases |lines|
  {
    if lines != [] {
      NothingDisagrees(b, c, lines[..|lines| - 1]);
    }
  }

  /** Posting the same sheet again would write nothing at all. */
  lemma {:induction false} PostingAgainWritesNothing(b: Books, c: Sheet, lines: seq<Line>)
    requires Sound(b) && DistinctLines(lines) && FreshIds(b, c, lines)
    requires PostCount(b, c, lines).Ok?
    ensures PostCount(PostCount(b, c, lines).value, c, lines) == Ok(PostCount(b, c, lines).value)
  {
    hide Sound, Countable;
    PostingSettlesTheCount(b, c, lines);
    var b1 := PostCount(b, c, lines).value;
    WroteOptions(b, b1);
    NothingDisagrees(b1, c, lines);
    forall i | 0 <= i < |lines|
      ensures Countable(b1, lines[i])
    {
      SameOptionsSameAnswer(b, b1, lines[i]);
    }
  }

  lemma {:induction false} SameOptionsSameAnswer(b0: Books, b1: Books, line: Line)
    requires b0.options == b1.options
    ensures Countable(b0, line) == Countable(b1, line)
  {
  }
}
