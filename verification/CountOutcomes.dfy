/**
 * Where a surplus lands, and what a rebuild reports
 * (src/modules/inventory/stocktake.service.ts:337-470,
 * src/modules/inventory/stock-level.service.ts:267-345).
 */
module CountOutcomes {
  import opened Common
  import opened Ledger
  import opened Stock
  import opened Stocktake
  import opened StockLevels
  import StockOutcomes

  // -- Which lot a surplus belongs to -----------------------------------------

  /** The row is stock of the product at the location, under whatever option. */
  predicate StockHere(row: Row, product: Id, location: Id) {
    row.key.product == product && row.key.location == location && row.quantity > 0
  }

  predicate AnyHere(rows: seq<Row>, product: Id, location: Id) {
    exists i :: 0 <= i < |rows| && StockHere(rows[i], product, location)
  }

  /** Stock of the product here is on this lot, and no stock of it here is on a lot that came in later. */
  predicate NewestOfHere(lots: map<Id, Lot>, rows: seq<Row>, product: Id, location: Id, lot: Id) {
    && (exists i :: 0 <= i < |rows| && StockHere(rows[i], product, location) && rows[i].key.lot == lot)
    && (forall i :: 0 <= i < |rows| && StockHere(rows[i], product, location) ==>
          ReceivedAt(lots, rows[i].key.lot) <= ReceivedAt(lots, lot))
  }

  lemma {:induction false} NewestHereExactly(lots: map<Id, Lot>, rows: seq<Row>, product: Id, location: Id)
    ensures match NewestHere(lots, rows, product, location)
      case None => !AnyHere(rows, product, location)
      case Some(lot) => NewestOfHere(lots, rows, product, location, lot)
  {
    hide ReceivedAt;
    if rows != [] {
      NewestHereExactly(lots, rows[1..], product, location);
      assert forall i :: 0 < i < |rows| ==> rows[i] == rows[1..][i - 1];
      var rest := NewestHere(lots, rows[1..], product, location);
      if rest.Some? {
        var i :| 0 <= i < |rows[1..]| && StockHere(rows[1..][i], product, location) && rows[1..][i].key.lot == rest.value;
        assert StockHere(rows[i + 1], product, location) && rows[i + 1].key.lot == rest.value;
      }
      assert StockHere(rows[0], product, location) ==> rows[0].key.lot == rows[0].key.lot;
    }
  }

  /** A lot of the product something was received into. */
  predicate Received(lots: map<Id, Lot>, product: Id, lot: Id) {
    lot in lots && lots[lot].product == product && lots[lot].quantityReceived > 0
  }

  /**
   * A surplus belongs to the lot of the product with stock here that came in last;
   * with none here, to the one received anywhere that came in last; and with none
   * anywhere, to a lot made for it, of nothing received and nothing paid.
   */
  lemma {:induction false} SurplusExactly(b: Books, c: Sheet, product: Id)
    ensures var r := SurplusLot(b, c, product);
      if AnyHere(b.balances, product, c.location) then
        r.Ok? && r.value.lots == b.lots && NewestOfHere(b.lots, b.balances, product, c.location, r.value.lot)
      else if exists lot :: Received(b.lots, product, lot) then
        && r.Ok? && r.value.lots == b.lots && Received(b.lots, product, r.value.lot)
        && forall lot :: Received(b.lots, product, lot) ==> b.lots[lot].receivedAt <= b.lots[r.value.lot].receivedAt
      else
        && (r.Ok? <==> (product in c.found && c.found[product] !in b.lots))
        && (r.Ok? ==> r.value.lot == c.found[product]
                      && r.value.lots == b.lots[c.found[product] := Lot(product, None, c.now, 0, 0, 0)])
  {
    hide NewestHere, ReceivedAt;
    NewestHereExactly(b.lots, b.balances, product, c.location);
    var here := NewestHere(b.lots, b.balances, product, c.location);
    assert here.Some? ==> AnyHere(b.balances, product, c.location);
    forall lot
      ensures Received(b.lots, product, lot) <==> Bought(b.lots, product, lot)
    {
    }
  }

  /** What is left of an over option once the freed lots are used up goes onto that lot, and nowhere else. */
  lemma {:induction false} SurplusLandsThere(b: Books, c: Sheet, v: Variance, freed: seq<Freed>, k: Key)
    requires OneOver(b, c, v, freed).Ok? && Fill(b, c, v.line, v.variance, freed).Ok?
    requires Fill(b, c, v.line, v.variance, freed).value.wanted > 0 && Sound(Fill(b, c, v.line, v.variance, freed).value.books)
    ensures var f := Fill(b, c, v.line, v.variance, freed).value;
      && SurplusLot(f.books, c, v.line.product).Ok?
      && var mine := Key(v.line.product, v.line.option, c.location, SurplusLot(f.books, c, v.line.product).value.lot);
         RowSum(OneOver(b, c, v, freed).value.books.balances, AtKey(k))
           == RowSum(f.books.balances, AtKey(k)) + if k == mine then f.wanted else 0
  {
    hide SurplusLot, Fill, Inbound, Sound;
    var f := Fill(b, c, v.line, v.variance, freed).value;
    var s := SurplusLot(f.books, c, v.line.product).value;
    InboundMoves(f.books.(lots := s.lots), InKey(c, v.line, s.lot), f.wanted, Adjustment, Some(Count(c.id)), k, f.books);
  }

  lemma {:induction false} InboundMoves(b: Books, key: Key, quantity: int, kind: Kind, reference: Option<Cause>, k: Key, before: Books)
    requires Inbound(b, key, quantity, kind, reference).Ok? && Sound(before) && b.balances == before.balances
    ensures RowSum(Inbound(b, key, quantity, kind, reference).value.balances, AtKey(k))
         == RowSum(b.balances, AtKey(k)) + if k == key then quantity else 0
  {
    IncrementSum(b.balances, key, quantity, AtKey(k));
  }

  // -- What a count puts on record --------------------------------------------

  /** Only written onto: what is new says it is this count's, at its location, and nothing in it was forced. */
  ghost predicate OnRecord(b: Books, b1: Books, c: Sheet) {
    && b.movements <= b1.movements
    && forall i :: |b.movements| <= i < |b1.movements| ==>
         var m := b1.movements[i];
         && m.reference == Some(Count(c.id)) && m.key.location == c.location && !m.forced
         && m.kind in {TransferOut, TransferIn, Adjustment}
  }

  lemma {:induction false} OnRecordThen(b: Books, b1: Books, b2: Books, c: Sheet)
    requires OnRecord(b, b1, c) && OnRecord(b1, b2, c)
    ensures OnRecord(b, b2, c)
  {
    forall i | |b.movements| <= i < |b2.movements|
      ensures var m := b2.movements[i];
        && m.reference == Some(Count(c.id)) && m.key.location == c.location && !m.forced
        && m.kind in {TransferOut, TransferIn, Adjustment}
    {
      if i < |b1.movements| {
        assert b2.movements[i] == b1.movements[i];
      }
    }
  }

  lemma {:induction false} PostedInOrder(b: Books, ms: seq<Movement>)
    ensures PostAll(b, ms).movements == b.movements + ms
    decreases ms
  {
    if ms != [] {
      PostedInOrder(Post(b, ms[0]), ms[1..]);
      assert [ms[0]] + ms[1..] == ms;
    }
  }

  lemma {:induction false} OutOnRecord(b: Books, c: Sheet, line: Line, quantity: int, kind: Kind)
    requires kind in {TransferOut, Adjustment} && Outbound(b, OutFor(c, line, quantity, kind), 0).Ok?
    ensures OnRecord(b, Outbound(b, OutFor(c, line, quantity, kind), 0).value.books, c)
  {
    hide Outbound, Allocations, IsForced;
    var inp := OutFor(c, line, quantity, kind);
    OutboundShape(b, inp, 0);
    var ms := OutMoves(inp, Allocations(b, inp, 0), IsForced(b, inp));
    PostedInOrder(b.(lots := LotsAfter(b, inp, 0)), ms);
  }

  lemma {:induction false} InOnRecord(b: Books, c: Sheet, key: Key, quantity: int, kind: Kind)
    requires kind in {TransferIn, Adjustment} && key.location == c.location && Inbound(b, key, quantity, kind, Some(Count(c.id))).Ok?
    ensures OnRecord(b, Inbound(b, key, quantity, kind, Some(Count(c.id))).value, c)
  {
  }

  lemma {:induction false} SameOnRecord(b: Books, b1: Books, c: Sheet)
    requires b1.movements == b.movements
    ensures OnRecord(b, b1, c)
  {
  }

  lemma {:induction false} OneShortOnRecord(b: Books, c: Sheet, v: Variance, moving: int)
    requires OneShort(b, c, v, moving).Ok?
    ensures OnRecord(b, OneShort(b, c, v, moving).value.books, c)
  {
    hide Outbound, OnRecord;
    var b1 := if moving > 0 then Outbound(b, OutFor(c, v.line, moving, TransferOut), 0).value.books else b;
    SameOnRecord(b, b, c);
    if moving > 0 {
      OutOnRecord(b, c, v.line, moving, TransferOut);
    }
    SameOnRecord(b1, b1, c);
    if -v.variance > moving {
      OutOnRecord(b1, c, v.line, -v.variance - moving, Adjustment);
    }
    OnRecordThen(b, b1, OneShort(b, c, v, moving).value.books, c);
  }

  lemma {:induction false} ShortsOnRecord(b: Books, c: Sheet, shorts: seq<Variance>, toMove: int, freed: seq<Freed>)
    requires Shorts(b, c, shorts, toMove, freed).Ok?
    ensures OnRecord(b, Shorts(b, c, shorts, toMove, freed).value.books, c)
    decreases shorts
  {
    hide OneShort, OnRecord;
    SameOnRecord(b, b, c);
    if shorts != [] {
      var moving := Min(toMove, -shorts[0].variance);
      var s := OneShort(b, c, shorts[0], moving).value;
      OneShortOnRecord(b, c, shorts[0], moving);
      ShortsOnRecord(s.books, c, shorts[1..], toMove - moving, freed + s.freed);
      OnRecordThen(b, s.books, Shorts(b, c, shorts, toMove, freed).value.books, c);
    }
  }

  lemma {:induction false} FillOnRecord(b: Books, c: Sheet, line: Line, wanted: int, freed: seq<Freed>)
    requires Fill(b, c, line, wanted, freed).Ok?
    ensures OnRecord(b, Fill(b, c, line, wanted, freed).value.books, c)
    decreases |freed|, Max(wanted, 0)
  {
    hide Inbound, OnRecord;
    SameOnRecord(b, b, c);
    if wanted > 0 && freed != [] {
      var taking := Min(wanted, freed[0].quantity);
      var b1 := Inbound(b, InKey(c, line, freed[0].lot), taking, TransferIn, Some(Count(c.id))).value;
      TakesSome(b, c, line, freed[0].lot, taking);
      InOnRecord(b, c, InKey(c, line, freed[0].lot), taking, TransferIn);
      FillOnRecord(b1, c, line, wanted - taking, AfterTaking(freed, taking));
      OnRecordThen(b, b1, Fill(b, c, line, wanted, freed).value.books, c);
    }
  }

  lemma {:induction false} TakesSome(b: Books, c: Sheet, line: Line, lot: Id, taking: int)
    requires Inbound(b, InKey(c, line, lot), taking, TransferIn, Some(Count(c.id))).Ok?
    ensures taking > 0
  {
  }

  lemma {:induction false} OneOverOnRecord(b: Books, c: Sheet, v: Variance, freed: seq<Freed>)
    requires OneOver(b, c, v, freed).Ok?
    ensures OnRecord(b, OneOver(b, c, v, freed).value.books, c)
  {
    hide Inbound, OnRecord, Fill, SurplusLot;
    var f := Fill(b, c, v.line, v.variance, freed).value;
    FillOnRecord(b, c, v.line, v.variance, freed);
    if f.wanted > 0 {
      var s := SurplusLot(f.books, c, v.line.product).value;
      var b1 := f.books.(lots := s.lots);
      SameOnRecord(f.books, b1, c);
      InOnRecord(b1, c, InKey(c, v.line, s.lot), f.wanted, Adjustment);
      OnRecordThen(f.books, b1, OneOver(b, c, v, freed).value.books, c);
      OnRecordThen(b, f.books, OneOver(b, c, v, freed).value.books, c);
    }
  }

  lemma {:induction false} OversOnRecord(b: Books, c: Sheet, overs: seq<Variance>, freed: seq<Freed>)
    requires Overs(b, c, overs, freed).Ok?
    ensures OnRecord(b, Overs(b, c, overs, freed).value.books, c)
    decreases overs
  {
    hide OneOver, OnRecord;
    SameOnRecord(b, b, c);
    if overs != [] {
      var s := OneOver(b, c, overs[0], freed).value;
      OneOverOnRecord(b, c, overs[0], freed);
      OversOnRecord(s.books, c, overs[1..], s.freed);
      OnRecordThen(b, s.books, Overs(b, c, overs, freed).value.books, c);
    }
  }

  lemma {:induction false} GroupsOnRecord(b: Books, c: Sheet, groups: seq<Group>)
    requires PostGroups(b, c, groups).Ok?
    ensures OnRecord(b, PostGroups(b, c, groups).value, c)
    decreases groups
  {
    hide Shorts, Overs, OnRecord, ShortOf, OverOf, ToMove;
    SameOnRecord(b, b, c);
    if groups != [] {
      var vs := groups[0].variances;
      var s := Shorts(b, c, ShortOf(vs), ToMove(vs), []).value;
      ShortsOnRecord(b, c, ShortOf(vs), ToMove(vs), []);
      OversOnRecord(s.books, c, OverOf(vs), s.freed);
      var b1 := Overs(s.books, c, OverOf(vs), s.freed).value.books;
      OnRecordThen(b, s.books, b1, c);
      GroupsOnRecord(b1, c, groups[1..]);
      OnRecordThen(b, b1, PostGroups(b, c, groups).value, c);
    }
  }

  /** A count posted writes only its own movements, all at its location: transfers between options and adjustments, none of them forced. */
  lemma {:induction false} CountIsOnRecord(b: Books, c: Sheet, lines: seq<Line>)
    requires PostCount(b, c, lines).Ok?
    ensures OnRecord(b, PostCount(b, c, lines).value, c)
  {
    hide PostGroups, OnRecord, Disagreeing;
    GroupsOnRecord(b, c, Disagreeing(b, c, lines));
  }

  // -- What a rebuild reports -------------------------------------------------

  /** A balance that is not the sum of its movements: a row that differs, or a key that moved and has no row. */
  predicate IsDrift(cached: seq<Row>, truth: seq<Row>, x: Drift) {
    && x.now == Expected(truth, x.key)
    && if HasRow(cached, x.key) then x.was == RowSum(cached, AtKey(x.key)) && x.was != x.now
       else HasRow(truth, x.key) && x.was == 0
  }

  lemma {:induction false} MissingExactly(truth: seq<Row>, x: Drift)
    requires UniqueKeys(truth)
    ensures x in Missing(truth) <==> HasRow(truth, x.key) && x.was == 0 && x.now == Expected(truth, x.key)
  {
    if truth != [] {
      UniqueRest(truth);
      MissingExactly(truth[1..], x);
      HasRowCons(truth, x.key);
      OnlyOne(truth);
    }
  }

  lemma {:induction false} DriftOfExactly(cached: seq<Row>, truth: seq<Row>, x: Drift)
    requires UniqueKeys(cached) && UniqueKeys(truth)
    ensures x in DriftOf(cached, truth) <==> IsDrift(cached, truth, x)
    decreases cached
  {
    hide Expected, HasRow, UniqueKeys, Without, RowSum;
    if cached == [] {
      MissingExactly(truth, x);
      NoRows(x.key);
    } else {
      var row, rest := cached[0], cached[1..];
      var truth' := Without(truth, row.key);
      WithoutFacts(truth, row.key);
      UniqueRest(cached);
      DriftOfExactly(rest, truth', x);
      HasRowCons(cached, x.key);
      FirstSum(cached, x.key);
      if x.key != row.key {
        WithoutExpected(truth, row.key, x.key);
      } else {
        OnlyOne(cached);
      }
    }
  }

  lemma {:induction false} NoRows(k: Key)
    ensures !HasRow([], k)
  {
  }

  lemma {:induction false} OnlyOne(rows: seq<Row>)
    requires UniqueKeys(rows) && rows != []
    ensures !HasRow(rows[1..], rows[0].key)
  {
  }

  lemma {:induction false} FirstSum(rows: seq<Row>, k: Key)
    requires rows != [] && UniqueKeys(rows)
    ensures RowSum(rows, AtKey(k)) == if rows[0].key == k then rows[0].quantity else RowSum(rows[1..], AtKey(k))
  {
    if rows[0].key == k {
      NoRowNoSum(rows[1..], k) by {
        OnlyOne(rows);
      }
    }
  }

  /**
   * With one row a key, a rebuild reports a balance exactly when its row is not the
   * sum of its movements, or it moved and has no row: what it was, and what it is now.
   */
  lemma {:induction false} ReportExactly(b: Books, x: Drift)
    requires UniqueKeys(b.balances)
    ensures x in Rebuild(b).drifted <==>
      && x.now == MoveSum(b.movements, AtKey(x.key))
      && if HasRow(b.balances, x.key) then x.was == RowSum(b.balances, AtKey(x.key)) && x.was != x.now
         else HasMove(b.movements, x.key) && x.was == 0
  {
    SummedFacts(b.movements);
    DriftOfExactly(b.balances, Summed(b.movements), x);
    ExpectedIsSum(Summed(b.movements), x.key);
  }
}
