/**
 * What each stock call leaves behind, said of the rows and movements alone: which
 * calls are accepted, which lots give, and what is put on record
 * (src/modules/inventory/stock.service.ts, src/modules/inventory/fefo.ts,
 * src/modules/inventory/stock-operations.service.ts).
 */
module StockOutcomes {
  import opened Common
  import opened Ledger
  import opened Stock
  import opened Operations
  import Fefo

  /** What one lot holds of the item asked for, at the location asked of. */
  function HeldOn(b: Books, inp: OutboundInput, lot: Id): int {
    RowSum(b.balances, AtKey(Key(inp.product, inp.option, inp.location, lot)))
  }

  // -- What may be taken ------------------------------------------------------

  /** Units that can be drawn on: of the item, here, on the lot named if one is, negative balances left aside. */
  function OnShelf(rows: seq<Row>, inp: OutboundInput): nat {
    if rows == [] then 0
    else
      var k := rows[0].key;
      (if k.product == inp.product && k.option == inp.option && k.location == inp.location
          && (inp.pinned == None || inp.pinned == Some(k.lot)) && rows[0].quantity > 0
       then rows[0].quantity else 0)
      + OnShelf(rows[1..], inp)
  }

  lemma {:induction false} ShelfIsAvailable(lots: map<Id, Lot>, rows: seq<Row>, inp: OutboundInput)
    ensures Fefo.Stock(Available(lots, rows, inp)) == OnShelf(rows, inp)
  {
    if rows != [] {
      ShelfIsAvailable(lots, rows[1..], inp);
      var rest := Available(lots, rows[1..], inp);
      assert ([BatchOf(lots, rows[0])] + rest)[1..] == rest;
    }
  }

  /**
   * A request is accepted exactly when it asks for something, names an option the
   * product allows, and is covered by what is on the shelf or is forced by somebody
   * who may, saying why, onto a lot there is. A refusal says which of these failed.
   */
  lemma {:induction false} OutboundAcceptedExactly(b: Books, inp: OutboundInput, placeholder: Id)
    requires Sound(b)
    ensures var short := inp.quantity > OnShelf(b.balances, inp);
      var allowed := VariantAllowed(OptionsOf(b, inp.product), inp.option, AllowsRetired(inp.kind));
      var r := Outbound(b, inp, placeholder);
      var forced := inp.force && inp.mayForce && !Blank(inp.forcedReason) && (inp.pinned.Some? ==> inp.pinned.value in b.lots);
      && (r.Ok? <==> (inp.quantity > 0 && allowed && (short ==> forced)))
      && (inp.quantity > 0 && allowed && short && !inp.force ==>
            r == Err(NotEnough(inp.quantity - OnShelf(b.balances, inp))))
      && (inp.quantity > 0 && allowed && short && inp.force && !inp.mayForce ==> r == Err(MayNotForce))
      && (inp.quantity > 0 && allowed && short && inp.force && inp.mayForce && Blank(inp.forcedReason) ==> r == Err(NoForcedReason))
      && (inp.quantity <= 0 ==> r == Err(NotPositive))
      && (inp.quantity > 0 && !allowed ==> r == Err(OptionRefused))
  {
    hide Sound, Fefo.Picks, Fefo.SortFefo, OutMoves, PostAll, VariantAllowed;
    ShelfIsAvailable(b.lots, b.balances, inp);
    if inp.pinned.None? && Bearer(b, inp).Some? {
      KnownBearer(b, inp);
    }
  }

  lemma {:induction false} KnownComesFromRows(lots: map<Id, Lot>, rows: seq<Row>, inp: OutboundInput, x: Fefo.Batch)
    ensures x in Known(lots, rows, inp) <==> exists i :: 0 <= i < |rows| && Matches(inp, rows[i]) && x == BatchOf(lots, rows[i])
  {
    if rows != [] {
      KnownComesFromRows(lots, rows[1..], inp, x);
      assert forall i :: 0 < i < |rows| ==> rows[i] == rows[1..][i - 1];
      if x in Known(lots, rows[1..], inp) {
        var i :| 0 <= i < |rows[1..]| && Matches(inp, rows[1..][i]) && x == BatchOf(lots, rows[1..][i]);
        assert rows[i + 1] == rows[1..][i];
      }
    }
  }

  lemma {:induction false} KnownBearer(b: Books, inp: OutboundInput)
    requires Sound(b) && inp.pinned.None? && Bearer(b, inp).Some?
    ensures Bearer(b, inp).value in b.lots
  {
    var known := Known(b.lots, b.balances, inp);
    var first := Fefo.SortFefo(known)[0];
    SortedMember(known, first);
    KnownComesFromRows(b.lots, b.balances, inp, first);
    var i :| 0 <= i < |b.balances| && Matches(inp, b.balances[i]) && first == BatchOf(b.lots, b.balances[i]);
    assert HasRow(b.balances, b.balances[i].key);
    RowsOnLots(b, b.balances[i].key);
  }

  // -- Which lot gives --------------------------------------------------------

  /** It leaves the shelf first: it goes off sooner, or came in sooner, or has the lower id. */
  predicate LeavesFirst(lots: map<Id, Lot>, x: Id, y: Id) {
    && x in lots && y in lots
    && var a, c := lots[x], lots[y];
       || (a.expiry.Some? && (c.expiry.None? || a.expiry.value < c.expiry.value))
       || (a.expiry == c.expiry && a.receivedAt < c.receivedAt)
       || (a.expiry == c.expiry && a.receivedAt == c.receivedAt && x < y)
  }

  function BatchFor(b: Books, inp: OutboundInput, lot: Id): Fefo.Batch
    requires lot in b.lots
  {
    Fefo.Batch(lot, HeldOn(b, inp, lot), b.lots[lot].expiry, b.lots[lot].receivedAt)
  }

  lemma {:induction false} AvailableAt(lots: map<Id, Lot>, rows: seq<Row>, inp: OutboundInput, i: nat)
    requires inp.pinned.None? && i < |rows| && Matches(inp, rows[i]) && rows[i].quantity > 0
    ensures BatchOf(lots, rows[i]) in Available(lots, rows, inp)
  {
    if i > 0 {
      AvailableAt(lots, rows[1..], inp, i - 1);
    }
  }

  /** A lot with stock is among those a pick draws on. */
  lemma {:induction false} StockIsAvailable(b: Books, inp: OutboundInput, lot: Id)
    requires Sound(b) && inp.pinned.None? && lot in b.lots && HeldOn(b, inp, lot) > 0
    ensures BatchFor(b, inp, lot) in Available(b.lots, b.balances, inp)
  {
    var k := Key(inp.product, inp.option, inp.location, lot);
    if !HasRow(b.balances, k) {
      NoRowNoSum(b.balances, k);
    } else {
      var i :| 0 <= i < |b.balances| && b.balances[i].key == k;
      RowIsSum(b.balances, i);
      AvailableAt(b.lots, b.balances, inp, i);
    }
  }

  lemma {:induction false} AvailableIsStock(b: Books, inp: OutboundInput, x: Fefo.Batch)
    requires Sound(b) && x in Available(b.lots, b.balances, inp)
    ensures x.lot in b.lots && x == BatchFor(b, inp, x.lot) && x.quantity > 0
  {
    AvailableComesFromRows(b.lots, b.balances, inp, x);
    var k := Key(inp.product, inp.option, inp.location, x.lot);
    var i :| 0 <= i < |b.balances| && b.balances[i] == Row(k, x.quantity);
    RowIsSum(b.balances, i);
    assert HasRow(b.balances, k);
    RowsOnLots(b, k);
    AvailableDates(b.lots, b.balances, inp, x);
  }

  lemma {:induction false} AvailableDates(lots: map<Id, Lot>, rows: seq<Row>, inp: OutboundInput, x: Fefo.Batch)
    requires x in Available(lots, rows, inp) && x.lot in lots
    ensures x.expiry == lots[x.lot].expiry && x.receivedAt == lots[x.lot].receivedAt && x.quantity > 0
  {
    if x in Available(lots, rows[1..], inp) {
      AvailableDates(lots, rows[1..], inp, x);
    }
  }

  lemma {:induction false} StockUpTo(s: seq<Fefo.Batch>, i: nat)
    requires i < |s|
    ensures Fefo.Stock(s) >= Fefo.Stock(s[..i]) + Fefo.Capacity(s[i])
  {
    if i > 0 {
      StockUpTo(s[1..], i - 1);
      assert s[..i][1..] == s[1..][..i - 1];
    }
  }

  /** Of a request short of stock, everything there is gives all it has. */
  lemma {:induction false} ShortDrains(s: seq<Fefo.Batch>, quantity: nat, x: Fefo.Batch)
    requires Fefo.DistinctLots(s) && x in s && quantity >= Fefo.Stock(s)
    ensures Fefo.TakenFrom(Fefo.Picks(Fefo.SortFefo(s), quantity), x.lot) == Fefo.Capacity(x)
  {
    hide Fefo.SortFefo, Fefo.Picks, Fefo.TakenFrom, Fefo.DistinctLots, Fefo.Stock;
    var sorted := Fefo.SortFefo(s);
    Fefo.SortKeepsDistinct(s);
    Fefo.StockOfSorted(s);
    SortedMember(s, x);
    var i :| 0 <= i < |sorted| && sorted[i] == x;
    Fefo.EachLotDraws(sorted, quantity, i);
    StockUpTo(sorted, i);
  }

  /** How much the pick of a request draws on one lot. */
  function PickedFrom(b: Books, inp: OutboundInput, lot: Id): nat
    requires inp.quantity > 0
  {
    Fefo.TakenFrom(Fefo.Picks(Fefo.SortFefo(Available(b.lots, b.balances, inp)), inp.quantity), lot)
  }

  lemma {:induction false} GivenByLot(b: Books, inp: OutboundInput, placeholder: Id, lot: Id)
    requires Sound(b) && Outbound(b, inp, placeholder).Ok?
    ensures inp.quantity > 0
    ensures var short := inp.quantity - Fefo.Stock(Available(b.lots, b.balances, inp));
      var bears := if Bearer(b, inp).Some? then Bearer(b, inp).value else placeholder;
      HeldOn(Outbound(b, inp, placeholder).value.books, inp, lot)
        == HeldOn(b, inp, lot) - PickedFrom(b, inp, lot) - (if short > 0 && lot == bears then short else 0)
  {
    hide Available, Bearer, Fefo.SortFefo, Fefo.Picks, Fefo.Stock, Outbound, Sound;
    OutboundShape(b, inp, placeholder);
    OutboundAtKey(b, inp, placeholder, LotKey(inp, lot));
    var bearer := Bearer(b, inp);
    TakenConcat(Fefo.Picks(Fefo.SortFefo(Available(b.lots, b.balances, inp)), inp.quantity),
                Fefo.Allocation(if bearer.Some? then bearer.value else placeholder,
                                Max(0, inp.quantity - Fefo.Stock(Available(b.lots, b.balances, inp)))), lot);
  }

  lemma {:induction false} PickLeavesFirst(b: Books, inp: OutboundInput, x: Id, y: Id)
    requires Sound(b) && inp.pinned.None? && inp.quantity > 0 && LeavesFirst(b.lots, x, y) && HeldOn(b, inp, x) > 0
    ensures PickedFrom(b, inp, y) > 0 || inp.quantity > Fefo.Stock(Available(b.lots, b.balances, inp)) ==>
      PickedFrom(b, inp, x) == HeldOn(b, inp, x)
  {
    hide Available, Fefo.SortFefo, Fefo.Picks, Fefo.Stock, HeldOn, Sound;
    var s := Available(b.lots, b.balances, inp);
    StockIsAvailable(b, inp, x);
    RowsAreDistinct(b, inp);
    if inp.quantity > Fefo.Stock(s) {
      ShortDrains(s, inp.quantity, BatchFor(b, inp, x));
    } else if PickedFrom(b, inp, y) > 0 {
      PickedIsAvailable(s, inp.quantity, y);
      var c :| c in s && c.lot == y;
      AvailableIsStock(b, inp, c);
      Fefo.FirstExpiredFirstOut(s, inp.quantity, BatchFor(b, inp, x), c);
    }
  }

  lemma {:induction false} RowsAreDistinct(b: Books, inp: OutboundInput)
    requires Sound(b)
    ensures Fefo.DistinctLots(Available(b.lots, b.balances, inp))
  {
    AvailableIsDistinct(b.lots, b.balances, inp);
  }

  lemma {:induction false} PickedIsAvailable(s: seq<Fefo.Batch>, quantity: nat, lot: Id)
    requires Fefo.TakenFrom(Fefo.Picks(Fefo.SortFefo(s), quantity), lot) > 0
    ensures exists c :: c in s && c.lot == lot
  {
    var sorted := Fefo.SortFefo(s);
    if forall i :: 0 <= i < |sorted| ==> sorted[i].lot != lot {
      Fefo.NothingFromElsewhere(sorted, quantity, lot);
    } else {
      var i :| 0 <= i < |sorted| && sorted[i].lot == lot;
      SortedMember(s, sorted[i]);
    }
  }

  /**
   * First expired, first out, of the balances: stock out that takes anything of a
   * lot has left nothing on any lot of the item here that should leave first, and
   * has taken no more than there was of it unless it was forced.
   */
  lemma {:induction false} OutboundIsFirstExpired(b: Books, inp: OutboundInput, placeholder: Id, x: Id, y: Id)
    requires Sound(b) && inp.pinned.None? && Outbound(b, inp, placeholder).Ok?
    requires LeavesFirst(b.lots, x, y) && HeldOn(b, inp, x) > 0
    ensures var after := Outbound(b, inp, placeholder).value.books;
      HeldOn(after, inp, y) < HeldOn(b, inp, y) ==>
        && HeldOn(after, inp, x) <= 0
        && (inp.quantity <= OnShelf(b.balances, inp) ==> HeldOn(after, inp, x) == 0)
  {
    hide Available, Bearer, Outbound, HeldOn, OnShelf, Sound;
    GivenByLot(b, inp, placeholder, x);
    GivenByLot(b, inp, placeholder, y);
    PickLeavesFirst(b, inp, x, y);
    ShelfIsAvailable(b.lots, b.balances, inp);
  }

  /**
   * A forced shortfall falls on the lot that should leave first of all the item has
   * ever had here, empty and negative ones too: no other lot goes further below
   * zero, and a lot of no stock here before is touched only when there was none.
   */
  lemma {:induction false} ShortfallFallsOnTheFirst(b: Books, inp: OutboundInput, placeholder: Id, x: Id, y: Id)
    requires Sound(b) && inp.pinned.None? && Outbound(b, inp, placeholder).Ok?
    requires HasRow(b.balances, Key(inp.product, inp.option, inp.location, x))
    ensures var after := Outbound(b, inp, placeholder).value.books;
      HeldOn(after, inp, y) < HeldOn(b, inp, y) && HeldOn(after, inp, y) < 0 ==>
        && HasRow(b.balances, Key(inp.product, inp.option, inp.location, y))
        && !LeavesFirst(b.lots, x, y)
  {
    hide Outbound, OnShelf, Available, Fefo.SortFefo;
    GivenByLot(b, inp, placeholder, y);
    PickWithinBalance(b, inp, inp.quantity, y);
    BearerIsFirst(b, inp, x);
  }

  lemma {:induction false} BearerIsFirst(b: Books, inp: OutboundInput, x: Id)
    requires Sound(b) && inp.pinned.None? && HasRow(b.balances, Key(inp.product, inp.option, inp.location, x))
    ensures Bearer(b, inp).Some?
    ensures HasRow(b.balances, Key(inp.product, inp.option, inp.location, Bearer(b, inp).value))
    ensures !LeavesFirst(b.lots, x, Bearer(b, inp).value)
  {
    hide Sound, Known, Fefo.SortFefo, Fefo.Sooner, Fefo.Ordered, LeavesFirst;
    var known := Known(b.lots, b.balances, inp);
    var i :| 0 <= i < |b.balances| && b.balances[i].key == Key(inp.product, inp.option, inp.location, x);
    var mine := BatchOf(b.lots, b.balances[i]);
    assert Matches(inp, b.balances[i]);
    KnownComesFromRows(b.lots, b.balances, inp, mine);
    var sorted := Fefo.SortFefo(known);
    SortedMember(known, mine);
    SortedMember(known, sorted[0]);
    KnownComesFromRows(b.lots, b.balances, inp, sorted[0]);
    var j :| 0 <= j < |b.balances| && Matches(inp, b.balances[j]) && sorted[0] == BatchOf(b.lots, b.balances[j]);
    assert b.balances[j].key == Key(inp.product, inp.option, inp.location, sorted[0].lot);
    FirstOfSorted(known, mine);
    NotFirst(b.lots, b.balances[i], b.balances[j]);
  }

  lemma {:induction false} FirstOfSorted(s: seq<Fefo.Batch>, x: Fefo.Batch)
    requires x in s
    ensures Fefo.SortFefo(s) != [] && (Fefo.SortFefo(s)[0] == x || Fefo.Sooner(Fefo.SortFefo(s)[0], x))
  {
    Fefo.SortIsOrdered(s);
    SortedMember(s, x);
    var sorted := Fefo.SortFefo(s);
    var n :| 0 <= n < |sorted| && sorted[n] == x;
    assert n > 0 ==> Fefo.Sooner(sorted[0], sorted[n]);
  }

  lemma {:induction false} NotFirst(lots: map<Id, Lot>, x: Row, y: Row)
    requires BatchOf(lots, y) == BatchOf(lots, x) || Fefo.Sooner(BatchOf(lots, y), BatchOf(lots, x))
    ensures !LeavesFirst(lots, x.key.lot, y.key.lot)
  {
  }

  /** What is put on record: of the item and place asked, as the kind and for the cause given, forced and why when it was short. */
  lemma {:induction false} OutboundIsOnRecord(b: Books, inp: OutboundInput, placeholder: Id, i: nat)
    requires Sound(b) && Outbound(b, inp, placeholder).Ok? && i < |Outbound(b, inp, placeholder).value.written|
    ensures var t := Outbound(b, inp, placeholder).value;
      var m := t.written[i];
      && t.books.movements == b.movements + t.written
      && m.key.product == inp.product && m.key.option == inp.option && m.key.location == inp.location
      && m.quantity < 0 && m.kind == inp.kind && m.reference == inp.reference
      && (m.forced <==> inp.quantity > OnShelf(b.balances, inp))
      && m.forcedReason == if m.forced then inp.forcedReason else ""
  {
    hide OnShelf;
    OutboundShape(b, inp, placeholder);
    OutboundAppends(b, inp, placeholder);
    OutboundWritesPositive(b, inp, placeholder);
    ShelfIsAvailable(b.lots, b.balances, inp);
  }

  // -- Stock in ---------------------------------------------------------------

  /**
   * Stock in is accepted exactly when it brings something, names an option the
   * product allows, and a lot there is; it moves that one balance and records why.
   */
  lemma {:induction false} InboundExactly(b: Books, key: Key, quantity: int, kind: Kind, reference: Option<Cause>, k: Key)
    requires Sound(b)
    ensures var r := Inbound(b, key, quantity, kind, reference);
      && (r.Ok? <==> (quantity > 0 && VariantAllowed(OptionsOf(b, key.product), key.option, AllowsRetired(kind)) && key.lot in b.lots))
      && (r.Ok? ==>
            && RowSum(r.value.balances, AtKey(k)) == RowSum(b.balances, AtKey(k)) + (if k == key then quantity else 0)
            && r.value.movements == b.movements + [Movement(key, quantity, kind, reference, false, "")]
            && r.value.lots == b.lots)
  {
    IncrementSum(b.balances, key, quantity, AtKey(k));
  }

  // -- Opening lots -----------------------------------------------------------

  lemma {:induction false} LineLotAt(lots: map<Id, Lot>, lines: seq<NewLotLine>, ids: seq<Id>, i: nat)
    requires |ids| == |lines| && Distinct(ids) && i < |ids|
    ensures LineLots(lots, lines, ids)[ids[i]] == LineLot(lines[i])
    decreases lines
  {
    if i == 0 {
      OtherLineLots(lots[ids[0] := LineLot(lines[0])], lines[1..], ids[1..], ids[0]);
    } else {
      LineLotAt(lots[ids[0] := LineLot(lines[0])], lines[1..], ids[1..], i - 1);
    }
  }

  lemma {:induction false} OtherLineLots(lots: map<Id, Lot>, lines: seq<NewLotLine>, ids: seq<Id>, lot: Id)
    requires |ids| == |lines| && forall i :: 0 <= i < |ids| ==> ids[i] != lot
    ensures lot in LineLots(lots, lines, ids) <==> lot in lots
    ensures lot in lots ==> LineLots(lots, lines, ids)[lot] == lots[lot]
    decreases lines
  {
    if lines != [] {
      OtherLineLots(lots[ids[0] := LineLot(lines[0])], lines[1..], ids[1..], lot);
    }
  }

  lemma {:induction false} LineMovesAt(lines: seq<NewLotLine>, ids: seq<Id>, i: nat)
    requires |ids| == |lines| && i < |ids|
    ensures LineMoves(lines, ids)[i] == Movement(LineKey(lines[i], ids[i]), lines[i].quantity, lines[i].kind, None, false, "")
  {
    if i > 0 {
      LineMovesAt(lines[1..], ids[1..], i - 1);
    }
  }

  lemma {:induction false} LineSum(lines: seq<NewLotLine>, ids: seq<Id>, k: Key, i: nat)
    requires |ids| == |lines| && Distinct(ids) && i < |ids| && k.lot == ids[i]
    ensures MoveSum(LineMoves(lines, ids), AtKey(k)) == if k == LineKey(lines[i], ids[i]) then lines[i].quantity else 0
  {
    if i == 0 {
      NoLineSum(lines[1..], ids[1..], k);
    } else {
      LineSum(lines[1..], ids[1..], k, i - 1);
    }
  }

  lemma {:induction false} NoLineSum(lines: seq<NewLotLine>, ids: seq<Id>, k: Key)
    requires |ids| == |lines| && forall i :: 0 <= i < |ids| ==> ids[i] != k.lot
    ensures MoveSum(LineMoves(lines, ids), AtKey(k)) == 0
  {
    if lines != [] {
      NoLineSum(lines[1..], ids[1..], k);
    }
  }

  /**
   * Opening stock is accepted exactly when every line brings something and names an
   * option its product allows. Each line opens its own lot, of its own figures and
   * holding its own quantity and nothing else; no other lot and no other balance moves.
   */
  lemma {:induction false} NewLotsExactly(b: Books, lines: seq<NewLotLine>, ids: seq<Id>, i: nat, k: Key)
    requires |ids| == |lines| && Sound(b) && Fresh(b, ids)
    ensures var r := NewLots(b, lines, ids);
      && (r.Ok? <==> (forall j :: 0 <= j < |lines| ==>
            lines[j].quantity > 0 && VariantAllowed(OptionsOf(b, lines[j].product), lines[j].option, false)))
      && (r.Ok? && i < |ids| ==>
            && ids[i] in r.value.lots
            && r.value.lots[ids[i]] == Lot(lines[i].product, lines[i].expiry, lines[i].occurredAt, lines[i].quantity,
                                           lines[i].quantityPaidFor, lines[i].totalCost)
            && |r.value.movements| == |b.movements| + |lines|
            && r.value.movements[|b.movements| + i].kind == lines[i].kind
            && var mine := Key(lines[i].product, lines[i].option, lines[i].location, ids[i]);
               k.lot == ids[i] ==> RowSum(r.value.balances, AtKey(k)) == if k == mine then lines[i].quantity else 0)
      && (r.Ok? && k.lot !in ids ==>
            && RowSum(r.value.balances, AtKey(k)) == RowSum(b.balances, AtKey(k))
            && (k.lot in b.lots ==> k.lot in r.value.lots && r.value.lots[k.lot] == b.lots[k.lot]))
  {
    hide VariantAllowed, LineMoves, LineLots, Sound;
    var r := NewLots(b, lines, ids);
    if r.Ok? {
      NewLotsBalance(b, lines, ids, k);
      if k.lot !in ids {
        NoLineSum(lines, ids, k);
        OtherLineLots(b.lots, lines, ids, k.lot);
      }
      if i < |ids| {
        LineLotAt(b.lots, lines, ids, i);
        LineMovesAt(lines, ids, i);
        if k.lot == ids[i] {
          LineSum(lines, ids, k, i);
          NothingOnNewLots(b, k);
        }
      }
    }
  }

  lemma {:induction false} NewLotsBalance(b: Books, lines: seq<NewLotLine>, ids: seq<Id>, k: Key)
    requires |ids| == |lines| && Sound(b) && Fresh(b, ids) && NewLots(b, lines, ids).Ok?
    ensures RowSum(NewLots(b, lines, ids).value.balances, AtKey(k)) == RowSum(b.balances, AtKey(k)) + MoveSum(LineMoves(lines, ids), AtKey(k))
  {
    NewLotsIsPostedOneByOne(b, lines, ids);
    PostAllSum(b.(lots := LineLots(b.lots, lines, ids)), LineMoves(lines, ids), AtKey(k));
  }

  lemma {:induction false} NothingOnNewLots(b: Books, k: Key)
    requires Sound(b) && k.lot !in b.lots
    ensures RowSum(b.balances, AtKey(k)) == 0
  {
    if HasRow(b.balances, k) {
      RowsOnLots(b, k);
    } else {
      NoRowNoSum(b.balances, k);
    }
  }

  // -- Transfers and adjustments ----------------------------------------------

  lemma {:induction false} ArrivalsAtKey(inp: OutboundInput, a: seq<Fefo.Allocation>, forced: bool, to: Id, k: Key)
    ensures MoveSum(Arrivals(OutMoves(inp, a, forced), to), AtKey(k))
         == if k == Key(inp.product, inp.option, to, k.lot) then Fefo.TakenFrom(a, k.lot) else 0
  {
    if a != [] {
      ArrivalsAtKey(inp, a[1..], forced, to, k);
    }
  }

  /**
   * A transfer is accepted exactly as stock out is, between two locations. What
   * leaves a lot at one location arrives on the same lot at the other, whichever
   * lots give being those stock out would take; nothing moves anywhere else.
   */
  lemma {:induction false} TransferByLot(b: Books, inp: OutboundInput, to: Id, placeholder: Id, k: Key)
    requires Sound(b)
    ensures var out := Outbound(b, inp.(kind := TransferOut, pinned := None, reference := None), placeholder);
      var r := Transfer(b, inp, to, placeholder);
      && (r.Ok? <==> (inp.location != to && out.Ok?))
      && (r.Ok? && k.product == inp.product && k.option == inp.option && k.location == inp.location ==>
            var left := RowSum(b.balances, AtKey(k)) - RowSum(out.value.books.balances, AtKey(k));
            && RowSum(r.value.balances, AtKey(k)) == RowSum(b.balances, AtKey(k)) - left
            && RowSum(r.value.balances, AtKey(k.(location := to))) == RowSum(b.balances, AtKey(k.(location := to))) + left)
      && (r.Ok? && !(k.product == inp.product && k.option == inp.option && (k.location == inp.location || k.location == to)) ==>
            RowSum(r.value.balances, AtKey(k)) == RowSum(b.balances, AtKey(k)))
      && (r.Ok? ==> r.value.lots == out.value.books.lots)
  {
    var inp' := inp.(kind := TransferOut, pinned := None, reference := None);
    if Transfer(b, inp, to, placeholder).Ok? {
      hide Sound, Outbound;
      TransferBalance(b, inp, to, placeholder, k);
      TransferBalance(b, inp, to, placeholder, k.(location := to));
    }
  }

  lemma {:induction false} TransferBalance(b: Books, inp: OutboundInput, to: Id, placeholder: Id, k: Key)
    requires Sound(b) && Transfer(b, inp, to, placeholder).Ok?
    ensures var out := Outbound(b, inp.(kind := TransferOut, pinned := None, reference := None), placeholder).value.books;
      var here := Key(inp.product, inp.option, inp.location, k.lot);
      var left := RowSum(b.balances, AtKey(here)) - RowSum(out.balances, AtKey(here));
      && Transfer(b, inp, to, placeholder).value.lots == out.lots
      && RowSum(Transfer(b, inp, to, placeholder).value.balances, AtKey(k)) == RowSum(b.balances, AtKey(k))
           - (if k == here then left else 0) + (if k == here.(location := to) then left else 0)
  {
    hide Outbound, Sound, Allocations, IsForced;
    var inp' := inp.(kind := TransferOut, pinned := None, reference := None);
    var t := Outbound(b, inp', placeholder).value;
    OutboundShape(b, inp', placeholder);
    OutboundKeepsRows(b, inp', placeholder);
    PostAllWrites(t.books, Arrivals(t.written, to));
    PostAllSum(t.books, Arrivals(t.written, to), AtKey(k));
    ArrivalsAtKey(inp', Allocations(b, inp', placeholder), IsForced(b, inp'), to, k);
    OutboundAtKey(b, inp', placeholder, k);
    OutboundAtKey(b, inp', placeholder, Key(inp.product, inp.option, inp.location, k.lot));
    assert Transfer(b, inp, to, placeholder).value == PostAll(t.books, Arrivals(t.written, to));
  }

  lemma {:induction false} OutboundKeepsRows(b: Books, inp: OutboundInput, placeholder: Id)
    requires Sound(b) && Outbound(b, inp, placeholder).Ok?
    ensures UniqueKeys(Outbound(b, inp, placeholder).value.books.balances)
  {
    OutboundSound(b, inp, placeholder);
  }

  /**
   * Writing stock on puts it on the lot named, or opens a lot of it; writing it off
   * is stock out, as damage when it is said to be. Only the item's own balances here move.
   */
  lemma {:induction false} AdjustExactly(b: Books, inp: OutboundInput, delta: int, totalCost: int, expiry: Option<Time>, newLot: Id, k: Key)
    requires Sound(b) && newLot !in b.lots
    ensures var r := Adjust(b, inp, delta, totalCost, expiry, newLot);
      var kind := if inp.kind == Damage then Damage else Adjustment;
      && (delta < 0 ==>
            && (r.Ok? <==> Outbound(b, inp.(quantity := -delta, kind := kind), newLot).Ok?)
            && (r.Ok? ==> r.value == Outbound(b, inp.(quantity := -delta, kind := kind), newLot).value.books))
      && (delta == 0 ==> r.Err?)
      && (delta > 0 ==>
            var lot := if inp.pinned.Some? then inp.pinned.value else newLot;
            && (r.Ok? <==> (VariantAllowed(OptionsOf(b, inp.product), inp.option, true) && (inp.pinned.Some? ==> lot in b.lots)))
            && (r.Ok? ==>
                  && RowSum(r.value.balances, AtKey(k))
                       == RowSum(b.balances, AtKey(k)) + (if k == Key(inp.product, inp.option, inp.location, lot) then delta else 0)
                  && lot in r.value.lots
                  && (inp.pinned.Some? ==> r.value.lots == b.lots)
                  && (inp.pinned.None? ==> r.value.lots[lot] == Lot(inp.product, expiry, inp.now, delta, 0, totalCost))
                  && r.value.movements == b.movements
                       + [Movement(Key(inp.product, inp.option, inp.location, lot), delta, Adjustment, None, false, "")]))
  {
    hide Outbound, Sound, VariantAllowed;
    if delta >= 0 {
      if inp.pinned.Some? {
        InboundExactly(b, LotKey(inp, inp.pinned.value), delta, Adjustment, None, k);
      } else {
        var b1 := b.(lots := b.lots[newLot := Lot(inp.product, expiry, inp.now, delta, 0, totalCost)]);
        MoreLots(b, b1.lots);
        InboundExactly(b1, LotKey(inp, newLot), delta, Adjustment, None, k);
      }
    }
  }

  /** Moving a product's stock into its first option touches no other product and no other option. */
  lemma {:induction false} MoveIntoVariantMovesNothingElse(b: Books, product: Id, option: Id, k: Key)
    requires Sound(b) && (k.product != product || (k.option.Some? && k.option != Some(option)))
    ensures RowSum(MoveIntoVariant(b, product, option).balances, AtKey(k)) == RowSum(b.balances, AtKey(k))
  {
    PostAllSum(b, Halves(b.balances, product, option), AtKey(k));
    HalvesAtKey(b.balances, product, option, k);
  }

  /** A transfer is on record as leaving one location and arriving at the other, for no other cause. */
  lemma {:induction false} TransferIsOnRecord(b: Books, inp: OutboundInput, to: Id, placeholder: Id, i: nat)
    requires Sound(b) && Transfer(b, inp, to, placeholder).Ok?
    ensures var ms := Transfer(b, inp, to, placeholder).value.movements;
      && b.movements <= ms
      && (|b.movements| <= i < |ms| ==>
            && ms[i].key.product == inp.product && ms[i].key.option == inp.option && ms[i].reference == None
            && ((ms[i].kind == TransferOut && ms[i].key.location == inp.location && ms[i].quantity < 0)
                || (ms[i].kind == TransferIn && ms[i].key.location == to && ms[i].quantity > 0 && !ms[i].forced)))
  {
    hide Outbound, Sound, Allocations, IsForced;
    var inp' := inp.(kind := TransferOut, pinned := None, reference := None);
    var t := Outbound(b, inp', placeholder).value;
    OutboundAppends(b, inp', placeholder);
    OutboundKeepsRows(b, inp', placeholder);
    OutboundShape(b, inp', placeholder);
    OutboundWritesPositive(b, inp', placeholder);
    PostAllWrites(t.books, Arrivals(t.written, to));
    var ms := Transfer(b, inp, to, placeholder).value.movements;
    assert ms == (b.movements + t.written) + Arrivals(t.written, to);
    if |b.movements| + |t.written| <= i < |ms| {
      ArrivalIs(t.written, to, i - |b.movements| - |t.written|);
    }
  }

  lemma {:induction false} ArrivalIs(left: seq<Movement>, to: Id, i: nat)
    requires i < |left|
    ensures Arrivals(left, to)[i] == Movement(left[i].key.(location := to), Abs(left[i].quantity), TransferIn, None, false, "")
  {
    if i > 0 {
      ArrivalIs(left[1..], to, i - 1);
    }
  }

  /** A move into an option is on record as leaving no option and arriving under that one. */
  lemma {:induction false} MoveIntoVariantIsOnRecord(b: Books, product: Id, option: Id, i: nat)
    requires Sound(b)
    ensures var ms := MoveIntoVariant(b, product, option).movements;
      && b.movements <= ms
      && (|b.movements| <= i < |ms| ==>
            && ms[i].key.product == product && ms[i].reference == None && !ms[i].forced
            && ((ms[i].kind == TransferOut && ms[i].key.option == None) || (ms[i].kind == TransferIn && ms[i].key.option == Some(option))))
  {
    PostAllWrites(b, Halves(b.balances, product, option));
    var ms := MoveIntoVariant(b, product, option).movements;
    if |b.movements| <= i < |ms| {
      HalfIs(b.balances, product, option, i - |b.movements|);
    }
  }

  lemma {:induction false} HalfIs(rows: seq<Row>, product: Id, option: Id, i: nat)
    requires i < |Halves(rows, product, option)|
    ensures var m := Halves(rows, product, option)[i];
      && m.key.product == product && m.reference == None && !m.forced
      && ((m.kind == TransferOut && m.key.option == None) || (m.kind == TransferIn && m.key.option == Some(option)))
  {
    var rest := Halves(rows[1..], product, option);
    if |Halves(rows, product, option)| == |rest| {
      HalfIs(rows[1..], product, option, i);
    } else if i >= 2 {
      HalfIs(rows[1..], product, option, i - 2);
    }
  }

  // -- Options ----------------------------------------------------------------

  /**
   * A product without options is named without one. A product with options is named
   * by one of its own: retired ones too, but for stock received or sold.
   */
  lemma {:induction false} OptionAllowedExactly(options: seq<KnownVariant>, option: Option<Id>, kind: Kind)
    requires forall i, j :: 0 <= i < j < |options| ==> options[i].id != options[j].id
    ensures VariantAllowed(options, option, AllowsRetired(kind)) <==>
      if options == [] then option == None
      else option.Some? && exists i :: 0 <= i < |options| && options[i].id == option.value
                                       && (options[i].isActive || (kind != Ledger.Receipt && kind != Ledger.Sale))
  {
    if option.Some? && exists i :: 0 <= i < |options| && options[i].id == option.value {
      var i :| 0 <= i < |options| && options[i].id == option.value;
      ActiveIs(options, i);
    }
  }

  lemma {:induction false} ActiveIs(options: seq<KnownVariant>, i: nat)
    requires i < |options| && forall i, j :: 0 <= i < j < |options| ==> options[i].id != options[j].id
    ensures ActiveFirst(options, options[i].id) <==> options[i].isActive
  {
    if i > 0 {
      assert options[0].id != options[i].id;
      ActiveIs(options[1..], i - 1);
    }
  }
}
