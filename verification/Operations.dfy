/**
 * The operations built on stock in and stock out: opening stock in bulk, moving
 * a product's stock into its first option, transfers and adjustments
 * (src/modules/inventory/stock.service.ts:180-238, 411-466;
 * src/modules/inventory/stock-operations.service.ts).
 */
module Operations {
  import opened Common
  import opened Ledger
  import opened Stock
  import Fefo

  // -- Many new lots at once --------------------------------------------------

  datatype NewLotLine = NewLotLine(
    product: Id, option: Option<Id>, location: Id, quantity: int, kind: Kind, occurredAt: Time,
    expiry: Option<Time>, totalCost: int, quantityPaidFor: int)

  function LineKey(line: NewLotLine, lot: Id): Key {
    Key(line.product, line.option, line.location, lot)
  }

  function LineLot(line: NewLotLine): Lot {
    Lot(line.product, line.expiry, line.occurredAt, line.quantity, line.quantityPaidFor, line.totalCost)
  }

  function LineMoves(lines: seq<NewLotLine>, ids: seq<Id>): (ms: seq<Movement>)
    requires |ids| == |lines|
    ensures |ms| == |lines|
    ensures forall i :: 0 <= i < |ms| ==> ms[i].key == LineKey(lines[i], ids[i]) && !ms[i].forced
  {
    if lines == [] then []
    else
      [Movement(LineKey(lines[0], ids[0]), lines[0].quantity, lines[0].kind, None, false, "")]
      + LineMoves(lines[1..], ids[1..])
  }

  function RowsOf(ms: seq<Movement>): (rows: seq<Row>)
    ensures |rows| == |ms|
    ensures forall i :: 0 <= i < |ms| ==> rows[i] == Row(ms[i].key, ms[i].quantity)
  {
    if ms == [] then [] else [Row(ms[0].key, ms[0].quantity)] + RowsOf(ms[1..])
  }

  function LineLots(lots: map<Id, Lot>, lines: seq<NewLotLine>, ids: seq<Id>): (r: map<Id, Lot>)
    requires |ids| == |lines|
    ensures lots.Keys <= r.Keys
    ensures forall i :: 0 <= i < |ids| ==> ids[i] in r
    decreases lines
  {
    if lines == [] then lots
    else
      var r := LineLots(lots[ids[0] := LineLot(lines[0])], lines[1..], ids[1..]);
      assert forall i :: 0 < i < |ids| ==> ids[1..][i - 1] == ids[i];
      r
  }

  /** `recordNewLots`: three bulk inserts, with no look at the rows already there. */
  function NewLots(b: Books, lines: seq<NewLotLine>, ids: seq<Id>): Result<Books, Refusal>
    requires |ids| == |lines|
  {
    if exists i :: 0 <= i < |lines| && lines[i].quantity <= 0 then Err(NotPositive)
    else if exists i :: 0 <= i < |lines| && !VariantAllowed(OptionsOf(b, lines[i].product), lines[i].option, false) then
      Err(OptionRefused)
    else
      Ok(b.(movements := b.movements + LineMoves(lines, ids),
            balances := b.balances + RowsOf(LineMoves(lines, ids)),
            lots := LineLots(b.lots, lines, ids)))
  }

  predicate Fresh(b: Books, ids: seq<Id>) {
    && (forall i :: 0 <= i < |ids| ==> ids[i] !in b.lots)
    && Distinct(ids)
  }

  predicate Distinct(ids: seq<Id>) {
    forall i, j :: 0 <= i < j < |ids| ==> ids[i] != ids[j]
  }

  /** Each movement is the first ever at its key. */
  predicate AllNew(rows: seq<Row>, ms: seq<Movement>) {
    && (forall i :: 0 <= i < |ms| ==> !HasRow(rows, ms[i].key))
    && (forall i, j :: 0 <= i < j < |ms| ==> ms[i].key != ms[j].key)
  }

  lemma {:induction false} NewKeysAppend(b: Books, ms: seq<Movement>)
    requires AllNew(b.balances, ms)
    ensures PostAll(b, ms) == b.(movements := b.movements + ms, balances := b.balances + RowsOf(ms))
    decreases ms
  {
    if ms == [] {
      assert b.movements + ms == b.movements && b.balances + RowsOf(ms) == b.balances;
    } else {
      var row := Row(ms[0].key, ms[0].quantity);
      var b1 := b.(movements := b.movements + [ms[0]], balances := b.balances + [row]);
      assert Post(b, ms[0]) == b1 && AllNew(b1.balances, ms[1..]) by {
        NewKeysStayNew(b.balances, ms);
      }
      NewKeysAppend(b1, ms[1..]);
      AppendInPieces(b, ms);
    }
  }

  lemma {:induction false} AppendInPieces(b: Books, ms: seq<Movement>)
    requires ms != []
    ensures (b.movements + [ms[0]]) + ms[1..] == b.movements + ms
    ensures (b.balances + [Row(ms[0].key, ms[0].quantity)]) + RowsOf(ms[1..]) == b.balances + RowsOf(ms)
  {
  }

  lemma {:induction false} NewKeysStayNew(rows: seq<Row>, ms: seq<Movement>)
    requires ms != [] && AllNew(rows, ms)
    ensures Increment(rows, ms[0].key, ms[0].quantity) == rows + [Row(ms[0].key, ms[0].quantity)]
    ensures AllNew(rows + [Row(ms[0].key, ms[0].quantity)], ms[1..])
  {
    assert !HasRow(rows, ms[0].key);
    forall i | 0 <= i < |ms[1..]|
      ensures !HasRow(rows + [Row(ms[0].key, ms[0].quantity)], ms[1..][i].key)
    {
      assert !HasRow(rows, ms[i + 1].key);
    }
  }

  /** Bulk opening stock writes what one movement at a time would have: the ledger cannot tell them apart. */
  lemma {:induction false} NewLotsIsPostedOneByOne(b: Books, lines: seq<NewLotLine>, ids: seq<Id>)
    requires |ids| == |lines| && Sound(b) && Fresh(b, ids) && NewLots(b, lines, ids).Ok?
    ensures NewLots(b, lines, ids).value == PostAll(b.(lots := LineLots(b.lots, lines, ids)), LineMoves(lines, ids))
  {
    var ms := LineMoves(lines, ids);
    forall i | 0 <= i < |ms|
      ensures !HasRow(b.balances, ms[i].key)
    {
      if HasRow(b.balances, ms[i].key) {
        RowsOnLots(b, ms[i].key);
        assert false;
      }
    }
    NewKeysAppend(b.(lots := LineLots(b.lots, lines, ids)), ms);
  }

  lemma {:induction false} NewLotsKeeps(b: Books, lines: seq<NewLotLine>, ids: seq<Id>)
    requires |ids| == |lines| && Sound(b) && Fresh(b, ids) && NewLots(b, lines, ids).Ok?
    ensures Sound(NewLots(b, lines, ids).value)
    ensures Accounted(b) ==> Accounted(NewLots(b, lines, ids).value)
  {
    var b1 := b.(lots := LineLots(b.lots, lines, ids));
    var ms := LineMoves(lines, ids);
    NewLotsIsPostedOneByOne(b, lines, ids);
    MoreLots(b, b1.lots);
    PostAllSound(b1, ms);
    PostAllWrites(b1, ms);
    if Accounted(b) {
      LineMovesPositive(lines, ids);
      PositiveKeepsAccounted(b1, ms);
    }
  }

  lemma {:induction false} LineMovesPositive(lines: seq<NewLotLine>, ids: seq<Id>)
    requires |ids| == |lines|
    requires forall i :: 0 <= i < |lines| ==> lines[i].quantity > 0
    ensures forall i :: 0 <= i < |lines| ==> LineMoves(lines, ids)[i].quantity > 0
  {
    if lines != [] {
      LineMovesPositive(lines[1..], ids[1..]);
    }
  }

  lemma {:induction false} PositiveSum(ms: seq<Movement>, s: Scope)
    requires forall i :: 0 <= i < |ms| ==> ms[i].quantity > 0
    ensures MoveSum(ms, s) >= 0
  {
    if ms != [] {
      PositiveSum(ms[1..], s);
    }
  }

  /** Stock coming in explains nothing and needs no explaining. */
  lemma {:induction false} PositiveKeepsAccounted(b: Books, ms: seq<Movement>)
    requires UniqueKeys(b.balances) && Accounted(b)
    requires forall i :: 0 <= i < |ms| ==> ms[i].quantity > 0
    ensures Accounted(PostAll(b, ms))
  {
    PostAllWrites(b, ms);
    forall k: Key | RowSum(PostAll(b, ms).balances, AtKey(k)) < 0
      ensures Explained(PostAll(b, ms).movements, k)
    {
      PostAllSum(b, ms, AtKey(k));
      PositiveSum(ms, AtKey(k));
      ExplainedLater(b.movements, ms, k);
    }
  }

  // -- A product's stock into its first option --------------------------------

  /** For each balance under no option: out of none, into the option, on the same lot. */
  function Halves(rows: seq<Row>, product: Id, option: Id): seq<Movement> {
    if rows == [] then []
    else
      var rest := Halves(rows[1..], product, option);
      if rows[0].key.product == product && rows[0].key.option.None? && rows[0].quantity != 0 then
        [Movement(rows[0].key, -rows[0].quantity, TransferOut, None, false, ""),
         Movement(rows[0].key.(option := Some(option)), rows[0].quantity, TransferIn, None, false, "")] + rest
      else
        rest
  }

  /** `moveIntoVariant`. */
  function MoveIntoVariant(b: Books, product: Id, option: Id): Books {
    PostAll(b, Halves(b.balances, product, option))
  }

  lemma {:induction false} HalvesCons(a: Movement, c: Movement, rest: seq<Movement>, s: Scope)
    ensures MoveSum([a, c] + rest, s)
         == (if Covers(s, a.key) then a.quantity else 0) + (if Covers(s, c.key) then c.quantity else 0) + MoveSum(rest, s)
  {
    var ms := [a, c] + rest;
    assert ms[1..] == [c] + rest;
    assert ms[1..][1..] == rest;
  }

  /** Each balance under no option leaves it and arrives whole under the option, the negative ones too. */
  lemma {:induction false} HalvesAtKey(rows: seq<Row>, product: Id, option: Id, k: Key)
    ensures MoveSum(Halves(rows, product, option), AtKey(k))
         == if k.product != product then 0
            else if k.option.None? then -RowSum(rows, AtKey(k))
            else if k.option == Some(option) then RowSum(rows, AtKey(k.(option := None)))
            else 0
  {
    if rows != [] {
      HalvesAtKey(rows[1..], product, option, k);
      var q := rows[0].quantity;
      HalvesCons(Movement(rows[0].key, -q, TransferOut, None, false, ""),
                 Movement(rows[0].key.(option := Some(option)), q, TransferIn, None, false, ""),
                 Halves(rows[1..], product, option), AtKey(k));
      assert rows[0].key.(option := Some(option)) == k && rows[0].key.option.None? ==> rows[0].key == k.(option := None);
    }
  }

  /** Questions that do not tell options apart. */
  predicate BlindToOptions(s: Scope) {
    s.Everything? || s.OfLot? || s.OfProduct?
  }

  lemma {:induction false} HalvesNetToNothing(rows: seq<Row>, product: Id, option: Id, s: Scope)
    requires BlindToOptions(s)
    ensures MoveSum(Halves(rows, product, option), s) == 0
  {
    if rows != [] {
      HalvesNetToNothing(rows[1..], product, option, s);
      var q := rows[0].quantity;
      HalvesCons(Movement(rows[0].key, -q, TransferOut, None, false, ""),
                 Movement(rows[0].key.(option := Some(option)), q, TransferIn, None, false, ""),
                 Halves(rows[1..], product, option), s);
    }
  }

  lemma {:induction false} HalvesOnLots(b: Books, rows: seq<Row>, product: Id, option: Id)
    requires forall i :: 0 <= i < |rows| ==> rows[i].key.lot in b.lots
    ensures OnLots(Halves(rows, product, option), b.lots)
  {
    if rows != [] {
      HalvesOnLots(b, rows[1..], product, option);
    }
  }

  lemma {:induction false} AllRowsOnLots(b: Books)
    requires Sound(b)
    ensures forall i :: 0 <= i < |b.balances| ==> b.balances[i].key.lot in b.lots
  {
    forall i | 0 <= i < |b.balances|
      ensures b.balances[i].key.lot in b.lots
    {
      assert HasRow(b.balances, b.balances[i].key);
      RowsOnLots(b, b.balances[i].key);
    }
  }

  /** Everything the product held under no option is under the option afterwards, lot by lot; no total moves. */
  lemma {:induction false} MoveIntoVariantMovesItAll(b: Books, product: Id, option: Id, k: Key, s: Scope)
    requires Sound(b) && k.product == product && BlindToOptions(s)
    ensures var b' := MoveIntoVariant(b, product, option);
      && RowSum(b'.balances, AtKey(k.(option := None))) == 0
      && RowSum(b'.balances, AtKey(k.(option := Some(option))))
           == RowSum(b.balances, AtKey(k.(option := Some(option)))) + RowSum(b.balances, AtKey(k.(option := None)))
      && RowSum(b'.balances, s) == RowSum(b.balances, s)
      && b'.lots == b.lots
  {
    var ms := Halves(b.balances, product, option);
    PostAllWrites(b, ms);
    PostAllSum(b, ms, AtKey(k.(option := None)));
    PostAllSum(b, ms, AtKey(k.(option := Some(option))));
    PostAllSum(b, ms, s);
    HalvesAtKey(b.balances, product, option, k.(option := None));
    HalvesAtKey(b.balances, product, option, k.(option := Some(option)));
    HalvesNetToNothing(b.balances, product, option, s);
  }

  /** A negative balance carried to the option is still explained by the movement that forced it. */
  lemma {:induction false} MoveIntoVariantKeeps(b: Books, product: Id, option: Id)
    requires Sound(b)
    ensures Sound(MoveIntoVariant(b, product, option))
    ensures Accounted(b) ==> Accounted(MoveIntoVariant(b, product, option))
  {
    var ms := Halves(b.balances, product, option);
    AllRowsOnLots(b);
    HalvesOnLots(b, b.balances, product, option);
    PostAllSound(b, ms);
    PostAllWrites(b, ms);
    if Accounted(b) {
      forall k: Key | RowSum(PostAll(b, ms).balances, AtKey(k)) < 0
        ensures Explained(PostAll(b, ms).movements, k)
      {
        PostAllSum(b, ms, AtKey(k));
        HalvesAtKey(b.balances, product, option, k);
        if RowSum(b.balances, AtKey(k)) >= 0 {
          assert RowSum(b.balances, AtKey(k.(option := None))) < 0;
          ExplainedForAnyOption(b.movements, k.(option := None), k);
        }
        ExplainedLater(b.movements, ms, k);
      }
    }
  }

  lemma {:induction false} ExplainedForAnyOption(ms: seq<Movement>, k: Key, k': Key)
    requires Explained(ms, k) && k'.product == k.product && k'.location == k.location && k'.lot == k.lot
    ensures Explained(ms, k')
  {
    var i :| 0 <= i < |ms| && Explains(ms[i], k);
    assert Explains(ms[i], k');
  }

  // -- Transfers --------------------------------------------------------------

  /** What left, arriving lot for lot at the other location. */
  function Arrivals(left: seq<Movement>, to: Id): (ms: seq<Movement>)
    ensures |ms| == |left|
    ensures forall i :: 0 <= i < |ms| ==>
      ms[i].key == left[i].key.(location := to) && ms[i].quantity == Abs(left[i].quantity) && !ms[i].forced
  {
    if left == [] then []
    else
      [Movement(left[0].key.(location := to), Abs(left[0].quantity), TransferIn, None, false, "")]
      + Arrivals(left[1..], to)
  }

  /** `transfer`. */
  function Transfer(b: Books, inp: OutboundInput, to: Id, placeholder: Id): Result<Books, Refusal> {
    if inp.location == to then Err(SameLocation)
    else
      var t :- Outbound(b, inp.(kind := TransferOut, pinned := None, reference := None), placeholder);
      Ok(PostAll(t.books, Arrivals(t.written, to)))
  }

  lemma {:induction false} ArrivalsUndoDepartures(left: seq<Movement>, to: Id, s: Scope)
    requires forall i :: 0 <= i < |left| ==> left[i].quantity <= 0
    requires s.Everything? || s.OfLot?
    ensures MoveSum(left, s) + MoveSum(Arrivals(left, to), s) == 0
  {
    if left != [] {
      ArrivalsUndoDepartures(left[1..], to, s);
    }
  }

  lemma {:induction false} OutboundWritesPositive(b: Books, inp: OutboundInput, placeholder: Id)
    requires Outbound(b, inp, placeholder).Ok?
    ensures forall i :: 0 <= i < |Outbound(b, inp, placeholder).value.written| ==>
      Outbound(b, inp, placeholder).value.written[i].quantity < 0
  {
    OutboundShape(b, inp, placeholder);
    Fefo.TakenIsCovered(Fefo.SortFefo(Available(b.lots, b.balances, inp)), inp.quantity);
  }

  /** A transfer changes where stock is and nothing else: no lot and no total gains or loses a unit. */
  lemma {:induction false} TransferConserves(b: Books, inp: OutboundInput, to: Id, placeholder: Id, s: Scope)
    requires Sound(b) && Transfer(b, inp, to, placeholder).Ok?
    requires s.Everything? || s.OfLot?
    ensures RowSum(Transfer(b, inp, to, placeholder).value.balances, s) == RowSum(b.balances, s)
  {
    var inp' := inp.(kind := TransferOut, pinned := None, reference := None);
    var t := Outbound(b, inp', placeholder).value;
    OutboundShape(b, inp', placeholder);
    OutboundSound(b, inp', placeholder);
    OutboundWritesPositive(b, inp', placeholder);
    PostAllSum(b.(lots := LotsAfter(b, inp', placeholder)), t.written, s);
    PostAllSum(t.books, Arrivals(t.written, to), s);
    ArrivalsUndoDepartures(t.written, to, s);
  }

  /** Exactly the quantity asked for leaves one location and arrives at the other. */
  lemma {:induction false} TransferOnHand(b: Books, inp: OutboundInput, to: Id, placeholder: Id)
    requires Sound(b) && Transfer(b, inp, to, placeholder).Ok?
    ensures var b' := Transfer(b, inp, to, placeholder).value;
      && OnHand(b', inp.product, inp.option, inp.location) == OnHand(b, inp.product, inp.option, inp.location) - inp.quantity
      && OnHand(b', inp.product, inp.option, to) == OnHand(b, inp.product, inp.option, to) + inp.quantity
  {
    var inp' := inp.(kind := TransferOut, pinned := None, reference := None);
    var t := Outbound(b, inp', placeholder).value;
    OutboundSound(b, inp', placeholder);
    OutboundShape(b, inp', placeholder);
    OutboundWritesPositive(b, inp', placeholder);
    OutboundOnHand(b, inp', placeholder, inp.product, inp.option, inp.location);
    OutboundOnHand(b, inp', placeholder, inp.product, inp.option, to);
    var there, here := OfItem(inp.product, inp.option, to), OfItem(inp.product, inp.option, inp.location);
    PostAllSum(t.books, Arrivals(t.written, to), there);
    PostAllSum(t.books, Arrivals(t.written, to), here);
    ArrivalsAtItem(inp', Allocations(b, inp', placeholder), IsForced(b, inp'), to);
    AllocationsTotal(b, inp', placeholder);
  }

  lemma {:induction false} ArrivalsAtItem(inp: OutboundInput, a: seq<Fefo.Allocation>, forced: bool, to: Id)
    requires to != inp.location
    ensures MoveSum(Arrivals(OutMoves(inp, a, forced), to), OfItem(inp.product, inp.option, to)) == Fefo.Taken(a)
    ensures MoveSum(Arrivals(OutMoves(inp, a, forced), to), OfItem(inp.product, inp.option, inp.location)) == 0
  {
    if a != [] {
      ArrivalsAtItem(inp, a[1..], forced, to);
    }
  }

  lemma {:induction false} TransferKeeps(b: Books, inp: OutboundInput, to: Id, placeholder: Id)
    requires Sound(b) && Transfer(b, inp, to, placeholder).Ok?
    ensures Sound(Transfer(b, inp, to, placeholder).value)
    ensures Accounted(b) ==> Accounted(Transfer(b, inp, to, placeholder).value)
  {
    var inp' := inp.(kind := TransferOut, pinned := None, reference := None);
    var t := Outbound(b, inp', placeholder).value;
    OutboundShape(b, inp', placeholder);
    OutboundSound(b, inp', placeholder);
    OutboundAppends(b, inp', placeholder);
    OutboundOnLots(b, inp', placeholder);
    OutboundWritesPositive(b, inp', placeholder);
    PostAllSound(t.books, Arrivals(t.written, to));
    if Accounted(b) {
      OutboundAccounted(b, inp', placeholder);
      PositiveKeepsAccounted(t.books, Arrivals(t.written, to));
    }
  }

  // -- Adjustments ------------------------------------------------------------

  /** Writing stock off, or on: into the lot named, or into one opened for it. */
  function Adjust(b: Books, inp: OutboundInput, delta: int, totalCost: int, expiry: Option<Time>, newLot: Id): Result<Books, Refusal> {
    if delta < 0 then
      var kind := if inp.kind == Damage then Damage else Adjustment;
      var t :- Outbound(b, inp.(quantity := -delta, kind := kind), newLot);
      Ok(t.books)
    else if inp.pinned.Some? then
      Inbound(b, LotKey(inp, inp.pinned.value), delta, Adjustment, None)
    else
      Inbound(b.(lots := b.lots[newLot := Lot(inp.product, expiry, inp.now, delta, 0, totalCost)]),
              LotKey(inp, newLot), delta, Adjustment, None)
  }

  lemma {:induction false} AdjustKeeps(b: Books, inp: OutboundInput, delta: int, totalCost: int, expiry: Option<Time>, newLot: Id)
    requires Sound(b) && Adjust(b, inp, delta, totalCost, expiry, newLot).Ok?
    ensures Sound(Adjust(b, inp, delta, totalCost, expiry, newLot).value)
    ensures Accounted(b) ==> Accounted(Adjust(b, inp, delta, totalCost, expiry, newLot).value)
    ensures OnHand(Adjust(b, inp, delta, totalCost, expiry, newLot).value, inp.product, inp.option, inp.location)
         == OnHand(b, inp.product, inp.option, inp.location) + delta
  {
    if delta < 0 {
      var inp' := inp.(quantity := -delta, kind := if inp.kind == Damage then Damage else Adjustment);
      OutboundSound(b, inp', newLot);
      OutboundOnHand(b, inp', newLot, inp.product, inp.option, inp.location);
      if Accounted(b) {
        OutboundAccounted(b, inp', newLot);
      }
    } else if inp.pinned.Some? {
      var key := LotKey(inp, inp.pinned.value);
      InboundKeeps(b, key, delta, Adjustment, None);
      InboundOnHand(b, key, delta, Adjustment, None, inp.product, inp.option, inp.location);
    } else {
      var b1 := b.(lots := b.lots[newLot := Lot(inp.product, expiry, inp.now, delta, 0, totalCost)]);
      MoreLots(b, b1.lots);
      InboundKeeps(b1, LotKey(inp, newLot), delta, Adjustment, None);
      InboundOnHand(b1, LotKey(inp, newLot), delta, Adjustment, None, inp.product, inp.option, inp.location);
    }
  }
}
