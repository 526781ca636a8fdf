/**
 * What the stock service writes: the specification of every ledger operation,
 * and what each one keeps (src/modules/inventory/stock.service.ts,
 * src/modules/inventory/stock-operations.service.ts).
 */
module Stock {
  import opened Common
  import opened Ledger
  import Fefo

  /** One request to take stock out. `mayForce` is the role check; `now` dates a placeholder lot. */
  datatype OutboundInput = OutboundInput(
    product: Id, option: Option<Id>, location: Id, quantity: int, kind: Kind, reference: Option<Cause>,
    pinned: Option<Id>, force: bool, forcedReason: string, mayForce: bool, now: Time)

  /** What an outbound request wrote. */
  datatype Taken = Taken(books: Books, written: seq<Movement>)

  // -- Stock in ---------------------------------------------------------------

  function Inbound(b: Books, key: Key, quantity: int, kind: Kind, reference: Option<Cause>): Result<Books, Refusal> {
    if quantity <= 0 then Err(NotPositive)
    else if !VariantAllowed(OptionsOf(b, key.product), key.option, AllowsRetired(kind)) then Err(OptionRefused)
    else if key.lot !in b.lots then Err(NoSuchLot)
    else Ok(Post(b, Movement(key, quantity, kind, reference, false, "")))
  }

  // -- Stock out --------------------------------------------------------------

  function LotKey(inp: OutboundInput, lot: Id): Key {
    Key(inp.product, inp.option, inp.location, lot)
  }

  function BatchOf(lots: map<Id, Lot>, row: Row): Fefo.Batch {
    if row.key.lot in lots then
      Fefo.Batch(row.key.lot, row.quantity, lots[row.key.lot].expiry, lots[row.key.lot].receivedAt)
    else
      Fefo.Batch(row.key.lot, row.quantity, None, 0)
  }

  predicate Matches(inp: OutboundInput, row: Row) {
    row.key.product == inp.product && row.key.option == inp.option && row.key.location == inp.location
  }

  /** `availableBatches`: the item's lots that hold stock here, or the pinned one if it does. */
  function Available(lots: map<Id, Lot>, rows: seq<Row>, inp: OutboundInput): seq<Fefo.Batch> {
    if rows == [] then []
    else
      var rest := Available(lots, rows[1..], inp);
      if Matches(inp, rows[0]) && rows[0].quantity > 0 && (inp.pinned.None? || rows[0].key.lot == inp.pinned.value) then
        [BatchOf(lots, rows[0])] + rest
      else
        rest
  }

  /** Every lot the item has ever had here, empty or negative ones too. */
  function Known(lots: map<Id, Lot>, rows: seq<Row>, inp: OutboundInput): seq<Fefo.Batch> {
    if rows == [] then []
    else
      var rest := Known(lots, rows[1..], inp);
      if Matches(inp, rows[0]) then [BatchOf(lots, rows[0])] + rest else rest
  }

  /** The existing lot that carries a shortfall; `None` when a placeholder must be made. */
  function Bearer(b: Books, inp: OutboundInput): Option<Id> {
    if inp.pinned.Some? then inp.pinned
    else
      var known := Known(b.lots, b.balances, inp);
      if known == [] then None else Some(Fefo.SortFefo(known)[0].lot)
  }

  /** One movement per allocation, all of them marked when the pick was forced. */
  function OutMoves(inp: OutboundInput, allocations: seq<Fefo.Allocation>, forced: bool): (ms: seq<Movement>)
    ensures |ms| == |allocations|
    ensures forall i :: 0 <= i < |ms| ==>
      ms[i] == Movement(LotKey(inp, allocations[i].lot), 0 - allocations[i].quantity, inp.kind, inp.reference, forced,
                        if forced then inp.forcedReason else "")
  {
    if allocations == [] then []
    else
      [Movement(LotKey(inp, allocations[0].lot), 0 - allocations[0].quantity, inp.kind, inp.reference, forced,
                if forced then inp.forcedReason else "")]
      + OutMoves(inp, allocations[1..], forced)
  }

  function Placeholder(inp: OutboundInput): Lot {
    Lot(inp.product, None, inp.now, 0, 0, 0)
  }

  /** The lot that carries a shortfall, and the lots once it exists. */
  datatype Covered = Covered(lots: map<Id, Lot>, lot: Id)

  /** Whether a shortfall may be forced through, and onto which lot (`assertMayForce`, `batchToBearShortfall`). */
  function Cover(b: Books, inp: OutboundInput, shortfall: nat, placeholder: Id): Result<Covered, Refusal> {
    if !inp.force then Err(NotEnough(shortfall))
    else if !inp.mayForce then Err(MayNotForce)
    else if Blank(inp.forcedReason) then Err(NoForcedReason)
    else
      match Bearer(b, inp)
      case Some(lot) => if lot in b.lots then Ok(Covered(b.lots, lot)) else Err(NoSuchLot)
      case None => Ok(Covered(b.lots[placeholder := Placeholder(inp)], placeholder))
  }

  /** `recordOutbound`. `placeholder` is the id a placeholder lot would get. */
  function Outbound(b: Books, inp: OutboundInput, placeholder: Id): Result<Taken, Refusal> {
    if inp.quantity <= 0 then Err(NotPositive)
    else if !VariantAllowed(OptionsOf(b, inp.product), inp.option, AllowsRetired(inp.kind)) then Err(OptionRefused)
    else
      var available := Available(b.lots, b.balances, inp);
      var picks := Fefo.Picks(Fefo.SortFefo(available), inp.quantity);
      var shortfall := Max(0, inp.quantity - Fefo.Stock(available));
      if shortfall == 0 then
        var ms := OutMoves(inp, picks, false);
        Ok(Taken(PostAll(b, ms), ms))
      else
        var covered :- Cover(b, inp, shortfall, placeholder);
        var ms := OutMoves(inp, picks + [Fefo.Allocation(covered.lot, shortfall)], true);
        Ok(Taken(PostAll(b.(lots := covered.lots), ms), ms))
  }

  // -- What a pick reads ------------------------------------------------------

  lemma {:induction false} AvailableComesFromRows(lots: map<Id, Lot>, rows: seq<Row>, inp: OutboundInput, x: Fefo.Batch)
    requires x in Available(lots, rows, inp)
    ensures Row(LotKey(inp, x.lot), x.quantity) in rows
  {
    if rows != [] {
      assert rows == [rows[0]] + rows[1..];
      if x in Available(lots, rows[1..], inp) {
        AvailableComesFromRows(lots, rows[1..], inp, x);
      } else {
        assert x == BatchOf(lots, rows[0]);
        assert rows[0] == Row(LotKey(inp, x.lot), x.quantity);
      }
    }
  }

  lemma {:induction false} AvailableIsDistinct(lots: map<Id, Lot>, rows: seq<Row>, inp: OutboundInput)
    requires UniqueKeys(rows)
    ensures Fefo.DistinctLots(Available(lots, rows, inp))
  {
    if rows != [] {
      AvailableIsDistinct(lots, rows[1..], inp);
      var rest := Available(lots, rows[1..], inp);
      forall i | 0 <= i < |rest| && Matches(inp, rows[0])
        ensures rest[i].lot != rows[0].key.lot
      {
        AvailableComesFromRows(lots, rows[1..], inp, rest[i]);
        var j :| 0 <= j < |rows[1..]| && rows[1..][j] == Row(LotKey(inp, rest[i].lot), rest[i].quantity);
        assert rows[j + 1].key != rows[0].key;
      }
    }
  }

  /** The stock a pick can draw on is never less than what is on hand: negative lots do not count against it. */
  lemma {:induction false} AvailableCoversOnHand(lots: map<Id, Lot>, rows: seq<Row>, inp: OutboundInput)
    requires inp.pinned.None?
    ensures Fefo.Stock(Available(lots, rows, inp)) >= RowSum(rows, OfItem(inp.product, inp.option, inp.location))
  {
    if rows != [] {
      AvailableCoversOnHand(lots, rows[1..], inp);
    }
  }

  lemma {:induction false} SortedMember(s: seq<Fefo.Batch>, x: Fefo.Batch)
    ensures x in Fefo.SortFefo(s) <==> x in s
  {
    Fefo.SameMembers(Fefo.SortFefo(s), s, x);
  }

  /** A pick never draws more from a lot than the lot has. */
  lemma {:induction false} PickWithinBalance(b: Books, inp: OutboundInput, quantity: nat, lot: Id)
    requires UniqueKeys(b.balances)
    ensures Fefo.TakenFrom(Fefo.Picks(Fefo.SortFefo(Available(b.lots, b.balances, inp)), quantity), lot)
         <= Max(0, RowSum(b.balances, AtKey(LotKey(inp, lot))))
  {
    var available := Available(b.lots, b.balances, inp);
    var sorted := Fefo.SortFefo(available);
    AvailableIsDistinct(b.lots, b.balances, inp);
    Fefo.SortKeepsDistinct(available);
    if exists i :: 0 <= i < |sorted| && sorted[i].lot == lot {
      var i :| 0 <= i < |sorted| && sorted[i].lot == lot;
      Fefo.EachLotDraws(sorted, quantity, i);
      SortedMember(available, sorted[i]);
      AvailableComesFromRows(b.lots, b.balances, inp, sorted[i]);
      var j :| 0 <= j < |b.balances| && b.balances[j] == Row(LotKey(inp, lot), sorted[i].quantity);
      RowIsSum(b.balances, j);
    } else {
      Fefo.NothingFromElsewhere(sorted, quantity, lot);
    }
  }

  lemma {:induction false} PicksOnKnownLots(b: Books, inp: OutboundInput, quantity: nat)
    requires Sound(b)
    ensures forall i :: 0 <= i < |Fefo.Picks(Fefo.SortFefo(Available(b.lots, b.balances, inp)), quantity)| ==>
      Fefo.Picks(Fefo.SortFefo(Available(b.lots, b.balances, inp)), quantity)[i].lot in b.lots
  {
    var sorted := Fefo.SortFefo(Available(b.lots, b.balances, inp));
    forall i | 0 <= i < |sorted|
      ensures sorted[i].lot in b.lots
    {
      SortedMember(Available(b.lots, b.balances, inp), sorted[i]);
      AvailableComesFromRows(b.lots, b.balances, inp, sorted[i]);
      RowsOnLots(b, LotKey(inp, sorted[i].lot));
    }
    PicksOnLots(sorted, quantity, b.lots);
  }

  lemma {:induction false} RowsOnLots(b: Books, k: Key)
    requires Sound(b) && HasRow(b.balances, k)
    ensures k.lot in b.lots
  {
    assert HasMove(b.movements, k);
  }

  lemma {:induction false} PicksOnLots(s: seq<Fefo.Batch>, quantity: nat, lots: map<Id, Lot>)
    requires forall i :: 0 <= i < |s| ==> s[i].lot in lots
    ensures forall i :: 0 <= i < |Fefo.Picks(s, quantity)| ==> Fefo.Picks(s, quantity)[i].lot in lots
  {
    if s == [] || quantity == 0 {
    } else if s[0].quantity <= 0 {
      PicksOnLots(s[1..], quantity, lots);
    } else {
      PicksOnLots(s[1..], quantity - Min(s[0].quantity, quantity), lots);
    }
  }

  // -- What a pick writes -----------------------------------------------------

  lemma {:induction false} OutMovesAtKey(inp: OutboundInput, a: seq<Fefo.Allocation>, forced: bool, k: Key)
    ensures MoveSum(OutMoves(inp, a, forced), AtKey(k))
         == if k == LotKey(inp, k.lot) then 0 - Fefo.TakenFrom(a, k.lot) else 0
  {
    if a != [] {
      OutMovesAtKey(inp, a[1..], forced, k);
    }
  }

  lemma {:induction false} OutMovesOfItem(inp: OutboundInput, a: seq<Fefo.Allocation>, forced: bool,
                                          product: Id, option: Option<Id>, location: Id)
    ensures MoveSum(OutMoves(inp, a, forced), OfItem(product, option, location))
         == if product == inp.product && option == inp.option && location == inp.location then 0 - Fefo.Taken(a) else 0
  {
    if a != [] {
      OutMovesOfItem(inp, a[1..], forced, product, option, location);
    }
  }

  lemma {:induction false} TakenConcat(a: seq<Fefo.Allocation>, x: Fefo.Allocation, lot: Id)
    ensures Fefo.Taken(a + [x]) == Fefo.Taken(a) + x.quantity
    ensures Fefo.TakenFrom(a + [x], lot) == Fefo.TakenFrom(a, lot) + if x.lot == lot then x.quantity else 0
  {
    if a != [] {
      assert (a + [x])[1..] == a[1..] + [x];
      TakenConcat(a[1..], x, lot);
    }
  }

  /** What the allocations of a successful request come to, and where they fall. */
  function Allocations(b: Books, inp: OutboundInput, placeholder: Id): seq<Fefo.Allocation>
    requires inp.quantity > 0
  {
    var available := Available(b.lots, b.balances, inp);
    var picks := Fefo.Picks(Fefo.SortFefo(available), inp.quantity);
    var shortfall := Max(0, inp.quantity - Fefo.Stock(available));
    if shortfall == 0 then picks
    else
      var bearer := Bearer(b, inp);
      picks + [Fefo.Allocation(if bearer.Some? then bearer.value else placeholder, shortfall)]
  }

  predicate IsForced(b: Books, inp: OutboundInput) {
    inp.quantity > Fefo.Stock(Available(b.lots, b.balances, inp))
  }

  /** The lots a successful request leaves: a placeholder more, when nothing else could carry the shortfall. */
  function LotsAfter(b: Books, inp: OutboundInput, placeholder: Id): map<Id, Lot> {
    if IsForced(b, inp) && Bearer(b, inp).None? then b.lots[placeholder := Placeholder(inp)] else b.lots
  }

  lemma {:induction false} OutboundShape(b: Books, inp: OutboundInput, placeholder: Id)
    requires Outbound(b, inp, placeholder).Ok?
    ensures inp.quantity > 0
    ensures Outbound(b, inp, placeholder).value.written
         == OutMoves(inp, Allocations(b, inp, placeholder), IsForced(b, inp))
    ensures Outbound(b, inp, placeholder).value.books
         == PostAll(b.(lots := LotsAfter(b, inp, placeholder)), Outbound(b, inp, placeholder).value.written)
    ensures IsForced(b, inp) ==> inp.force && inp.mayForce && !Blank(inp.forcedReason)
  {
    assert b.(lots := b.lots) == b;
  }

  /** An outbound request takes exactly what it asks for, whatever it had to force. */
  lemma {:induction false} AllocationsTotal(b: Books, inp: OutboundInput, placeholder: Id)
    requires inp.quantity > 0
    ensures Fefo.Taken(Allocations(b, inp, placeholder)) == inp.quantity
  {
    hide Available, Bearer, Fefo.SortFefo, Fefo.Picks, Fefo.Stock;
    var available := Available(b.lots, b.balances, inp);
    var sorted := Fefo.SortFefo(available);
    Fefo.StockOfSorted(available);
    Fefo.TakenIsCovered(sorted, inp.quantity);
    var bearer := Bearer(b, inp);
    TakenConcat(Fefo.Picks(sorted, inp.quantity),
                Fefo.Allocation(if bearer.Some? then bearer.value else placeholder,
                                Max(0, inp.quantity - Fefo.Stock(available))), 0);
  }

  lemma {:induction false} MoreLots(b: Books, lots: map<Id, Lot>)
    requires Sound(b) && b.lots.Keys <= lots.Keys
    ensures Sound(b.(lots := lots))
  {
  }

  lemma {:induction false} OutboundOnLots(b: Books, inp: OutboundInput, placeholder: Id)
    requires Sound(b) && Outbound(b, inp, placeholder).Ok?
    ensures OnLots(Outbound(b, inp, placeholder).value.written, LotsAfter(b, inp, placeholder))
  {
    OutboundShape(b, inp, placeholder);
    PicksOnKnownLots(b, inp, inp.quantity);
  }

  /** Stock out keeps the cache equal to the ledger. */
  lemma {:induction false} OutboundSound(b: Books, inp: OutboundInput, placeholder: Id)
    requires Sound(b) && Outbound(b, inp, placeholder).Ok?
    ensures Sound(Outbound(b, inp, placeholder).value.books)
  {
    OutboundShape(b, inp, placeholder);
    OutboundOnLots(b, inp, placeholder);
    MoreLots(b, LotsAfter(b, inp, placeholder));
    PostAllSound(b.(lots := LotsAfter(b, inp, placeholder)), Outbound(b, inp, placeholder).value.written);
  }

  /** The movements are appended; nothing already written changes. */
  lemma {:induction false} OutboundAppends(b: Books, inp: OutboundInput, placeholder: Id)
    requires Sound(b) && Outbound(b, inp, placeholder).Ok?
    ensures var t := Outbound(b, inp, placeholder).value;
      && t.books.movements == b.movements + t.written
      && t.books.options == b.options
      && t.books.lots == LotsAfter(b, inp, placeholder)
  {
    OutboundShape(b, inp, placeholder);
    PostAllWrites(b.(lots := LotsAfter(b, inp, placeholder)), Outbound(b, inp, placeholder).value.written);
  }

  /** The item falls by what was asked, every other item at every location stays. */
  lemma {:induction false} OutboundOnHand(b: Books, inp: OutboundInput, placeholder: Id, product: Id, option: Option<Id>, location: Id)
    requires Sound(b) && Outbound(b, inp, placeholder).Ok?
    ensures OnHand(Outbound(b, inp, placeholder).value.books, product, option, location)
         == OnHand(b, product, option, location)
            - if product == inp.product && option == inp.option && location == inp.location then inp.quantity else 0
  {
    OutboundShape(b, inp, placeholder);
    var s := OfItem(product, option, location);
    var b' := b.(lots := LotsAfter(b, inp, placeholder));
    PostAllSum(b', Outbound(b, inp, placeholder).value.written, s);
    OutMovesOfItem(inp, Allocations(b, inp, placeholder), IsForced(b, inp), product, option, location);
    AllocationsTotal(b, inp, placeholder);
  }

  lemma {:induction false} OutboundAtKey(b: Books, inp: OutboundInput, placeholder: Id, k: Key)
    requires Sound(b) && Outbound(b, inp, placeholder).Ok?
    ensures inp.quantity > 0
    ensures RowSum(Outbound(b, inp, placeholder).value.books.balances, AtKey(k))
         == RowSum(b.balances, AtKey(k))
            - if k == LotKey(inp, k.lot) then Fefo.TakenFrom(Allocations(b, inp, placeholder), k.lot) else 0
  {
    OutboundShape(b, inp, placeholder);
    PostAllSum(b.(lots := LotsAfter(b, inp, placeholder)), Outbound(b, inp, placeholder).value.written, AtKey(k));
    OutMovesAtKey(inp, Allocations(b, inp, placeholder), IsForced(b, inp), k);
  }

  /** Without force nothing goes below zero; with it, what does is on record. */
  lemma {:induction false} OutboundAccounted(b: Books, inp: OutboundInput, placeholder: Id)
    requires Sound(b) && Accounted(b) && Outbound(b, inp, placeholder).Ok?
    ensures Accounted(Outbound(b, inp, placeholder).value.books)
  {
    var t := Outbound(b, inp, placeholder).value;
    OutboundAppends(b, inp, placeholder);
    forall k: Key | RowSum(t.books.balances, AtKey(k)) < 0
      ensures Explained(t.books.movements, k)
    {
      OutboundAtKey(b, inp, placeholder, k);
      if RowSum(b.balances, AtKey(k)) < 0 {
        ExplainedLater(b.movements, t.written, k);
      } else {
        OnlyForceGoesNegative(b, inp, placeholder, k);
        assert t.books.movements[|b.movements| + |t.written| - 1] == t.written[|t.written| - 1];
      }
    }
  }

  lemma {:induction false} OnlyForceGoesNegative(b: Books, inp: OutboundInput, placeholder: Id, k: Key)
    requires Sound(b) && Outbound(b, inp, placeholder).Ok?
    requires RowSum(b.balances, AtKey(k)) >= 0
    requires RowSum(Outbound(b, inp, placeholder).value.books.balances, AtKey(k)) < 0
    ensures var ms := Outbound(b, inp, placeholder).value.written; |ms| > 0 && Explains(ms[|ms| - 1], k)
  {
    OutboundShape(b, inp, placeholder);
    OutboundAtKey(b, inp, placeholder, k);
    PickWithinBalance(b, inp, inp.quantity, k.lot);
    var available := Available(b.lots, b.balances, inp);
    var bearer := Bearer(b, inp);
    TakenConcat(Fefo.Picks(Fefo.SortFefo(available), inp.quantity),
                Fefo.Allocation(if bearer.Some? then bearer.value else placeholder,
                                Max(0, inp.quantity - Fefo.Stock(available))), k.lot);
  }

  /** A request nobody forces is refused for shortage exactly when positive stock does not cover it. */
  lemma {:induction false} UnforcedIsRefusedExactlyWhenShort(b: Books, inp: OutboundInput, placeholder: Id)
    requires inp.quantity > 0 && !inp.force
    requires VariantAllowed(OptionsOf(b, inp.product), inp.option, AllowsRetired(inp.kind))
    ensures Outbound(b, inp, placeholder).Ok? <==> inp.quantity <= Fefo.Stock(Available(b.lots, b.balances, inp))
    ensures Outbound(b, inp, placeholder).Err? ==>
      Outbound(b, inp, placeholder).error == NotEnough(inp.quantity - Fefo.Stock(Available(b.lots, b.balances, inp)))
  {
  }

  /** Asking for no more than is on hand is never refused, even when some lots are negative. */
  lemma {:induction false} WithinOnHandIsNeverShort(b: Books, inp: OutboundInput, placeholder: Id)
    requires inp.quantity > 0 && inp.pinned.None?
    requires VariantAllowed(OptionsOf(b, inp.product), inp.option, AllowsRetired(inp.kind))
    requires inp.quantity <= OnHand(b, inp.product, inp.option, inp.location)
    ensures Outbound(b, inp, placeholder).Ok?
    ensures !IsForced(b, inp)
  {
    AvailableCoversOnHand(b.lots, b.balances, inp);
  }

  // -- Inbound, and what it keeps ---------------------------------------------

  lemma {:induction false} InboundKeeps(b: Books, key: Key, quantity: int, kind: Kind, reference: Option<Cause>)
    requires Sound(b) && Inbound(b, key, quantity, kind, reference).Ok?
    ensures Sound(Inbound(b, key, quantity, kind, reference).value)
    ensures Accounted(b) ==> Accounted(Inbound(b, key, quantity, kind, reference).value)
  {
    var m := Movement(key, quantity, kind, reference, false, "");
    PostOneSound(b, m);
    if Accounted(b) {
      forall k: Key | RowSum(Post(b, m).balances, AtKey(k)) < 0
        ensures Explained(Post(b, m).movements, k)
      {
        IncrementSum(b.balances, m.key, m.quantity, AtKey(k));
        ExplainedLater(b.movements, [m], k);
      }
    }
  }

  lemma {:induction false} PostOneSound(b: Books, m: Movement)
    requires Sound(b) && m.key.lot in b.lots
    ensures Sound(Post(b, m))
  {
    assert PostAll(b, [m]) == Post(b, m);
    PostAllSound(b, [m]);
  }

  lemma {:induction false} InboundOnHand(b: Books, key: Key, quantity: int, kind: Kind, reference: Option<Cause>,
                      product: Id, option: Option<Id>, location: Id)
    requires Sound(b) && Inbound(b, key, quantity, kind, reference).Ok?
    ensures OnHand(Inbound(b, key, quantity, kind, reference).value, product, option, location)
         == OnHand(b, product, option, location)
            + if product == key.product && option == key.option && location == key.location then quantity else 0
  {
    IncrementSum(b.balances, key, quantity, OfItem(product, option, location));
  }
}
