/**
 * What deliveries and their corrections keep, one step at a time
 * (src/modules/inventory/delivery-correction.service.ts:105-338, 352-571, 622-666).
 */
module DeliveryTheorems {
  import opened Common
  import opened Ledger
  import opened Stock
  import opened Deliveries
  import Fee = DeliveryFee
  import Fefo
  import Payables

  // -- What a delivery's own movement does ------------------------------------

  lemma {:induction false} RefSumConcat(x: seq<Movement>, y: seq<Movement>, d: Id, lot: Id)
    ensures RefSum(x + y, d, lot) == RefSum(x, d, lot) + RefSum(y, d, lot)
  {
    if x == [] {
      assert x + y == y;
    } else {
      assert (x + y)[1..] == x[1..] + y;
      RefSumConcat(x[1..], y, d, lot);
    }
  }

  /** The delivery `d` moved `q` units on one lot, and nothing else about lots or deliveries changed. */
  ghost predicate Moved(b0: Books, b1: Books, d: Id, lot: Id, q: int) {
    && b0.movements <= b1.movements
    && b1.lots == b0.lots && b1.options == b0.options
    && Sound(b1) && (Accounted(b0) ==> Accounted(b1))
    && RefsAdded(b0.movements, b1.movements, d, lot, q)
  }

  ghost predicate RefsAdded(ms0: seq<Movement>, ms1: seq<Movement>, d: Id, lot: Id, q: int) {
    forall e: Id, l: Id :: RefSum(ms1, e, l) == RefSum(ms0, e, l) + if e == d && l == lot then q else 0
  }

  lemma {:induction false} MovedThen(b0: Books, b1: Books, b2: Books, d: Id, lot: Id, q1: int, q2: int)
    requires Moved(b0, b1, d, lot, q1) && Moved(b1, b2, d, lot, q2)
    ensures Moved(b0, b2, d, lot, q1 + q2)
  {
    forall e: Id, l: Id
      ensures RefSum(b2.movements, e, l) == RefSum(b0.movements, e, l) + if e == d && l == lot then q1 + q2 else 0
    {
      assert RefSum(b1.movements, e, l) == RefSum(b0.movements, e, l) + if e == d && l == lot then q1 else 0;
    }
  }

  lemma {:induction false} NotMoved(b: Books, d: Id, lot: Id)
    requires Sound(b)
    ensures Moved(b, b, d, lot, 0)
  {
  }

  lemma {:induction false} MovedSound(b0: Books, b1: Books, d: Id, lot: Id, q: int)
    requires Moved(b0, b1, d, lot, q)
    ensures Sound(b1) && b1.lots == b0.lots && b1.options == b0.options
  {
  }

  lemma {:induction false} PinnedPicks(lots: map<Id, Lot>, rows: seq<Row>, inp: OutboundInput, x: Fefo.Batch)
    requires inp.pinned.Some? && x in Available(lots, rows, inp)
    ensures x.lot == inp.pinned.value
  {
    if rows != [] && x in Available(lots, rows[1..], inp) {
      PinnedPicks(lots, rows[1..], inp, x);
    }
  }

  lemma {:induction false} PicksFrom(s: seq<Fefo.Batch>, quantity: nat, lot: Id)
    requires forall i :: 0 <= i < |s| ==> s[i].lot == lot
    ensures forall i :: 0 <= i < |Fefo.Picks(s, quantity)| ==> Fefo.Picks(s, quantity)[i].lot == lot
  {
    if s == [] || quantity == 0 {
    } else if s[0].quantity <= 0 {
      PicksFrom(s[1..], quantity, lot);
    } else {
      PicksFrom(s[1..], quantity - Min(s[0].quantity, quantity), lot);
    }
  }

  /** A pinned request stays on its lot, forced or not. */
  lemma {:induction false} PinnedStays(b: Books, inp: OutboundInput, placeholder: Id)
    requires inp.quantity > 0 && inp.pinned.Some?
    ensures forall i :: 0 <= i < |Allocations(b, inp, placeholder)| ==>
      Allocations(b, inp, placeholder)[i].lot == inp.pinned.value
  {
    var available := Available(b.lots, b.balances, inp);
    var sorted := Fefo.SortFefo(available);
    forall i | 0 <= i < |sorted|
      ensures sorted[i].lot == inp.pinned.value
    {
      SortedMember(available, sorted[i]);
      PinnedPicks(b.lots, b.balances, inp, sorted[i]);
    }
    PicksFrom(sorted, inp.quantity, inp.pinned.value);
  }

  lemma {:induction false} OutMovesRef(inp: OutboundInput, a: seq<Fefo.Allocation>, forced: bool, d: Id, lot: Id, e: Id, l: Id)
    requires inp.reference == Some(Delivery(d)) && forall i :: 0 <= i < |a| ==> a[i].lot == lot
    ensures RefSum(OutMoves(inp, a, forced), e, l) == if e == d && l == lot then 0 - Fefo.Taken(a) else 0
  {
    if a != [] {
      OutMovesRef(inp, a[1..], forced, d, lot, e, l);
    }
  }

  lemma {:induction false} TakeBackMoves(b: Books, site: Site, inp: Correction, product: Id, option: Option<Id>, lot: Id, quantity: int)
    requires Sound(b) && TakeBack(b, site, inp, product, option, lot, quantity).Ok?
    ensures Moved(b, TakeBack(b, site, inp, product, option, lot, quantity).value, site.delivery, lot, -quantity)
  {
    var out := OutOfLot(site, inp, product, option, lot, quantity);
    var t := Outbound(b, out, 0).value;
    OutboundShape(b, out, 0);
    OutboundSound(b, out, 0);
    OutboundAppends(b, out, 0);
    PinnedStays(b, out, 0);
    AllocationsTotal(b, out, 0);
    if Accounted(b) {
      OutboundAccounted(b, out, 0);
    }
    forall e: Id, l: Id
      ensures RefSum(t.books.movements, e, l)
        == RefSum(b.movements, e, l) + if e == site.delivery && l == lot then -quantity else 0
    {
      RefSumConcat(b.movements, t.written, e, l);
      OutMovesRef(out, Allocations(b, out, 0), IsForced(b, out), site.delivery, lot, e, l);
    }
  }

  lemma {:induction false} PutInMoves(b: Books, site: Site, product: Id, option: Option<Id>, lot: Id, quantity: int)
    requires Sound(b) && PutIn(b, site, product, option, lot, quantity).Ok?
    ensures Moved(b, PutIn(b, site, product, option, lot, quantity).value, site.delivery, lot, quantity)
    ensures quantity > 0 && lot in b.lots
  {
    ArrivesMoves(b, Key(product, option, site.location, lot), quantity, Adjustment, site.delivery);
  }

  lemma {:induction false} ArrivesMoves(b: Books, key: Key, quantity: int, kind: Kind, d: Id)
    requires Sound(b) && Inbound(b, key, quantity, kind, Some(Delivery(d))).Ok?
    ensures Moved(b, Inbound(b, key, quantity, kind, Some(Delivery(d))).value, d, key.lot, quantity)
  {
    var m := Movement(key, quantity, kind, Some(Delivery(d)), false, "");
    InboundKeeps(b, key, quantity, kind, Some(Delivery(d)));
    assert [m][1..] == [];
    forall e: Id, l: Id
      ensures RefSum(b.movements + [m], e, l) == RefSum(b.movements, e, l) + if e == d && l == key.lot then quantity else 0
    {
      RefSumConcat(b.movements, [m], e, l);
      assert RefSum([m], e, l) == (if e == d && key.lot == l then quantity else 0) + RefSum([], e, l);
    }
  }

  // -- A line, its lot and its movements agree --------------------------------

  ghost predicate LineOk(b: Books, d: Id, line: Line) {
    && line.lot in b.lots
    && b.lots[line.lot].product == line.product
    && b.lots[line.lot].quantityReceived == line.received
    && b.lots[line.lot].quantityPaidFor == line.paidFor
    && RefSum(b.movements, d, line.lot) == line.received
  }

  predicate DistinctLines(lines: seq<Line>) {
    forall i, j :: 0 <= i < j < |lines| ==> lines[i].id != lines[j].id && lines[i].lot != lines[j].lot
  }

  ghost predicate LinesOk(b: Books, d: Id, lines: seq<Line>) {
    && DistinctLines(lines)
    && forall i :: 0 <= i < |lines| ==> LineOk(b, d, lines[i])
  }

  predicate UsesLot(lines: seq<Line>, lot: Id) {
    exists i :: 0 <= i < |lines| && lines[i].lot == lot
  }

  /** Outside the lots of these lines, and outside this delivery's references, everything stays. */
  ghost predicate Elsewhere(b0: Books, b1: Books, d: Id, before: seq<Line>, after: seq<Line>) {
    && b0.movements <= b1.movements
    && b1.options == b0.options
    && Sound(b1) && (Accounted(b0) ==> Accounted(b1))
    && (forall e: Id, l: Id :: e != d ==> RefSum(b1.movements, e, l) == RefSum(b0.movements, e, l))
    && (forall lot :: lot in b0.lots && !UsesLot(before, lot) ==> lot in b1.lots && b1.lots[lot] == b0.lots[lot])
    && (forall lot :: lot in b0.lots ==> lot in b1.lots)
    && (forall lot :: UsesLot(after, lot) ==> UsesLot(before, lot) || lot !in b0.lots)
  }

  lemma {:induction false} ElsewhereThen(b0: Books, b1: Books, b2: Books, d: Id, x: seq<Line>, y: seq<Line>, z: seq<Line>)
    requires Elsewhere(b0, b1, d, x, y) && Elsewhere(b1, b2, d, y, z)
    ensures Elsewhere(b0, b2, d, x, z)
  {
  }

  /** The change is about a line of the delivery, and its stock difference is what its figures say. */
  predicate ShapeOk(ch: Change) {
    && (ch.newProduct.Some? ==> !ch.newOption)
    && ch.stockDelta == (if ch.newProduct.Some? || ch.newOption then ch.received else ch.received - ch.line.received)
  }

  /** `line` is line `k`, whatever option its stock is in now. */
  predicate IsLine(lines: seq<Line>, k: nat, line: Line) {
    k < |lines| && line == lines[k].(option := line.option)
  }

  lemma {:induction false} SameProductMoves(b: Books, site: Site, ch: Change, inp: Correction)
    requires Sound(b) && ShapeOk(ch) && ch.newProduct.None? && SameProduct(b, site, ch, inp).Ok?
    ensures Moved(b, SameProduct(b, site, ch, inp).value, site.delivery, ch.line.lot, ch.received - ch.line.received)
  {
    hide Moved, Sound, TakeBack, PutIn, VariantAllowed;
    var d, lot := site.delivery, ch.line.lot;
    NotMoved(b, d, lot);
    if ch.newOption {
      var b1 := if ch.line.received > 0
                then TakeBack(b, site, inp, ch.line.product, ch.line.option, lot, ch.line.received).value else b;
      if ch.line.received > 0 {
        TakeBackMoves(b, site, inp, ch.line.product, ch.line.option, lot, ch.line.received);
        MovedSound(b, b1, d, lot, 0 - ch.line.received);
      }
      PutInMoves(b1, site, ch.line.product, ch.option, lot, ch.received);
      MovedThen(b, b1, SameProduct(b, site, ch, inp).value, d, lot, 0 - ch.line.received, ch.received);
    } else if ch.stockDelta < 0 {
      TakeBackMoves(b, site, inp, ch.line.product, ch.option, lot, -ch.stockDelta);
    } else if ch.stockDelta > 0 {
      PutInMoves(b, site, ch.line.product, ch.option, lot, ch.stockDelta);
    }
  }

  lemma {:induction false} ReplaceAt(lines: seq<Line>, k: nat, line: Line)
    requires DistinctLines(lines) && k < |lines| && lines[k].id == line.id
    ensures ReplaceLine(lines, line) == lines[k := line]
  {
    forall i | 0 <= i < |lines| && i != k
      ensures lines[i].id != line.id
    {
      if i < k {
        assert lines[i].id != lines[k].id;
      } else {
        assert lines[k].id != lines[i].id;
      }
    }
  }

  lemma {:induction false} FiguresSound(b: Books, lots: map<Id, Lot>)
    requires Sound(b) && b.lots.Keys <= lots.Keys
    ensures Sound(b.(lots := lots)) && (Accounted(b) ==> Accounted(b.(lots := lots)))
  {
  }

  /** A line rewritten on its own lot, once the delivery's movements there say the same. */
  lemma {:induction false} LineSettled(b: Books, b1: Books, d: Id, lines: seq<Line>, k: nat, line: Line)
    requires LinesOk(b, d, lines) && k < |lines| && line.id == lines[k].id && line.lot == lines[k].lot && line.product == lines[k].product
    requires Moved(b, b1, d, line.lot, line.received - lines[k].received)
    ensures LinesOk(b1.(lots := SetLot(b1.lots, line.lot, line.received, line.paidFor, line.totalCost)), d, lines[k := line])
  {
    hide Sound, Accounted;
    var after := b1.(lots := SetLot(b1.lots, line.lot, line.received, line.paidFor, line.totalCost));
    assert LineOk(b, d, lines[k]);
    var settled := lines[k := line];
    forall i | 0 <= i < |settled|
      ensures LineOk(after, d, settled[i])
    {
      assert LineOk(b, d, lines[i]);
      if i != k {
        OtherLot(lines, i, k);
      }
    }
  }

  lemma {:induction false} ElsewhereSettled(b: Books, b1: Books, d: Id, lines: seq<Line>, k: nat, line: Line)
    requires k < |lines| && line.lot == lines[k].lot
    requires Moved(b, b1, d, line.lot, line.received - lines[k].received)
    ensures Elsewhere(b, b1.(lots := SetLot(b1.lots, line.lot, line.received, line.paidFor, line.totalCost)), d, lines, lines[k := line])
  {
    hide Sound, Accounted, UsesLot;
    var lots := SetLot(b1.lots, line.lot, line.received, line.paidFor, line.totalCost);
    FiguresSound(b1, lots);
    UsesAfter(lines, k, line, b.lots);
  }

  lemma {:induction false} AppliedOnce(b: Books, lines: seq<Line>, stocked: set<Id>, site: Site, ch: Change, inp: Correction)
    requires ch.newProduct.None? && ApplyChange(b, lines, stocked, site, ch, inp).Ok?
    ensures SameProduct(b, site, ch, inp).Ok?
    ensures var b1 := SameProduct(b, site, ch, inp).value;
      ApplyChange(b, lines, stocked, site, ch, inp).value
        == Applied(b1.(lots := SetLot(b1.lots, ch.line.lot, ch.received, ch.paidFor, ch.totalCost)),
                   ReplaceLine(lines, ChangedLine(ch.line, ch, ch.line.product, ch.line.lot)))
  {
    hide SameProduct, SetLot, ReplaceLine;
  }

  lemma {:induction false} LinesApart(b: Books, d: Id, lines: seq<Line>)
    requires LinesOk(b, d, lines)
    ensures DistinctLines(lines)
  {
  }

  /** A change that keeps its product leaves the line, its lot and its movements agreeing. */
  lemma {:induction false} SameProductKeeps(b: Books, lines: seq<Line>, site: Site, ch: Change, inp: Correction, k: nat, stocked: set<Id>)
    requires Sound(b) && LinesOk(b, site.delivery, lines) && ShapeOk(ch) && IsLine(lines, k, ch.line)
    requires ch.newProduct.None? && ApplyChange(b, lines, stocked, site, ch, inp).Ok?
    ensures var a := ApplyChange(b, lines, stocked, site, ch, inp).value;
      && LinesOk(a.books, site.delivery, a.lines)
      && a.lines == lines[k := ChangedLine(ch.line, ch, ch.line.product, ch.line.lot)]
      && Elsewhere(b, a.books, site.delivery, lines, a.lines)
  {
    hide ApplyChange, SameProduct, Sound, Accounted, LinesOk, Moved, Elsewhere, SetLot, ReplaceLine, ShapeOk;
    AppliedOnce(b, lines, stocked, site, ch, inp);
    var b1 := SameProduct(b, site, ch, inp).value;
    var line := ChangedLine(ch.line, ch, ch.line.product, ch.line.lot);
    LinesApart(b, site.delivery, lines);
    SameProductMoves(b, site, ch, inp);
    ReplaceAt(lines, k, line);
    LineSettled(b, b1, site.delivery, lines, k, line);
    ElsewhereSettled(b, b1, site.delivery, lines, k, line);
  }

  lemma {:induction false} OtherLot(lines: seq<Line>, i: nat, k: nat)
    requires DistinctLines(lines) && i < |lines| && k < |lines| && i != k
    ensures lines[i].lot != lines[k].lot && lines[i].id != lines[k].id
  {
  }

  lemma {:induction false} UsesAfter(lines: seq<Line>, k: nat, line: Line, lots: map<Id, Lot>)
    requires k < |lines|
    requires line.lot == lines[k].lot || line.lot !in lots
    ensures forall lot :: UsesLot(lines[k := line], lot) ==> UsesLot(lines, lot) || lot !in lots
    ensures UsesLot(lines, lines[k].lot)
  {
    forall lot | UsesLot(lines[k := line], lot)
      ensures UsesLot(lines, lot) || lot !in lots
    {
      var i :| 0 <= i < |lines| && lines[k := line][i].lot == lot;
      if i != k || line.lot == lines[k].lot {
        assert lines[i].lot == lot;
      }
    }
  }

  lemma {:induction false} RefSumUnlotted(b: Books, d: Id, lot: Id)
    requires Sound(b) && lot !in b.lots
    ensures RefSum(b.movements, d, lot) == 0
  {
    RefSumOffLots(b.movements, b.lots, d, lot);
  }

  lemma {:induction false} RefSumOffLots(ms: seq<Movement>, lots: map<Id, Lot>, d: Id, lot: Id)
    requires OnLots(ms, lots) && lot !in lots
    ensures RefSum(ms, d, lot) == 0
  {
    if ms != [] {
      RefSumOffLots(ms[1..], lots, d, lot);
    }
  }

  /** What `moveToRightProduct` leaves: the old lot emptied of this delivery, the new one holding what came. */
  lemma {:induction false} ToRightProductMoves(b: Books, stocked: set<Id>, site: Site, ch: Change, product: Id, inp: Correction)
    requires Sound(b) && ToRightProduct(b, stocked, site, ch, product, inp).Ok? && ch.line.lot in b.lots
    ensures ch.line.id in inp.newLots && inp.newLots[ch.line.id] !in b.lots
    ensures var b3 := ToRightProduct(b, stocked, site, ch, product, inp).value;
      var lot := inp.newLots[ch.line.id];
      && b.movements <= b3.movements && b3.options == b.options
      && Sound(b3) && (Accounted(b) ==> Accounted(b3))
      && (forall e: Id, l: Id :: RefSum(b3.movements, e, l) == RefSum(b.movements, e, l)
            + (if e == site.delivery && l == ch.line.lot then 0 - ch.line.received else 0)
            + (if e == site.delivery && l == lot then ch.received else 0))
      && lot in b3.lots && b3.lots[lot].product == product
      && b3.lots[lot].quantityReceived == ch.received && b3.lots[lot].quantityPaidFor == ch.paidFor
      && (forall l :: l in b.lots ==> l in b3.lots && (l != ch.line.lot ==> b3.lots[l] == b.lots[l]))
  {
    hide Moved, Sound, Accounted, TakeBack, PutIn, VariantAllowed;
    var d := site.delivery;
    var b1 := if ch.line.received > 0
              then TakeBack(b, site, inp, ch.line.product, ch.line.option, ch.line.lot, ch.line.received).value else b;
    NotMoved(b, d, ch.line.lot);
    if ch.line.received > 0 {
      TakeBackMoves(b, site, inp, ch.line.product, ch.line.option, ch.line.lot, ch.line.received);
    }
    MovedSound(b, b1, d, ch.line.lot, 0 - ch.line.received);
    var lots2 := SetLot(b1.lots, ch.line.lot, 0, 0, 0);
    var lot := inp.newLots[ch.line.id];
    var lots3 := lots2[lot := Lot(product, b.lots[ch.line.lot].expiry, site.receivedAt, ch.received, ch.paidFor, ch.totalCost)];
    FiguresSound(b1, lots3);
    var b2 := b1.(lots := lots3);
    PutInMoves(b2, site, product, ch.option, lot, ch.received);
    var b3 := PutIn(b2, site, product, ch.option, lot, ch.received).value;
    MovedSound(b2, b3, d, lot, ch.received);
    TwoMoves(b, b1, b2, b3, d, ch.line.lot, lot, 0 - ch.line.received, ch.received);
  }

  lemma {:induction false} TwoMoves(b: Books, b1: Books, b2: Books, b3: Books, d: Id, lot: Id, lot': Id, q: int, q': int)
    requires Moved(b, b1, d, lot, q) && b2 == b1.(lots := b2.lots) && Moved(b2, b3, d, lot', q')
    requires Accounted(b1) ==> Accounted(b2)
    ensures b.movements <= b3.movements && (Accounted(b) ==> Accounted(b3))
    ensures forall e: Id, l: Id ::
      RefSum(b3.movements, e, l) == RefSum(b.movements, e, l)
        + (if e == d && l == lot then q else 0) + (if e == d && l == lot' then q' else 0)
  {
    forall e: Id, l: Id
      ensures RefSum(b3.movements, e, l) == RefSum(b.movements, e, l)
        + (if e == d && l == lot then q else 0) + (if e == d && l == lot' then q' else 0)
    {
      assert RefSum(b1.movements, e, l) == RefSum(b.movements, e, l) + if e == d && l == lot then q else 0;
      assert RefSum(b3.movements, e, l) == RefSum(b2.movements, e, l) + if e == d && l == lot' then q' else 0;
    }
  }

  /** The state after a swap, said without the swap: the facts `ToRightProductMoves` gives. */
  ghost predicate Swapped(b: Books, b3: Books, d: Id, was: Line, line: Line) {
    && b.movements <= b3.movements && b3.options == b.options
    && Sound(b3) && (Accounted(b) ==> Accounted(b3))
    && (forall e: Id, l: Id ::
          RefSum(b3.movements, e, l) == RefSum(b.movements, e, l)
            + (if e == d && l == was.lot then 0 - was.received else 0)
            + (if e == d && l == line.lot then line.received as int else 0))
    && line.lot !in b.lots
    && line.lot in b3.lots && b3.lots[line.lot].product == line.product
    && b3.lots[line.lot].quantityReceived == line.received && b3.lots[line.lot].quantityPaidFor == line.paidFor
    && (forall l :: l in b.lots ==> l in b3.lots && (l != was.lot ==> b3.lots[l] == b.lots[l]))
  }

  lemma {:induction false} SwappedLinesOk(b: Books, b3: Books, d: Id, lines: seq<Line>, k: nat, line: Line)
    requires Sound(b) && LinesOk(b, d, lines) && k < |lines| && line.id == lines[k].id
    requires Swapped(b, b3, d, lines[k], line)
    ensures LinesOk(b3, d, lines[k := line])
  {
    hide Sound, Accounted;
    RefSumUnlotted(b, d, line.lot);
    forall i | 0 <= i < |lines|
      ensures LineOk(b3, d, lines[k := line][i])
      ensures i != k ==> lines[i].lot != line.lot
    {
      assert LineOk(b, d, lines[i]);
      if i != k {
        OtherLot(lines, i, k);
      }
    }
  }

  lemma {:induction false} SwappedElsewhere(b: Books, b3: Books, d: Id, lines: seq<Line>, k: nat, line: Line)
    requires k < |lines| && Swapped(b, b3, d, lines[k], line)
    ensures Elsewhere(b, b3, d, lines, lines[k := line])
  {
    hide Sound, Accounted;
    UsesAfter(lines, k, line, b.lots);
  }

  lemma {:induction false} ToRightProductKeeps(b: Books, lines: seq<Line>, site: Site, ch: Change, inp: Correction, k: nat, stocked: set<Id>)
    requires Sound(b) && LinesOk(b, site.delivery, lines) && ShapeOk(ch) && IsLine(lines, k, ch.line)
    requires ch.newProduct.Some? && ApplyChange(b, lines, stocked, site, ch, inp).Ok?
    ensures ch.line.id in inp.newLots
    ensures var a := ApplyChange(b, lines, stocked, site, ch, inp).value;
      && LinesOk(a.books, site.delivery, a.lines)
      && a.lines == lines[k := ChangedLine(ch.line, ch, ch.newProduct.value, inp.newLots[ch.line.id])]
      && Elsewhere(b, a.books, site.delivery, lines, a.lines)
  {
    hide ToRightProduct, Sound, Accounted, LinesOk, Elsewhere;
    var d, product := site.delivery, ch.newProduct.value;
    LineAt(b, d, lines, k);
    ToRightProductMoves(b, stocked, site, ch, product, inp);
    var line := ChangedLine(ch.line, ch, product, inp.newLots[ch.line.id]);
    var b3 := ToRightProduct(b, stocked, site, ch, product, inp).value;
    ReplaceAt(lines, k, line);
    assert Swapped(b, b3, d, lines[k], line);
    SwappedLinesOk(b, b3, d, lines, k, line);
    SwappedElsewhere(b, b3, d, lines, k, line);
  }

  lemma {:induction false} LineAt(b: Books, d: Id, lines: seq<Line>, k: nat)
    requires LinesOk(b, d, lines) && k < |lines|
    ensures LineOk(b, d, lines[k]) && DistinctLines(lines)
  {
  }

  // -- All the changes --------------------------------------------------------

  predicate DistinctChanges(changes: seq<Change>) {
    forall i, j :: 0 <= i < j < |changes| ==> changes[i].line.id != changes[j].line.id
  }

  predicate OnLine(lines: seq<Line>, ch: Change) {
    exists k: nat :: k < |lines| && IsLine(lines, k, ch.line)
  }

  predicate ChangesOk(lines: seq<Line>, changes: seq<Change>) {
    && DistinctChanges(changes)
    && forall i :: 0 <= i < |changes| ==> ShapeOk(changes[i]) && OnLine(lines, changes[i])
  }

  lemma {:induction false} StillOnLines(lines: seq<Line>, changes: seq<Change>, k: nat, line: Line)
    requires changes != [] && ChangesOk(lines, changes) && IsLine(lines, k, changes[0].line) && line.id == lines[k].id
    ensures ChangesOk(lines[k := line], changes[1..])
  {
    forall i | 0 <= i < |changes[1..]|
      ensures ShapeOk(changes[1..][i]) && OnLine(lines[k := line], changes[1..][i])
    {
      var ch := changes[i + 1];
      assert OnLine(lines, ch);
      var j: nat :| j < |lines| && IsLine(lines, j, ch.line);
      assert changes[0].line.id != ch.line.id;
      assert IsLine(lines[k := line], j, ch.line);
    }
  }

  lemma {:induction false} ValueReplaced(lines: seq<Line>, k: nat, line: Line)
    requires k < |lines|
    ensures Value(lines[k := line]) == Value(lines) - lines[k].totalCost + line.totalCost
  {
    if k > 0 {
      assert lines[k := line][1..] == lines[1..][k - 1 := line];
      ValueReplaced(lines[1..], k - 1, line);
    } else {
      assert lines[k := line][1..] == lines[1..];
    }
  }

  lemma {:induction false} OneChangeKeeps(b: Books, lines: seq<Line>, stocked: set<Id>, site: Site, ch: Change, inp: Correction, k: nat)
    requires Sound(b) && LinesOk(b, site.delivery, lines) && ShapeOk(ch) && IsLine(lines, k, ch.line)
    requires ApplyChange(b, lines, stocked, site, ch, inp).Ok?
    ensures var a := ApplyChange(b, lines, stocked, site, ch, inp).value;
      && LinesOk(a.books, site.delivery, a.lines)
      && Elsewhere(b, a.books, site.delivery, lines, a.lines)
      && Value(a.lines) == Value(lines) + ch.totalCost - ch.line.totalCost
      && (exists line: Line :: line.id == lines[k].id && a.lines == lines[k := line])
  {
    hide ApplyChange, LinesOk, Elsewhere, Sound;
    if ch.newProduct.None? {
      SameProductKeeps(b, lines, site, ch, inp, k, stocked);
      ValueReplaced(lines, k, ChangedLine(ch.line, ch, ch.line.product, ch.line.lot));
    } else {
      ToRightProductKeeps(b, lines, site, ch, inp, k, stocked);
      ValueReplaced(lines, k, ChangedLine(ch.line, ch, ch.newProduct.value, inp.newLots[ch.line.id]));
    }
  }

  lemma {:induction false} NothingElsewhere(b: Books, d: Id, lines: seq<Line>)
    requires Sound(b)
    ensures Elsewhere(b, b, d, lines, lines)
  {
  }

  lemma {:induction false} ElsewhereSound(b: Books, b1: Books, d: Id, x: seq<Line>, y: seq<Line>)
    requires Elsewhere(b, b1, d, x, y)
    ensures Sound(b1)
  {
  }

  lemma {:induction false} ApplyChangesKeeps(b: Books, lines: seq<Line>, stocked: set<Id>, site: Site, changes: seq<Change>, inp: Correction)
    requires Sound(b) && LinesOk(b, site.delivery, lines) && ChangesOk(lines, changes)
    requires ApplyChanges(b, lines, stocked, site, changes, inp).Ok?
    ensures var a := ApplyChanges(b, lines, stocked, site, changes, inp).value;
      && LinesOk(a.books, site.delivery, a.lines)
      && Elsewhere(b, a.books, site.delivery, lines, a.lines)
      && Value(a.lines) == Value(lines) + ValueDelta(changes)
    decreases changes
  {
    hide ApplyChange, LinesOk, Elsewhere, Sound, ShapeOk;
    if changes == [] {
      NothingElsewhere(b, site.delivery, lines);
    } else {
      var ch := changes[0];
      assert ShapeOk(ch) && OnLine(lines, ch);
      var k: nat :| k < |lines| && IsLine(lines, k, ch.line);
      OneChangeKeeps(b, lines, stocked, site, ch, inp, k);
      var a := ApplyChange(b, lines, stocked, site, ch, inp).value;
      var line: Line :| line.id == lines[k].id && a.lines == lines[k := line];
      StillOnLines(lines, changes, k, line);
      ElsewhereSound(b, a.books, site.delivery, lines, a.lines);
      ApplyChangesKeeps(a.books, a.lines, stocked, site, changes[1..], inp);
      var last := ApplyChanges(a.books, a.lines, stocked, site, changes[1..], inp).value;
      ElsewhereThen(b, a.books, last.books, site.delivery, lines, a.lines, last.lines);
    }
  }
}
