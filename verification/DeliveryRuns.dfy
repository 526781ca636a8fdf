/**
 * Deliveries over any run: whatever is received, corrected, sold, moved or
 * counted, in any order, every delivery's lines, lots, movements, fee shares
 * and bill keep agreeing.
 */
module DeliveryRuns {
  import opened Common
  import opened Ledger
  import opened Stock
  import opened Deliveries
  import opened DeliveryTheorems
  import Fee = DeliveryFee
  import LedgerRuns
  import Payables

  // -- The fee's shares -------------------------------------------------------

  /** The lot carries what the vendor charged and the line's share of the fee. */
  predicate Costed(lots: map<Id, Lot>, line: Line) {
    line.lot in lots && lots[line.lot].totalCost == line.totalCost + line.deliveryCost
  }

  /** The first line's lot is used by it alone. */
  lemma {:induction false} UsesRest(lines: seq<Line>)
    requires DistinctLines(lines) && lines != []
    ensures forall lot :: UsesLot(lines[1..], lot) ==> UsesLot(lines, lot) && lot != lines[0].lot
    ensures UsesLot(lines, lines[0].lot) && !UsesLot(lines[1..], lines[0].lot)
    ensures DistinctLines(lines[1..])
  {
    assert lines[0].lot == lines[0].lot;
    forall lot | UsesLot(lines[1..], lot)
      ensures UsesLot(lines, lot) && lot != lines[0].lot
    {
      var i :| 0 <= i < |lines[1..]| && lines[1..][i].lot == lot;
      assert lines[i + 1].lot == lot;
    }
  }

  lemma {:induction false} ShareFacts(lots: map<Id, Lot>, lines: seq<Line>, shares: seq<nat>)
    requires |shares| == |lines| && DistinctLines(lines)
    requires forall i :: 0 <= i < |lines| ==> lines[i].lot in lots
    ensures var r := Share(lots, lines, shares);
      && r.0.Keys == lots.Keys
      && (forall lot :: lot in lots ==> r.0[lot] == lots[lot].(totalCost := r.0[lot].totalCost))
      && (forall lot :: lot in lots && !UsesLot(lines, lot) ==> r.0[lot] == lots[lot])
      && (forall i :: 0 <= i < |lines| ==> r.0[lines[i].lot].totalCost == lines[i].totalCost + shares[i])
    decreases lines
  {
    hide UsesLot;
    if lines != [] {
      var line := lines[0];
      var lots1 := lots[line.lot := lots[line.lot].(totalCost := line.totalCost + shares[0])];
      UsesRest(lines);
      ShareFacts(lots1, lines[1..], shares[1..]);
      forall i | 0 < i < |lines|
        ensures Share(lots, lines, shares).0[lines[i].lot].totalCost == lines[i].totalCost + shares[i]
      {
        assert lines[1..][i - 1] == lines[i] && shares[1..][i - 1] == shares[i];
      }
    }
  }

  ghost predicate SharesOk(lots: map<Id, Lot>, lines: seq<Line>, fee: nat) {
    && (forall i :: 0 <= i < |lines| ==> Costed(lots, lines[i]))
    && Fee.Split(fee, FeeLines(lines)) == Ok(FeeShares(lines))
  }

  lemma {:induction false} LinesHaveLots(b: Books, d: Id, lines: seq<Line>)
    requires LinesOk(b, d, lines)
    ensures DistinctLines(lines) && forall i :: 0 <= i < |lines| ==> lines[i].lot in b.lots
  {
    forall i | 0 <= i < |lines|
      ensures lines[i].lot in b.lots
    {
      assert LineOk(b, d, lines[i]);
    }
  }

  lemma {:induction false} SameFigures(lines: seq<Line>, shared: seq<Line>, shares: seq<nat>)
    requires |shares| == |lines| == |shared|
    requires forall i :: 0 <= i < |lines| ==> shared[i] == lines[i].(deliveryCost := shares[i])
    ensures FeeLines(shared) == FeeLines(lines) && FeeShares(shared) == shares
    ensures Value(shared) == Value(lines)
    ensures forall lot :: UsesLot(shared, lot) <==> UsesLot(lines, lot)
  {
    if lines != [] {
      assert forall i :: 0 <= i < |lines[1..]| ==> shared[1..][i] == lines[1..][i].(deliveryCost := shares[1..][i]);
      SameFigures(lines[1..], shared[1..], shares[1..]);
    }
    forall lot
      ensures UsesLot(shared, lot) <==> UsesLot(lines, lot)
    {
      if UsesLot(shared, lot) {
        var i :| 0 <= i < |shared| && shared[i].lot == lot;
        assert lines[i].lot == lot;
      }
      if UsesLot(lines, lot) {
        var i :| 0 <= i < |lines| && lines[i].lot == lot;
        assert shared[i].lot == lot;
      }
    }
  }

  /** Sharing the fee again makes every lot carry its line and share, and leaves quantities and values alone. */
  lemma {:induction false} ShareTheFeeKeeps(b: Books, d: Id, lines: seq<Line>, fee: nat)
    requires Sound(b) && LinesOk(b, d, lines) && ShareTheFee(b, lines, fee).Ok?
    ensures var a := ShareTheFee(b, lines, fee).value;
      && LinesOk(a.books, d, a.lines)
      && SharesOk(a.books.lots, a.lines, fee)
      && Value(a.lines) == Value(lines)
      && Elsewhere(b, a.books, d, lines, a.lines)
  {
    hide Sound, Accounted;
    LinesHaveLots(b, d, lines);
    var shares := Fee.Split(fee, FeeLines(lines)).value;
    SplitLength(fee, FeeLines(lines));
    ShareFacts(b.lots, lines, shares);
    var a := ShareTheFee(b, lines, fee).value;
    SameFigures(lines, a.lines, shares);
    FiguresSound(b, a.books.lots);
    forall i | 0 <= i < |lines|
      ensures LineOk(a.books, d, a.lines[i]) && Costed(a.books.lots, a.lines[i])
    {
      assert LineOk(b, d, lines[i]);
    }
  }

  // -- The plan ---------------------------------------------------------------

  lemma {:induction false} FoundLine(lines: seq<Line>, id: Id)
    ensures FindLine(lines, id).Some? ==>
      FindLine(lines, id).value.id == id && exists k :: 0 <= k < |lines| && lines[k] == FindLine(lines, id).value
  {
    if lines != [] && lines[0].id != id {
      FoundLine(lines[1..], id);
      if FindLine(lines[1..], id).Some? {
        var k :| 0 <= k < |lines[1..]| && lines[1..][k] == FindLine(lines[1..], id).value;
        assert lines[k + 1] == FindLine(lines, id).value;
      }
    }
  }

  /** Each planned change is about one recorded line, all of them different, none of them already seen. */
  ghost predicate Planned(recorded: seq<Line>, changes: seq<Change>, seen: set<Id>) {
    && DistinctChanges(changes)
    && forall i :: 0 <= i < |changes| ==>
         && ShapeOk(changes[i])
         && FindLine(recorded, changes[i].line.id) == Some(changes[i].line)
         && changes[i].line.id in seen
  }

  lemma {:induction false} PlanFromPlans(recorded: seq<Line>, truths: seq<Truth>, seen: set<Id>, plan: Plan)
    returns (all: set<Id>)
    requires Planned(recorded, plan.changes, seen)
    ensures Planned(recorded, PlanFrom(recorded, truths, seen, plan).changes, all)
    decreases truths
  {
    if truths == [] {
      all := seen;
    } else {
      FoundLine(recorded, truths[0].line);
      all := PlanFromPlans(recorded, truths[1..], SeenAfter(recorded, truths[0], seen), PlanOne(recorded, truths[0], seen, plan));
    }
  }

  lemma {:induction false} PlanIsAboutLines(ms: seq<Movement>, location: Id, lines: seq<Line>, truths: seq<Truth>, feeChanged: bool)
    ensures ChangesOk(lines, PlanCorrection(WithCurrentOptions(ms, location, lines), truths, feeChanged).changes)
  {
    var recorded := WithCurrentOptions(ms, location, lines);
    var _ := PlanFromPlans(recorded, truths, {}, Plan([], []));
    var changes := PlanCorrection(recorded, truths, feeChanged).changes;
    forall i | 0 <= i < |changes|
      ensures ShapeOk(changes[i]) && OnLine(lines, changes[i])
    {
      FoundLine(recorded, changes[i].line.id);
      var k :| 0 <= k < |recorded| && recorded[k] == changes[i].line;
      assert IsLine(lines, k, changes[i].line);
    }
  }

  /** Every stated line is on the delivery, stated once, and its figures make sense. */
  predicate Sensible(recorded: seq<Line>, truths: seq<Truth>, seen: set<Id>)
    decreases truths
  {
    truths == [] ||
    (var found := FindLine(recorded, truths[0].line);
     && found.Some? && truths[0].line !in seen && ProblemWith(found.value, truths[0]).None?
     && Sensible(recorded, truths[1..], seen + {truths[0].line}))
  }

  predicate AnyChange(recorded: seq<Line>, truths: seq<Truth>) {
    exists i :: 0 <= i < |truths| && FindLine(recorded, truths[i].line).Some?
                && !Unchanged(FindLine(recorded, truths[i].line).value, truths[i])
  }

  lemma {:induction false} ProblemsOnlyGrow(recorded: seq<Line>, truths: seq<Truth>, seen: set<Id>, plan: Plan)
    requires plan.problems != []
    ensures PlanFrom(recorded, truths, seen, plan).problems != []
    decreases truths
  {
    if truths != [] {
      ProblemsOnlyGrow(recorded, truths[1..], SeenAfter(recorded, truths[0], seen), PlanOne(recorded, truths[0], seen, plan));
    }
  }

  lemma {:induction false} ChangesOnlyGrow(recorded: seq<Line>, truths: seq<Truth>, seen: set<Id>, plan: Plan)
    ensures |PlanFrom(recorded, truths, seen, plan).changes| >= |plan.changes|
    decreases truths
  {
    if truths != [] {
      ChangesOnlyGrow(recorded, truths[1..], SeenAfter(recorded, truths[0], seen), PlanOne(recorded, truths[0], seen, plan));
    }
  }

  lemma {:induction false} ProblemsExactlyWhenNotSensible(recorded: seq<Line>, truths: seq<Truth>, seen: set<Id>, plan: Plan)
    requires plan.problems == []
    ensures PlanFrom(recorded, truths, seen, plan).problems == [] <==> Sensible(recorded, truths, seen)
    ensures Sensible(recorded, truths, seen) ==>
      (|PlanFrom(recorded, truths, seen, plan).changes| > |plan.changes| <==> AnyChange(recorded, truths))
    decreases truths
  {
    if truths != [] {
      var t := truths[0];
      var found := FindLine(recorded, t.line);
      var plan1, seen1 := PlanOne(recorded, t, seen, plan), SeenAfter(recorded, t, seen);
      if found.None? || t.line in seen || ProblemWith(found.value, t).Some? {
        assert plan1.problems != [];
        ProblemsOnlyGrow(recorded, truths[1..], seen1, plan1);
      } else {
        ProblemsExactlyWhenNotSensible(recorded, truths[1..], seen1, plan1);
        ChangesOnlyGrow(recorded, truths[1..], seen1, plan1);
        assert AnyChange(recorded, truths) <==> !Unchanged(found.value, t) || AnyChange(recorded, truths[1..]) by {
          if AnyChange(recorded, truths) && Unchanged(found.value, t) {
            var i :| 0 <= i < |truths| && FindLine(recorded, truths[i].line).Some?
                     && !Unchanged(FindLine(recorded, truths[i].line).value, truths[i]);
            assert truths[1..][i - 1] == truths[i];
          }
          if AnyChange(recorded, truths[1..]) {
            var i :| 0 <= i < |truths[1..]| && FindLine(recorded, truths[1..][i].line).Some?
                     && !Unchanged(FindLine(recorded, truths[1..][i].line).value, truths[1..][i]);
            assert truths[i + 1] == truths[1..][i];
          }
        }
      }
    }
  }

  /**
   * A correction is refused at the planning exactly when a stated line is not on
   * the delivery, is stated twice or makes no sense, or when nothing at all would
   * change. (src/modules/inventory/delivery-correction.ts:118-208)
   */
  lemma {:induction false} PlanAcceptsExactly(recorded: seq<Line>, truths: seq<Truth>, feeChanged: bool)
    ensures PlanCorrection(recorded, truths, feeChanged).problems == []
      <==> Sensible(recorded, truths, {}) && (feeChanged || AnyChange(recorded, truths))
  {
    ProblemsExactlyWhenNotSensible(recorded, truths, {}, Plan([], []));
  }

  // -- Receiving --------------------------------------------------------------

  /** A delivery's own lots so far: lines, lots and movements agree, and each lot carries its cost. */
  ghost predicate ArrivingOk(b: Books, d: Id, lines: seq<Line>) {
    LinesOk(b, d, lines) && forall i :: 0 <= i < |lines| ==> Costed(b.lots, lines[i])
  }

  lemma {:induction false} ReceiveOneKeeps(b: Books, inp: DeliveryInput, e: Entry, share: nat, lines: seq<Line>)
    requires Sound(b) && ArrivingOk(b, inp.id, lines) && ReceiveOne(b, inp, e, share).Ok?
    requires forall i :: 0 <= i < |lines| ==> lines[i].id != e.id
    ensures var b1 := ReceiveOne(b, inp, e, share).value;
      && ArrivingOk(b1, inp.id, lines + [EntryLine(e, share)])
      && Elsewhere(b, b1, inp.id, lines, lines + [EntryLine(e, share)])
  {
    hide Sound, Accounted, VariantAllowed;
    var d, line := inp.id, EntryLine(e, share);
    var lots := b.lots[e.lot := EntryLot(e, inp.receivedAt, share)];
    var b0 := b.(lots := lots);
    FiguresSound(b, lots);
    RefSumUnlotted(b, d, e.lot);
    ArrivesMoves(b0, Key(e.product, e.option, inp.location, e.lot), e.received, Ledger.Receipt, d);
    var b1 := ReceiveOne(b, inp, e, share).value;
    var after := lines + [line];
    forall i | 0 <= i < |after|
      ensures LineOk(b1, d, after[i]) && Costed(b1.lots, after[i])
      ensures i < |lines| ==> after[i].lot != e.lot
    {
      if i < |lines| {
        assert LineOk(b, d, lines[i]) && Costed(b.lots, lines[i]);
      }
    }
    forall lot | UsesLot(after, lot)
      ensures UsesLot(lines, lot) || lot !in b.lots
    {
      var i :| 0 <= i < |after| && after[i].lot == lot;
      if i < |lines| {
        assert lines[i].lot == lot;
      }
    }
  }

  predicate NewIds(lines: seq<Line>, entries: seq<Entry>) {
    forall i, j :: 0 <= i < |lines| && 0 <= j < |entries| ==> lines[i].id != entries[j].id
  }

  lemma {:induction false} IdsStillNew(lines: seq<Line>, entries: seq<Entry>, share: nat)
    requires entries != [] && DistinctIds(entries) && NewIds(lines, entries)
    ensures forall i :: 0 <= i < |lines| ==> lines[i].id != entries[0].id
    ensures DistinctIds(entries[1..]) && NewIds(lines + [EntryLine(entries[0], share)], entries[1..])
  {
  }

  lemma {:induction false} LinesInPieces(lines: seq<Line>, entries: seq<Entry>, shares: seq<nat>)
    requires |shares| == |entries| && entries != []
    ensures lines + [EntryLine(entries[0], shares[0])] + EntryLines(entries[1..], shares[1..])
         == lines + EntryLines(entries, shares)
  {
  }

  lemma {:induction false} ReceiveAllKeeps(b: Books, inp: DeliveryInput, entries: seq<Entry>, shares: seq<nat>, lines: seq<Line>)
    requires |shares| == |entries| && Sound(b) && ArrivingOk(b, inp.id, lines)
    requires DistinctIds(entries) && NewIds(lines, entries)
    requires ReceiveAll(b, inp, entries, shares, lines).Ok?
    ensures var r := ReceiveAll(b, inp, entries, shares, lines).value;
      && ArrivingOk(r.books, inp.id, r.lines)
      && Elsewhere(b, r.books, inp.id, lines, r.lines)
      && r.lines == lines + EntryLines(entries, shares)
    decreases entries
  {
    hide Sound, ReceiveOne, ArrivingOk, Elsewhere, EntryLines, DistinctIds, NewIds;
    if entries == [] {
      NothingElsewhere(b, inp.id, lines);
      assert lines + EntryLines(entries, shares) == lines;
    } else {
      var b1 := ReceiveOne(b, inp, entries[0], shares[0]).value;
      var lines1 := lines + [EntryLine(entries[0], shares[0])];
      IdsStillNew(lines, entries, shares[0]);
      ReceiveOneKeeps(b, inp, entries[0], shares[0], lines);
      ElsewhereSound(b, b1, inp.id, lines, lines1);
      ReceiveAllKeeps(b1, inp, entries[1..], shares[1..], lines1);
      var r := ReceiveAll(b1, inp, entries[1..], shares[1..], lines1).value;
      ElsewhereThen(b, b1, r.books, inp.id, lines, lines1, r.lines);
      LinesInPieces(lines, entries, shares);
    }
  }

  function EntryLines(entries: seq<Entry>, shares: seq<nat>): (r: seq<Line>)
    requires |shares| == |entries|
    ensures |r| == |entries|
    ensures forall i :: 0 <= i < |r| ==> r[i] == EntryLine(entries[i], shares[i])
  {
    if entries == [] then [] else [EntryLine(entries[0], shares[0])] + EntryLines(entries[1..], shares[1..])
  }

  lemma {:induction false} EntryFigures(entries: seq<Entry>, shares: seq<nat>)
    requires |shares| == |entries|
    ensures FeeLines(EntryLines(entries, shares)) == EntryFeeLines(entries)
    ensures FeeShares(EntryLines(entries, shares)) == shares
    ensures Value(EntryLines(entries, shares)) == EntryValue(entries)
  {
    if entries != [] {
      EntryFigures(entries[1..], shares[1..]);
    }
  }

  // -- The whole shop ---------------------------------------------------------

  ghost predicate ReceiptOk(b: Books, d: Id, r: Receipt) {
    LinesOk(b, d, r.lines) && SharesOk(b.lots, r.lines, r.fee.amount)
  }

  /** No two deliveries share a lot. */
  ghost predicate LotsApart(receipts: map<Id, Receipt>) {
    forall d, e, lot :: d in receipts && e in receipts && d != e && UsesLot(receipts[d].lines, lot) ==>
      !UsesLot(receipts[e].lines, lot)
  }

  /** A delivery nobody recorded has moved nothing. */
  ghost predicate RefsKnown(ms: seq<Movement>, receipts: map<Id, Receipt>) {
    forall d: Id, lot: Id :: d !in receipts ==> RefSum(ms, d, lot) == 0
  }

  /** No two deliveries share a bill. */
  predicate BillsApart(receipts: map<Id, Receipt>) {
    forall d, e :: d in receipts && e in receipts && d != e ==> receipts[d].bill != receipts[e].bill
  }

  ghost predicate ShopOk(s: Shop) {
    && Sound(s.books) && Accounted(s.books)
    && Payables.NeverOverpaid(s.vendors)
    && (forall d :: d in s.receipts ==> ReceiptOk(s.books, d, s.receipts[d]) && s.receipts[d].bill < |s.vendors.bills|)
    && LotsApart(s.receipts) && BillsApart(s.receipts)
    && RefsKnown(s.books.movements, s.receipts)
  }

  /** A delivery is untouched by anything that leaves its lots and its references alone. */
  lemma {:induction false} ReceiptUntouched(b: Books, b1: Books, d: Id, r: Receipt)
    requires ReceiptOk(b, d, r)
    requires forall lot :: lot in b.lots && UsesLot(r.lines, lot) ==> lot in b1.lots && b1.lots[lot] == b.lots[lot]
    requires forall lot :: RefSum(b1.movements, d, lot) == RefSum(b.movements, d, lot)
    ensures ReceiptOk(b1, d, r)
  {
    forall i | 0 <= i < |r.lines|
      ensures LineOk(b1, d, r.lines[i]) && Costed(b1.lots, r.lines[i])
    {
      assert LineOk(b, d, r.lines[i]) && Costed(b.lots, r.lines[i]);
      assert UsesLot(r.lines, r.lines[i].lot);
    }
  }

  /** Replacing one delivery, when everything else stayed elsewhere, leaves the shop consistent. */
  lemma {:induction false} OneDeliveryChanged(s: Shop, s1: Shop, d: Id, r: Receipt)
    requires ShopOk(s) && s1.receipts == s.receipts[d := r]
    requires ReceiptOk(s1.books, d, r) && r.bill < |s1.vendors.bills|
    requires if d in s.receipts then r.bill == s.receipts[d].bill else r.bill >= |s.vendors.bills|
    requires Payables.NeverOverpaid(s1.vendors) && |s.vendors.bills| <= |s1.vendors.bills|
    requires Elsewhere(s.books, s1.books, d, if d in s.receipts then s.receipts[d].lines else [], r.lines)
    ensures ShopOk(s1)
  {
    hide Sound, Accounted, Payables.NeverOverpaid, ReceiptOk, Elsewhere, RefsKnown, LotsApart, NoSharedLot;
    forall e | e in s.receipts && e != d
      ensures ReceiptOk(s1.books, e, s.receipts[e])
      ensures NoSharedLot(r.lines, s.receipts[e].lines)
    {
      OtherDelivery(s, s1.books, d, e, r.lines);
    }
    StillApart(s.receipts, d, r);
    RefsStillKnown(s, s1.books, d, r);
    ElsewhereBooks(s.books, s1.books, d, if d in s.receipts then s.receipts[d].lines else [], r.lines);
  }

  ghost predicate NoSharedLot(x: seq<Line>, y: seq<Line>) {
    forall lot :: UsesLot(x, lot) ==> !UsesLot(y, lot)
  }

  /** Another delivery, and its lots, stay as they were. */
  lemma {:induction false} OtherDelivery(s: Shop, b1: Books, d: Id, e: Id, after: seq<Line>)
    requires LotsApart(s.receipts) && e in s.receipts && e != d && ReceiptOk(s.books, e, s.receipts[e])
    requires Elsewhere(s.books, b1, d, if d in s.receipts then s.receipts[d].lines else [], after)
    ensures ReceiptOk(b1, e, s.receipts[e])
    ensures NoSharedLot(after, s.receipts[e].lines)
  {
    hide Sound, Accounted, UsesLot, LineOk;
    ApartFrom(s, d, e);
    UsedLotsExist(s.books, e, s.receipts[e].lines);
    ReceiptUntouched(s.books, b1, e, s.receipts[e]);
  }

  lemma {:induction false} StillApart(receipts: map<Id, Receipt>, d: Id, r: Receipt)
    requires LotsApart(receipts)
    requires forall e :: e in receipts && e != d ==> NoSharedLot(r.lines, receipts[e].lines)
    ensures LotsApart(receipts[d := r])
  {
    hide UsesLot;
    var after := receipts[d := r];
    forall e, f, lot | e in after && f in after && e != f && UsesLot(after[e].lines, lot)
      ensures !UsesLot(after[f].lines, lot)
    {
      if f == d {
        assert NoSharedLot(r.lines, receipts[e].lines);
      } else if e == d {
        assert NoSharedLot(r.lines, receipts[f].lines);
      }
    }
  }

  lemma {:induction false} RefsStillKnown(s: Shop, b1: Books, d: Id, r: Receipt)
    requires RefsKnown(s.books.movements, s.receipts)
    requires Elsewhere(s.books, b1, d, if d in s.receipts then s.receipts[d].lines else [], r.lines)
    ensures RefsKnown(b1.movements, s.receipts[d := r])
  {
    hide Sound, Accounted, UsesLot;
  }

  lemma {:induction false} ElsewhereBooks(b: Books, b1: Books, d: Id, before: seq<Line>, after: seq<Line>)
    requires Elsewhere(b, b1, d, before, after)
    ensures Sound(b1) && (Accounted(b) ==> Accounted(b1))
  {
    hide Sound, Accounted;
  }

  lemma {:induction false} ApartFrom(s: Shop, d: Id, e: Id)
    requires LotsApart(s.receipts) && e in s.receipts && e != d
    ensures forall lot :: UsesLot(s.receipts[e].lines, lot) ==>
      !UsesLot(if d in s.receipts then s.receipts[d].lines else [], lot)
  {
  }

  lemma {:induction false} UsedLotsExist(b: Books, d: Id, lines: seq<Line>)
    requires LinesOk(b, d, lines)
    ensures forall lot :: UsesLot(lines, lot) ==> lot in b.lots
  {
    LinesHaveLots(b, d, lines);
  }

  lemma {:induction false} ReceiveKeeps(s: Shop, inp: DeliveryInput)
    requires ShopOk(s) && Receive(s, inp).Ok?
    ensures ShopOk(Receive(s, inp).value)
    ensures var s1 := Receive(s, inp).value;
      && inp.id in s1.receipts && |s1.receipts[inp.id].lines| == |inp.entries|
      && Value(s1.receipts[inp.id].lines) == EntryValue(inp.entries)
  {
    hide Sound, Accounted, Payables.NeverOverpaid, Fee.Split, ReceiveAll, Elsewhere, ReceiptOk, ArrivingOk, LotsApart, BillsApart,
         RefsKnown, EntryLines;
    var split := Fee.Split(inp.fee.amount, EntryFeeLines(inp.entries)).value;
    SplitLength(inp.fee.amount, EntryFeeLines(inp.entries));
    NothingArrivedYet(s.books, inp.id);
    ReceiveAllKeeps(s.books, inp, inp.entries, split, []);
    EntryFigures(inp.entries, split);
    var s1 := Receive(s, inp).value;
    var r := s1.receipts[inp.id];
    assert [] + EntryLines(inp.entries, split) == EntryLines(inp.entries, split);
    assert r.lines == EntryLines(inp.entries, split);
    ReceivedIsOk(s1.books, inp.id, r);
    DeliveryRaises(s.vendors, inp);
    OneDeliveryChanged(s, s1, inp.id, r);
  }

  lemma {:induction false} NothingArrivedYet(b: Books, d: Id)
    ensures ArrivingOk(b, d, [])
  {
  }

  lemma {:induction false} ReceivedIsOk(b: Books, d: Id, r: Receipt)
    requires ArrivingOk(b, d, r.lines) && Fee.Split(r.fee.amount, FeeLines(r.lines)) == Ok(FeeShares(r.lines))
    ensures ReceiptOk(b, d, r)
  {
  }

  lemma {:induction false} DeliveryRaises(v: Payables.Vendors, inp: DeliveryInput)
    requires Payables.NeverOverpaid(v)
    ensures var due := if inp.amountDue.Some? then inp.amountDue.value else EntryValue(inp.entries);
      var r := Payables.RaiseForDelivery(v, inp.supplier, due, inp.payment);
      r.Ok? ==> Payables.NeverOverpaid(r.value) && |r.value.bills| == |v.bills| + 1
  {
    var due := if inp.amountDue.Some? then inp.amountDue.value else EntryValue(inp.entries);
    Payables.NextNeverOverpaid(v, Payables.Deliver(inp.supplier, due, inp.payment));
  }

  lemma {:induction false} BillCorrected(s: Shop, bill: nat, delta: int)
    requires Payables.NeverOverpaid(s.vendors) && bill < |s.vendors.bills| && BillAfter(s, bill, delta).Ok?
    ensures var v := BillAfter(s, bill, delta).value;
      && Payables.NeverOverpaid(v) && |v.bills| == |s.vendors.bills|
      && v.bills[bill].amountDue == s.vendors.bills[bill].amountDue + (if Payables.Live(s.vendors, bill) then delta else 0)
      && (Payables.NothingNegative(s.vendors) ==> Payables.NothingNegative(v))
  {
    Payables.NextNeverOverpaid(s.vendors, Payables.CorrectDelivery(bill, delta));
    if Payables.NothingNegative(s.vendors) {
      Payables.OnlyAHarshEditGoesNegative(s.vendors, Payables.CorrectDelivery(bill, delta));
    }
  }

  lemma {:induction false} CorrectKeepsLines(s: Shop, d: Id, inp: Correction)
    requires ShopOk(s) && Correct(s, d, inp).Ok?
    ensures var s1 := Correct(s, d, inp).value;
      && d in s.receipts && d in s1.receipts
      && ReceiptOk(s1.books, d, s1.receipts[d])
      && Elsewhere(s.books, s1.books, d, s.receipts[d].lines, s1.receipts[d].lines)
      && Value(s1.receipts[d].lines) == Value(s.receipts[d].lines) + ValueDelta(PlanFor(s, d, inp).changes)
  {
    hide Sound, Accounted, Payables.NeverOverpaid, ApplyChanges, ShareTheFee, Elsewhere, LinesOk, SharesOk, PlanCorrection, BillAfter;
    var r := s.receipts[d];
    assert ReceiptOk(s.books, d, r);
    var plan := PlanFor(s, d, inp);
    var fee := if inp.fee.Some? then inp.fee.value else r.fee;
    PlanIsAboutLines(s.books.movements, r.location, r.lines, inp.truths, inp.fee.Some? && inp.fee.value != r.fee);
    ApplyChangesKeeps(s.books, r.lines, s.stocked, SiteOf(d, r), plan.changes, inp);
    var changed := ApplyChanges(s.books, r.lines, s.stocked, SiteOf(d, r), plan.changes, inp).value;
    ElsewhereSound(s.books, changed.books, d, r.lines, changed.lines);
    ShareTheFeeKeeps(changed.books, d, changed.lines, fee.amount);
    var shared := ShareTheFee(changed.books, changed.lines, fee.amount).value;
    ElsewhereThen(s.books, changed.books, shared.books, d, r.lines, changed.lines, shared.lines);
  }

  /** How far a delivery's bill stands above the value of its lines. */
  function Gap(s: Shop, d: Id): int
    requires d in s.receipts && s.receipts[d].bill < |s.vendors.bills|
  {
    s.vendors.bills[s.receipts[d].bill].amountDue - Value(s.receipts[d].lines)
  }

  /**
   * A correction leaves everything agreeing, and while the bill stands it moves
   * by exactly what the lines moved by.
   */
  lemma {:induction false} CorrectKeeps(s: Shop, d: Id, inp: Correction)
    requires ShopOk(s) && Correct(s, d, inp).Ok?
    ensures ShopOk(Correct(s, d, inp).value)
    ensures var s1 := Correct(s, d, inp).value;
      && d in s.receipts && d in s1.receipts && s1.receipts[d].bill == s.receipts[d].bill
      && (Payables.Live(s.vendors, s.receipts[d].bill) ==> Gap(s1, d) == Gap(s, d))
      && (Payables.NothingNegative(s.vendors) ==> Payables.NothingNegative(s1.vendors))
  {
    hide Sound, Accounted, Payables.NeverOverpaid, Payables.NothingNegative, ApplyChanges, ShareTheFee, Elsewhere, ReceiptOk,
         PlanFor, BillAfter, LotsApart, RefsKnown, Payables.Live;
    CorrectKeepsLines(s, d, inp);
    var r := s.receipts[d];
    var s1 := Correct(s, d, inp).value;
    BillCorrected(s, r.bill, ValueDelta(PlanFor(s, d, inp).changes));
    OneDeliveryChanged(s, s1, d, s1.receipts[d]);
  }
}
