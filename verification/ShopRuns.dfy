/**
 * The whole shop over any run: deliveries, corrections, every ledger operation
 * and every payables call, in any order.
 */
module ShopRuns {
  import opened Common
  import opened Ledger
  import opened Deliveries
  import opened DeliveryTheorems
  import opened DeliveryRuns
  import Fee = DeliveryFee
  import LedgerRuns
  import Payables

  datatype Step =
    | Arrive(entered: DeliveryInput)
    | Amend(delivery: Id, truth: Correction)
    | MoveStock(ledger: LedgerRuns.Step)
    | DealWithVendors(payable: Payables.Step)
    | ListProducts(stocked: set<Id>)

  const NEW_SHOP := Shop(Ledger.EMPTY, Payables.EMPTY, map[], {})

  function Kept(s: Shop, r: Result<Shop, Deliveries.Refusal>): Shop {
    if r.Ok? then r.value else s
  }

  /** Only receiving and correcting write under a delivery's name or move its bill by a value. */
  function Next(s: Shop, step: Step): Shop {
    match step
    case Arrive(entered) => Kept(s, Receive(s, entered))
    case Amend(delivery, truth) => Kept(s, Deliveries.Correct(s, delivery, truth))
    case MoveStock(ledger) => if LedgerRuns.DeliveryFree(ledger) then s.(books := LedgerRuns.Next(s.books, ledger)) else s
    case DealWithVendors(payable) =>
      if payable.CorrectDelivery? || payable.Deliver? then s else s.(vendors := Payables.Next(s.vendors, payable))
    case ListProducts(stocked) => s.(stocked := stocked)
  }

  function Run(s: Shop, steps: seq<Step>): Shop
    decreases steps
  {
    if steps == [] then s else Run(Next(s, steps[0]), steps[1..])
  }

  // -- One step ---------------------------------------------------------------

  lemma {:induction false} NoRefs(ms: seq<Movement>, d: Id, lot: Id)
    requires NoDelivery(ms)
    ensures RefSum(ms, d, lot) == 0
  {
    if ms != [] {
      NoRefs(ms[1..], d, lot);
    }
  }

  /** What the ledger does for other reasons adds nothing under a delivery's name and leaves its lots alone. */
  lemma {:induction false} StockAround(b: Books, step: LedgerRuns.Step)
    requires Sound(b) && LedgerRuns.DeliveryFree(step)
    ensures var b1 := LedgerRuns.Next(b, step);
      && LotsKept(b.lots, b1.lots)
      && forall d: Id, lot: Id :: RefSum(b1.movements, d, lot) == RefSum(b.movements, d, lot)
  {
    hide Sound, LedgerRuns.Next;
    LedgerRuns.NextAdds(b, step);
    var b1 := LedgerRuns.Next(b, step);
    var added := b1.movements[|b.movements|..];
    assert b1.movements == b.movements + added;
    forall d: Id, lot: Id
      ensures RefSum(b1.movements, d, lot) == RefSum(b.movements, d, lot)
    {
      RefSumConcat(b.movements, added, d, lot);
      NoRefs(added, d, lot);
    }
  }

  lemma {:induction false} MoveStockKeeps(s: Shop, ledger: LedgerRuns.Step)
    requires ShopOk(s) && LedgerRuns.DeliveryFree(ledger)
    ensures ShopOk(s.(books := LedgerRuns.Next(s.books, ledger)))
  {
    hide Sound, Accounted, LedgerRuns.Next, LedgerRuns.DeliveryFree, Payables.NeverOverpaid, ReceiptOk;
    LedgerRuns.NextKeeps(s.books, ledger);
    StockAround(s.books, ledger);
    var b1 := LedgerRuns.Next(s.books, ledger);
    forall d | d in s.receipts
      ensures ReceiptOk(b1, d, s.receipts[d])
    {
      ReceiptUntouched(s.books, b1, d, s.receipts[d]);
    }
  }

  lemma {:induction false} VendorsKeep(s: Shop, payable: Payables.Step)
    requires ShopOk(s)
    ensures ShopOk(s.(vendors := Payables.Next(s.vendors, payable)))
  {
    hide Sound, Accounted, ReceiptOk;
    Payables.NextNeverOverpaid(s.vendors, payable);
  }

  lemma {:induction false} NextKeeps(s: Shop, step: Step)
    requires ShopOk(s)
    ensures ShopOk(Next(s, step))
  {
    hide ShopOk, Receive, Deliveries.Correct, LedgerRuns.Next, LedgerRuns.DeliveryFree, Payables.Next;
    match step
    case Arrive(entered) =>
      if Receive(s, entered).Ok? {
        ReceiveKeeps(s, entered);
      }
    case Amend(delivery, truth) =>
      if Deliveries.Correct(s, delivery, truth).Ok? {
        CorrectKeeps(s, delivery, truth);
      }
    case MoveStock(ledger) =>
      if LedgerRuns.DeliveryFree(ledger) {
        MoveStockKeeps(s, ledger);
      }
    case DealWithVendors(payable) => VendorsKeep(s, payable);
    case ListProducts(stocked) => CatalogDoesNotMatter(s, stocked);
  }

  lemma {:induction false} CatalogDoesNotMatter(s: Shop, stocked: set<Id>)
    requires ShopOk(s)
    ensures ShopOk(s.(stocked := stocked))
  {
    hide Sound, Accounted, Payables.NeverOverpaid, ReceiptOk, LotsApart, BillsApart, RefsKnown;
  }

  lemma {:induction false} RunKeeps(s: Shop, steps: seq<Step>)
    requires ShopOk(s)
    ensures ShopOk(Run(s, steps))
    decreases steps
  {
    hide ShopOk, Next;
    if steps != [] {
      NextKeeps(s, steps[0]);
      RunKeeps(Next(s, steps[0]), steps[1..]);
    }
  }

  // -- What always holds ------------------------------------------------------

  lemma {:induction false} NewShopIsOk()
    ensures ShopOk(NEW_SHOP)
  {
  }

  lemma {:induction false} TotalOfShares(fee: nat, lines: seq<Line>)
    requires Fee.Split(fee, FeeLines(lines)) == Ok(FeeShares(lines)) && lines != []
    ensures Fee.Total(FeeShares(lines)) == fee
  {
    Fee.SplitIsExact(fee, FeeLines(lines));
  }

  /**
   * In every reachable state, on every line of every delivery: the lot holds what
   * the line says arrived and was paid for, the delivery's own movements on the
   * lot add up to it, the lot's total is the line's value and its share of the fee,
   * and the shares add up to the fee.
   */
  lemma {:induction false} DeliveriesAlwaysAgree(steps: seq<Step>, d: Id, i: nat)
    ensures var s := Run(NEW_SHOP, steps);
      d in s.receipts && i < |s.receipts[d].lines| ==>
        var line := s.receipts[d].lines[i];
        && line.lot in s.books.lots
        && var lot := s.books.lots[line.lot];
        && lot.product == line.product
        && lot.quantityReceived == line.received == RefSum(s.books.movements, d, line.lot)
        && lot.quantityPaidFor == line.paidFor
        && lot.totalCost == line.totalCost + line.deliveryCost
        && Fee.Total(FeeShares(s.receipts[d].lines)) == s.receipts[d].fee.amount
        && (line.received == 0 ==> line.deliveryCost == 0)
  {
    hide Run, Sound, Accounted, Payables.NeverOverpaid, Fee.Split, LotsApart, BillsApart, RefsKnown;
    NewShopIsOk();
    RunKeeps(NEW_SHOP, steps);
    var s := Run(NEW_SHOP, steps);
    if d in s.receipts && i < |s.receipts[d].lines| {
      var r := s.receipts[d];
      assert ReceiptOk(s.books, d, r);
      assert LineOk(s.books, d, r.lines[i]) && Costed(s.books.lots, r.lines[i]);
      TotalOfShares(r.fee.amount, r.lines);
      Fee.SplitIsExact(r.fee.amount, FeeLines(r.lines));
      assert FeeLines(r.lines)[i].quantityReceived == r.lines[i].received;
    }
  }

  // -- Only added to ----------------------------------------------------------

  /** Recording a delivery writes its movements after those there were. */
  lemma {:induction false} ArriveAdds(s: Shop, entered: DeliveryInput)
    requires ShopOk(s) && Receive(s, entered).Ok?
    ensures s.books.movements <= Receive(s, entered).value.books.movements
  {
    hide Sound, Accounted, Payables.NeverOverpaid, Fee.Split, ReceiveAll, ReceiptOk, LotsApart, BillsApart, RefsKnown;
    var split := Fee.Split(entered.fee.amount, EntryFeeLines(entered.entries)).value;
    SplitLength(entered.fee.amount, EntryFeeLines(entered.entries));
    ReceiveAllKeeps(s.books, entered, entered.entries, split, []);
  }

  /** Correcting one does too. */
  lemma {:induction false} AmendAdds(s: Shop, delivery: Id, truth: Correction)
    requires ShopOk(s) && Deliveries.Correct(s, delivery, truth).Ok?
    ensures s.books.movements <= Deliveries.Correct(s, delivery, truth).value.books.movements
  {
    hide ShopOk, ReceiptOk, Deliveries.Correct;
    CorrectKeepsLines(s, delivery, truth);
  }

  lemma {:induction false} NextAdds(s: Shop, step: Step)
    requires ShopOk(s)
    ensures s.books.movements <= Next(s, step).books.movements
  {
    hide ShopOk, Receive, Deliveries.Correct, LedgerRuns.Next, LedgerRuns.DeliveryFree, Payables.Next;
    match step
    case Arrive(entered) =>
      if Receive(s, entered).Ok? {
        ArriveAdds(s, entered);
      }
    case Amend(delivery, truth) =>
      if Deliveries.Correct(s, delivery, truth).Ok? {
        AmendAdds(s, delivery, truth);
      }
    case MoveStock(ledger) =>
      if LedgerRuns.DeliveryFree(ledger) {
        BooksAreOk(s);
        LedgerRuns.NextAdds(s.books, ledger);
      }
    case _ =>
  }

  lemma {:induction false} BooksAreOk(s: Shop)
    requires ShopOk(s)
    ensures Sound(s.books) && Accounted(s.books)
  {
  }

  /** Over any run of the shop, corrections too, no movement is ever changed or taken away: the ledger is only added to. */
  lemma {:induction false} MovementsStand(s: Shop, steps: seq<Step>)
    requires ShopOk(s)
    ensures s.books.movements <= Run(s, steps).books.movements
    decreases steps
  {
    hide ShopOk, Next;
    if steps != [] {
      NextKeeps(s, steps[0]);
      NextAdds(s, steps[0]);
      MovementsStand(Next(s, steps[0]), steps[1..]);
    }
  }

  // -- The bill follows the value ---------------------------------------------

  /** The step edits or removes this bill by hand. */
  predicate ByHand(step: Step, bill: nat) {
    && step.DealWithVendors?
    && ((step.payable.EditBill? && step.payable.on == bill) || (step.payable.RemoveBill? && step.payable.on == bill))
  }

  predicate Billed(s: Shop, d: Id) {
    d in s.receipts && s.receipts[d].bill < |s.vendors.bills| && Payables.Live(s.vendors, s.receipts[d].bill)
  }

  /** The delivery is there, on the same live bill, standing as far above its lines' value. */
  predicate SameGap(s: Shop, s1: Shop, d: Id)
    requires Billed(s, d)
  {
    Billed(s1, d) && s1.receipts[d].bill == s.receipts[d].bill && Gap(s1, d) == Gap(s, d)
  }

  lemma {:induction false} VendorsKeepGap(s: Shop, payable: Payables.Step, d: Id)
    requires ShopOk(s) && Billed(s, d) && !ByHand(DealWithVendors(payable), s.receipts[d].bill)
    requires !payable.CorrectDelivery?
    ensures SameGap(s, s.(vendors := Payables.Next(s.vendors, payable)), d)
  {
    hide Sound, Accounted, ReceiptOk, LotsApart, BillsApart, RefsKnown;
    Payables.StepFigures(s.vendors, payable, s.receipts[d].bill);
  }

  lemma {:induction false} ArriveKeepsGap(s: Shop, entered: DeliveryInput, d: Id)
    requires ShopOk(s) && Billed(s, d) && Receive(s, entered).Ok?
    ensures SameGap(s, Receive(s, entered).value, d)
  {
    hide ShopOk, ReceiveAll, Fee.Split;
  }

  lemma {:induction false} AmendKeepsGap(s: Shop, delivery: Id, truth: Correction, d: Id)
    requires ShopOk(s) && Billed(s, d) && Deliveries.Correct(s, delivery, truth).Ok?
    ensures SameGap(s, Deliveries.Correct(s, delivery, truth).value, d)
  {
    CorrectKeeps(s, delivery, truth);
    OthersStand(s, delivery, truth, d);
  }

  lemma {:induction false} OthersStand(s: Shop, delivery: Id, truth: Correction, d: Id)
    requires BillsApart(s.receipts) && Billed(s, d) && Deliveries.Correct(s, delivery, truth).Ok?
    ensures var s1 := Deliveries.Correct(s, delivery, truth).value;
      && Billed(s1, d) && s1.receipts[d].bill == s.receipts[d].bill
      && (d != delivery ==> s1.receipts[d] == s.receipts[d] && Gap(s1, d) == Gap(s, d))
  {
    hide ApplyChanges, ShareTheFee, PlanFor;
  }

  lemma {:induction false} NextKeepsGap(s: Shop, step: Step, d: Id)
    requires ShopOk(s) && Billed(s, d) && !ByHand(step, s.receipts[d].bill)
    ensures SameGap(s, Next(s, step), d)
  {
    hide ShopOk, Receive, Deliveries.Correct, LedgerRuns.Next, Payables.Next;
    match step
    case Arrive(entered) =>
      if Receive(s, entered).Ok? {
        ArriveKeepsGap(s, entered, d);
      }
    case Amend(delivery, truth) =>
      if Deliveries.Correct(s, delivery, truth).Ok? {
        AmendKeepsGap(s, delivery, truth, d);
      }
    case MoveStock(_) =>
    case DealWithVendors(payable) =>
      if !payable.CorrectDelivery? {
        VendorsKeepGap(s, payable, d);
      }
    case ListProducts(_) =>
  }

  /**
   * Whatever else happens, and however often it is corrected, a delivery's bill
   * stays as far above the value of its lines as it was, until the bill is edited
   * or removed by hand.
   */
  lemma {:induction false} GapNeverMoves(s: Shop, steps: seq<Step>, d: Id)
    requires ShopOk(s) && Billed(s, d)
    requires forall i :: 0 <= i < |steps| ==> !ByHand(steps[i], s.receipts[d].bill)
    ensures SameGap(s, Run(s, steps), d)
    decreases steps
  {
    hide ShopOk, Next, Gap, Billed, ByHand;
    if steps != [] {
      NextKeeps(s, steps[0]);
      NextKeepsGap(s, steps[0], d);
      GapNeverMoves(Next(s, steps[0]), steps[1..], d);
    }
  }
}
