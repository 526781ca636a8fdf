/**
 * Receiving and correcting as they run, over the stock service and the vendor
 * ledger: each call ends in exactly the shop its specification says, or leaves
 * everything as it was.
 */
module DeliveryServices {
  import opened Common
  import opened Ledger
  import opened Stock
  import opened Deliveries
  import Fee = DeliveryFee
  import Payables
  import StockServices

  /** What a correction reports of itself: the change in value, and the bill before and after. */
  datatype Report = Report(valueDelta: int, billBefore: Option<int>, billAfter: Option<int>)

  function LiveAmount(v: Payables.Vendors, bill: nat): Option<int> {
    if Payables.Live(v, bill) then Some(v.bills[bill].amountDue) else None
  }

  /** What a correction really does to the value and to the bill. */
  function ReportOf(s: Shop, s1: Shop, delivery: Id, inp: Correction): Report
    requires delivery in s.receipts
  {
    var bill := s.receipts[delivery].bill;
    Report(ValueDelta(PlanFor(s, delivery, inp).changes), LiveAmount(s.vendors, bill), LiveAmount(s1.vendors, bill))
  }

  class DeliveryService {
    const stock: StockServices.StockService
    const vendors: Payables.VendorLedger
    var receipts: map<Id, Receipt>
    var stocked: set<Id>

    function View(): Shop
      reads this, stock, vendors
    {
      Shop(stock.View(), vendors.View(), receipts, stocked)
    }

    constructor (stock: StockServices.StockService, vendors: Payables.VendorLedger, stocked: set<Id>)
      ensures this.stock == stock && this.vendors == vendors
      ensures View() == Shop(stock.View(), vendors.View(), map[], stocked)
    {
      this.stock, this.vendors, this.receipts, this.stocked := stock, vendors, map[], stocked;
    }

    // -- Recording ------------------------------------------------------------

    /** The lines of a delivery: a lot, a row and a movement in for each. */
    method ReceiveLines(inp: DeliveryInput, shares: seq<nat>) returns (r: Result<seq<Line>, Deliveries.Refusal>)
      requires |shares| == |inp.entries|
      modifies stock
      ensures match ReceiveAll(old(stock.View()), inp, inp.entries, shares, [])
        case Ok(received) => r == Ok(received.lines) && stock.View() == received.books
        case Err(e) => r == Err(e)
    {
      hide VariantAllowed;
      var lines: seq<Line> := [];
      var i := 0;
      while i < |inp.entries|
        invariant 0 <= i <= |inp.entries|
        invariant ReceiveAll(stock.View(), inp, inp.entries[i..], shares[i..], lines)
               == ReceiveAll(old(stock.View()), inp, inp.entries, shares, [])
      {
        var e, share := inp.entries[i], shares[i];
        assert inp.entries[i..][1..] == inp.entries[i + 1..] && shares[i..][1..] == shares[i + 1..];
        if e.lot in stock.lots {
          return Err(OfStock(IdTaken));
        }
        stock.lots := stock.lots[e.lot := EntryLot(e, inp.receivedAt, share)];
        var arrived := stock.RecordInbound(Key(e.product, e.option, inp.location, e.lot), e.received, Ledger.Receipt,
                                           Some(Delivery(inp.id)));
        if arrived.Err? {
          return Err(OfStock(arrived.error));
        }
        lines := lines + [EntryLine(e, share)];
        i := i + 1;
      }
      r := Ok(lines);
    }

    /** `ReceivingService.create`. */
    method Create(inp: DeliveryInput) returns (r: Result<(), Deliveries.Refusal>)
      modifies this`receipts, stock, vendors
      ensures match Receive(old(View()), inp)
        case Ok(s) => r == Ok(()) && View() == s
        case Err(e) => r == Err(e) && View() == old(View())
    {
      hide ReceiveAll, Fee.Split;
      if inp.id in receipts || !DistinctIds(inp.entries) {
        return Err(DeliveryExists);
      }
      ghost var before := View();
      var savedStock, savedVendors := stock.View(), vendors.View();
      var amountDue := if inp.amountDue.Some? then inp.amountDue.value else EntryValue(inp.entries);
      var billed := vendors.BillDelivery(inp.supplier, amountDue, inp.payment);
      if billed.Err? {
        return Err(OfBill(billed.error));
      }
      var shares := Fee.SplitDeliveryFee(inp.fee.amount, EntryFeeLines(inp.entries));
      if shares.Err? {
        vendors.RollBack(savedVendors);
        return Err(FeeHasNothingToJoin);
      }
      SplitLength(inp.fee.amount, EntryFeeLines(inp.entries));
      var lines := ReceiveLines(inp, shares.value);
      if lines.Err? {
        vendors.RollBack(savedVendors);
        stock.RollBack(savedStock);
        return Err(lines.error);
      }
      receipts := receipts[inp.id := Receipt.Receipt(inp.location, inp.receivedAt, inp.fee, lines.value, |savedVendors.bills|)];
      r := Ok(());
    }

    // -- Correcting -----------------------------------------------------------

    /** `planCorrection`: walks the stated lines, collecting changes and problems. */
    method MakePlan(recorded: seq<Line>, truths: seq<Truth>, feeChanged: bool) returns (plan: Plan)
      ensures plan == PlanCorrection(recorded, truths, feeChanged)
    {
      var changes: seq<Change>, problems: seq<Problem>, seen: set<Id> := [], [], {};
      for i := 0 to |truths|
        invariant PlanFrom(recorded, truths[i..], seen, Plan(changes, problems))
               == PlanFrom(recorded, truths, {}, Plan([], []))
      {
        var truth := truths[i];
        assert truths[i..][1..] == truths[i + 1..];
        var found := FindLine(recorded, truth.line);
        if found.None? {
          problems := AddProblem(problems, NotOnDelivery);
        } else if truth.line in seen {
          problems := AddProblem(problems, GivenTwice);
          assert seen + {truth.line} == seen;
        } else {
          var line := found.value;
          seen := seen + {truth.line};
          var problem := ProblemWith(line, truth);
          if problem.Some? {
            problems := AddProblem(problems, problem.value);
          } else if !Unchanged(line, truth) {
            changes := changes + [ChangeTo(line, truth)];
          }
        }
      }
      if problems == [] && changes == [] && !feeChanged {
        problems := [NothingChanged];
      }
      plan := Plan(changes, problems);
    }

    /** Takes stock of a line back out of its lot. */
    method Out(site: Site, inp: Correction, product: Id, option: Option<Id>, lot: Id, quantity: int) returns (r: Result<(), Deliveries.Refusal>)
      modifies stock
      ensures match TakeBack(old(stock.View()), site, inp, product, option, lot, quantity)
        case Ok(b) => r == Ok(()) && stock.View() == b
        case Err(e) => r == Err(e)
    {
      hide Outbound;
      var out := stock.RecordOutbound(OutOfLot(site, inp, product, option, lot, quantity), 0);
      r := if out.Ok? then Ok(()) else Err(OfStock(out.error));
    }

    /** Puts stock of a line into a lot. */
    method In(site: Site, product: Id, option: Option<Id>, lot: Id, quantity: int) returns (r: Result<(), Deliveries.Refusal>)
      modifies stock
      ensures match PutIn(old(stock.View()), site, product, option, lot, quantity)
        case Ok(b) => r == Ok(()) && stock.View() == b
        case Err(e) => r == Err(e)
    {
      hide Inbound;
      var arrived := stock.RecordInbound(Key(product, option, site.location, lot), quantity, Adjustment, Some(Delivery(site.delivery)));
      r := if arrived.Ok? then Ok(()) else Err(OfStock(arrived.error));
    }

    /** `moveToRightProduct`. */
    method MoveToRightProduct(site: Site, ch: Change, product: Id, inp: Correction) returns (r: Result<(), Deliveries.Refusal>)
      modifies stock
      ensures match ToRightProduct(old(stock.View()), stocked, site, ch, product, inp)
        case Ok(b) => r == Ok(()) && stock.View() == b
        case Err(e) => r == Err(e)
    {
      hide TakeBack, PutIn, VariantAllowed;
      if product !in stocked {
        return Err(NotStocked);
      }
      if !VariantAllowed(OptionsOf(stock.View(), product), ch.option, false) {
        return Err(OfStock(OptionRefused));
      }
      var expiry := if ch.line.lot in stock.lots then stock.lots[ch.line.lot].expiry else None;
      if ch.line.received > 0 {
        var out := Out(site, inp, ch.line.product, ch.line.option, ch.line.lot, ch.line.received);
        if out.Err? {
          return Err(out.error);
        }
      }
      stock.lots := SetLot(stock.lots, ch.line.lot, 0, 0, 0);
      if ch.line.id !in inp.newLots || inp.newLots[ch.line.id] in stock.lots {
        return Err(OfStock(IdTaken));
      }
      var lot := inp.newLots[ch.line.id];
      stock.lots := stock.lots[lot := Lot(product, expiry, site.receivedAt, ch.received, ch.paidFor, ch.totalCost)];
      r := In(site, product, ch.option, lot, ch.received);
    }

    /** `moveToRightOption`, or the difference on the line's own lot. */
    method MoveSameProduct(site: Site, ch: Change, inp: Correction) returns (r: Result<(), Deliveries.Refusal>)
      modifies stock
      ensures match SameProduct(old(stock.View()), site, ch, inp)
        case Ok(b) => r == Ok(()) && stock.View() == b
        case Err(e) => r == Err(e)
    {
      hide TakeBack, PutIn, VariantAllowed;
      r := Ok(());
      if ch.newOption {
        if !VariantAllowed(OptionsOf(stock.View(), ch.line.product), ch.option, false) {
          return Err(OfStock(OptionRefused));
        }
        if ch.line.received > 0 {
          r := Out(site, inp, ch.line.product, ch.line.option, ch.line.lot, ch.line.received);
          if r.Err? {
            return;
          }
        }
        r := In(site, ch.line.product, ch.option, ch.line.lot, ch.received);
      } else if ch.stockDelta < 0 {
        r := Out(site, inp, ch.line.product, ch.option, ch.line.lot, -ch.stockDelta);
      } else if ch.stockDelta > 0 {
        r := In(site, ch.line.product, ch.option, ch.line.lot, ch.stockDelta);
      }
    }

    /** Every planned change in turn: the stock, the lot's figures, the line's figures. */
    method ApplyAll(site: Site, recorded: seq<Line>, changes: seq<Change>, inp: Correction) returns (r: Result<seq<Line>, Deliveries.Refusal>)
      modifies stock
      ensures match ApplyChanges(old(stock.View()), recorded, stocked, site, changes, inp)
        case Ok(a) => r == Ok(a.lines) && stock.View() == a.books
        case Err(e) => r == Err(e)
    {
      hide ToRightProduct, SameProduct;
      var lines := recorded;
      var i := 0;
      while i < |changes|
        invariant 0 <= i <= |changes|
        invariant ApplyChanges(stock.View(), lines, stocked, site, changes[i..], inp)
               == ApplyChanges(old(stock.View()), recorded, stocked, site, changes, inp)
      {
        var ch := changes[i];
        assert changes[i..][1..] == changes[i + 1..];
        if ch.newProduct.Some? {
          var moved := MoveToRightProduct(site, ch, ch.newProduct.value, inp);
          if moved.Err? {
            return Err(moved.error);
          }
          var lot := if ch.line.id in inp.newLots then inp.newLots[ch.line.id] else 0;
          lines := ReplaceLine(lines, ChangedLine(ch.line, ch, ch.newProduct.value, lot));
        } else {
          var moved := MoveSameProduct(site, ch, inp);
          if moved.Err? {
            return Err(moved.error);
          }
          stock.lots := SetLot(stock.lots, ch.line.lot, ch.received, ch.paidFor, ch.totalCost);
          lines := ReplaceLine(lines, ChangedLine(ch.line, ch, ch.line.product, ch.line.lot));
        }
        i := i + 1;
      }
      r := Ok(lines);
    }

    /** Writes each line's share and its lot's total, where they differ. */
    method WriteShares(recorded: seq<Line>, shares: seq<nat>) returns (lines: seq<Line>)
      requires |shares| == |recorded|
      modifies stock`lots
      ensures stock.lots == Share(old(stock.lots), recorded, shares).0
      ensures lines == Share(old(stock.lots), recorded, shares).1
    {
      lines := [];
      var i := 0;
      while i < |recorded|
        invariant 0 <= i <= |recorded| && |lines| == i
        invariant Share(stock.lots, recorded[i..], shares[i..]).0 == Share(old(stock.lots), recorded, shares).0
        invariant forall j :: 0 <= j < i ==> lines[j] == recorded[j].(deliveryCost := shares[j])
      {
        var line, deliveryCost := recorded[i], shares[i];
        assert recorded[i..][1..] == recorded[i + 1..] && shares[i..][1..] == shares[i + 1..];
        var lotTotal := line.totalCost + deliveryCost;
        ghost var before := stock.lots;
        if line.lot in stock.lots && lotTotal != stock.lots[line.lot].totalCost {
          stock.lots := stock.lots[line.lot := stock.lots[line.lot].(totalCost := lotTotal)];
        }
        assert line.lot in before ==> stock.lots == before[line.lot := before[line.lot].(totalCost := lotTotal)];
        lines := lines + [if deliveryCost != line.deliveryCost then line.(deliveryCost := deliveryCost) else line];
        i := i + 1;
      }
    }

    /** `shareTheFee`. */
    method ShareFee(recorded: seq<Line>, fee: nat) returns (r: Result<seq<Line>, Deliveries.Refusal>)
      modifies stock`lots
      ensures match ShareTheFee(old(stock.View()), recorded, fee)
        case Ok(a) => r == Ok(a.lines) && stock.View() == a.books
        case Err(e) => r == Err(e)
    {
      hide Fee.Split, Fee.FeeHasSomewhereToGo, Share, FeeLines;
      if fee > 0 && !Fee.FeeHasSomewhereToGo(FeeLines(recorded)) {
        return Err(FeeHasNothingToJoin);
      }
      var split := Fee.SplitDeliveryFee(fee, FeeLines(recorded));
      if split.Err? {
        return Err(FeeHasNothingToJoin);
      }
      SplitLength(fee, FeeLines(recorded));
      var lines := WriteShares(recorded, split.value);
      r := Ok(lines);
    }

    /** The bill follows the change in value. */
    method FollowTheValue(bill: nat, delta: int) returns (r: Result<(), Deliveries.Refusal>)
      modifies vendors
      ensures match BillAfter(old(View()), bill, delta)
        case Ok(v) => r == Ok(()) && vendors.View() == v
        case Err(e) => r == Err(e) && vendors.View() == old(vendors.View())
    {
      if !Payables.Live(vendors.View(), bill) || delta == 0 {
        return Ok(());
      }
      var moved := vendors.MoveBill(bill, delta);
      r := if moved.Ok? then Ok(()) else Err(OfBill(moved.error));
    }

    /**
     * `apply`: the whole correction, and for a dry run the whole correction undone.
     * So a preview is refused exactly when the save is, for the same reason, and
     * what it reports is what the save does.
     */
    method Apply(delivery: Id, inp: Correction, dryRun: bool) returns (r: Result<Report, Deliveries.Refusal>)
      modifies this`receipts, stock, vendors
      ensures match Deliveries.Correct(old(View()), delivery, inp)
        case Ok(s) => r == Ok(ReportOf(old(View()), s, delivery, inp)) && View() == if dryRun then old(View()) else s
        case Err(e) => r == Err(e) && View() == old(View())
    {
      hide ApplyChanges, ShareTheFee, PlanCorrection, BillAfter;
      if delivery !in receipts {
        return Err(NoSuchDelivery);
      }
      ghost var before := View();
      var savedStock, savedVendors := stock.View(), vendors.View();
      var receipt := receipts[delivery];
      var feeChanged := inp.fee.Some? && inp.fee.value != receipt.fee;
      var fee := if inp.fee.Some? then inp.fee.value else receipt.fee;
      var recorded := WithCurrentOptions(stock.movements, receipt.location, receipt.lines);
      var plan := MakePlan(recorded, inp.truths, feeChanged);
      assert plan == PlanFor(before, delivery, inp);
      if plan.problems != [] {
        return Err(OfPlan(plan.problems));
      }
      var delta := ValueDelta(plan.changes);
      var followed := FollowTheValue(receipt.bill, delta);
      if followed.Err? {
        return Err(followed.error);
      }
      var lines := ApplyAll(SiteOf(delivery, receipt), receipt.lines, plan.changes, inp);
      if lines.Ok? {
        lines := ShareFee(lines.value, fee.amount);
      }
      if lines.Err? {
        stock.RollBack(savedStock);
        vendors.RollBack(savedVendors);
        return Err(lines.error);
      }
      r := Ok(Report(delta, LiveAmount(savedVendors, receipt.bill), LiveAmount(vendors.View(), receipt.bill)));
      if dryRun {
        stock.RollBack(savedStock);
        vendors.RollBack(savedVendors);
      } else {
        receipts := receipts[delivery := receipt.(fee := fee, lines := lines.value)];
      }
    }
  }
}
