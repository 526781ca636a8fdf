/**
 * Deliveries and the corrections made to them: what is written
 * (src/modules/inventory/receiving.service.ts:206-326,
 * src/modules/inventory/delivery-correction.ts,
 * src/modules/inventory/delivery-correction.service.ts).
 */
module Deliveries {
  import opened Common
  import opened Ledger
  import opened Stock
  import Fee = DeliveryFee
  import Payables

  /** One line of a delivery: what the vendor charged, its share of the fee, and the lot it opened. */
  datatype Line = Line(
    id: Id, product: Id, option: Option<Id>, lot: Id,
    received: nat, paidFor: nat, totalCost: nat, deliveryCost: nat)

  /** The driver's fee, and how it was paid. */
  datatype FeeTerms = FeeTerms(amount: nat, terms: Id)

  datatype Receipt = Receipt(location: Id, receivedAt: Time, fee: FeeTerms, lines: seq<Line>, bill: nat)

  /** `stocked` is the catalog of products that keep stock. */
  datatype Shop = Shop(books: Books, vendors: Payables.Vendors, receipts: map<Id, Receipt>, stocked: set<Id>)

  datatype Problem =
    | NotOnDelivery
    | GivenTwice
    | PaidForMoreThanArrived
    | NothingArrivedOfIt
    | ValueOfNothing
    | NothingChanged

  datatype Refusal =
    | OfStock(stock: Ledger.Refusal)
    | OfBill(bill: Payables.Refusal)
    | OfPlan(problems: seq<Problem>)
    | NoSuchDelivery
    | DeliveryExists
    | NotStocked
    | FeeHasNothingToJoin

  function ByStock<T>(r: Result<T, Ledger.Refusal>): Result<T, Refusal> {
    if r.Ok? then Ok(r.value) else Err(OfStock(r.error))
  }

  function ByBill<T>(r: Result<T, Payables.Refusal>): Result<T, Refusal> {
    if r.Ok? then Ok(r.value) else Err(OfBill(r.error))
  }

  // -- Measures ---------------------------------------------------------------

  function FeeLines(lines: seq<Line>): (r: seq<Fee.FeeLine>)
    ensures |r| == |lines|
    ensures forall i :: 0 <= i < |r| ==> r[i] == Fee.FeeLine(lines[i].totalCost, lines[i].received)
  {
    if lines == [] then [] else [Fee.FeeLine(lines[0].totalCost, lines[0].received)] + FeeLines(lines[1..])
  }

  function FeeShares(lines: seq<Line>): (r: seq<nat>)
    ensures |r| == |lines|
    ensures forall i :: 0 <= i < |r| ==> r[i] == lines[i].deliveryCost
  {
    if lines == [] then [] else [lines[0].deliveryCost] + FeeShares(lines[1..])
  }

  /** What the vendor charged for all the lines. */
  function Value(lines: seq<Line>): nat {
    if lines == [] then 0 else lines[0].totalCost + Value(lines[1..])
  }

  /** Units a delivery's own movements have put on one lot. */
  function RefSum(ms: seq<Movement>, delivery: Id, lot: Id): int {
    if ms == [] then 0
    else
      (if ms[0].reference == Some(Delivery(delivery)) && ms[0].key.lot == lot then ms[0].quantity else 0)
      + RefSum(ms[1..], delivery, lot)
  }

  // -- Recording a delivery ---------------------------------------------------

  /** A line as it is entered, in base units, with the ids it and its lot get. */
  datatype Entry = Entry(
    id: Id, product: Id, option: Option<Id>, lot: Id, expiry: Option<Time>,
    received: nat, paidFor: nat, totalCost: nat)

  datatype DeliveryInput = DeliveryInput(
    id: Id, supplier: Id, location: Id, receivedAt: Time, fee: FeeTerms, entries: seq<Entry>,
    amountDue: Option<nat>, payment: Option<nat>)

  function EntryFeeLines(entries: seq<Entry>): (r: seq<Fee.FeeLine>)
    ensures |r| == |entries|
    ensures forall i :: 0 <= i < |r| ==> r[i] == Fee.FeeLine(entries[i].totalCost, entries[i].received)
  {
    if entries == [] then [] else [Fee.FeeLine(entries[0].totalCost, entries[0].received)] + EntryFeeLines(entries[1..])
  }

  function EntryValue(entries: seq<Entry>): nat {
    if entries == [] then 0 else entries[0].totalCost + EntryValue(entries[1..])
  }

  function EntryLot(e: Entry, receivedAt: Time, share: nat): Lot {
    Lot(e.product, e.expiry, receivedAt, e.received, e.paidFor, e.totalCost + share)
  }

  function EntryLine(e: Entry, share: nat): Line {
    Line(e.id, e.product, e.option, e.lot, e.received, e.paidFor, e.totalCost, share)
  }

  /** One line: its lot, its row, and its stock in. */
  function ReceiveOne(b: Books, inp: DeliveryInput, e: Entry, share: nat): Result<Books, Refusal> {
    if e.lot in b.lots then Err(OfStock(IdTaken))
    else
      ByStock(Inbound(b.(lots := b.lots[e.lot := EntryLot(e, inp.receivedAt, share)]),
                      Key(e.product, e.option, inp.location, e.lot), e.received, Ledger.Receipt, Some(Delivery(inp.id))))
  }

  datatype Received = Received(books: Books, lines: seq<Line>)

  function ReceiveAll(b: Books, inp: DeliveryInput, entries: seq<Entry>, shares: seq<nat>, lines: seq<Line>): Result<Received, Refusal>
    requires |shares| == |entries|
    decreases entries
  {
    if entries == [] then Ok(Received(b, lines))
    else
      var b1 :- ReceiveOne(b, inp, entries[0], shares[0]);
      ReceiveAll(b1, inp, entries[1..], shares[1..], lines + [EntryLine(entries[0], shares[0])])
  }

  predicate DistinctIds(entries: seq<Entry>) {
    forall i, j :: 0 <= i < j < |entries| ==> entries[i].id != entries[j].id
  }

  /** `ReceivingService.create`. */
  function Receive(s: Shop, inp: DeliveryInput): Result<Shop, Refusal> {
    if inp.id in s.receipts || !DistinctIds(inp.entries) then Err(DeliveryExists)
    else
      var amountDue := if inp.amountDue.Some? then inp.amountDue.value else EntryValue(inp.entries);
      var vendors :- ByBill(Payables.RaiseForDelivery(s.vendors, inp.supplier, amountDue, inp.payment));
      var split := Fee.Split(inp.fee.amount, EntryFeeLines(inp.entries));
      if split.Err? then Err(FeeHasNothingToJoin)
      else
        SplitLength(inp.fee.amount, EntryFeeLines(inp.entries));
        var r :- ReceiveAll(s.books, inp, inp.entries, split.value, []);
        Ok(s.(books := r.books, vendors := vendors,
              receipts := s.receipts[inp.id := Receipt.Receipt(inp.location, inp.receivedAt, inp.fee, r.lines, |s.vendors.bills|)]))
  }

  lemma {:induction false} SplitLength(fee: nat, lines: seq<Fee.FeeLine>)
    ensures Fee.Split(fee, lines).Ok? ==> |Fee.Split(fee, lines).value| == |lines|
  {
  }

  // -- Planning a correction --------------------------------------------------

  /** What the paperwork really said of one line. An omitted option is `None`; naming no option is `Some(None)`. */
  datatype Truth = Truth(
    line: Id, product: Option<Id>, option: Option<Option<Id>>, received: nat, paidFor: nat, totalCost: nat)

  datatype Change = Change(
    line: Line, newProduct: Option<Id>, newOption: bool, option: Option<Id>,
    received: nat, paidFor: nat, totalCost: nat, stockDelta: int)

  datatype Plan = Plan(changes: seq<Change>, problems: seq<Problem>)

  function FindLine(lines: seq<Line>, id: Id): Option<Line> {
    if lines == [] then None
    else if lines[0].id == id then Some(lines[0])
    else FindLine(lines[1..], id)
  }

  function NewProductOf(line: Line, t: Truth): Option<Id> {
    if t.product.Some? && t.product.value != line.product then t.product else None
  }

  predicate NewOptionOf(line: Line, t: Truth) {
    NewProductOf(line, t).None? && t.option.Some? && t.option.value != line.option
  }

  predicate Swaps(line: Line, t: Truth) {
    NewProductOf(line, t).Some? || NewOptionOf(line, t)
  }

  /** What is wrong with a line's stated figures, if anything. */
  function ProblemWith(line: Line, t: Truth): Option<Problem> {
    if t.paidFor > t.received then Some(PaidForMoreThanArrived)
    else if Swaps(line, t) && t.received == 0 then Some(NothingArrivedOfIt)
    else if t.received == 0 && t.totalCost != 0 then Some(ValueOfNothing)
    else None
  }

  predicate Unchanged(line: Line, t: Truth) {
    !Swaps(line, t) && t.received == line.received && t.paidFor == line.paidFor && t.totalCost == line.totalCost
  }

  function ChangeTo(line: Line, t: Truth): Change {
    Change(line, NewProductOf(line, t), NewOptionOf(line, t),
           if Swaps(line, t) then (if t.option.Some? then t.option.value else None) else line.option,
           t.received, t.paidFor, t.totalCost,
           if Swaps(line, t) then t.received else t.received - line.received)
  }

  function AddProblem(problems: seq<Problem>, p: Problem): seq<Problem> {
    if p in problems then problems else problems + [p]
  }

  /** One stated line, onto the plan so far. */
  function PlanOne(recorded: seq<Line>, t: Truth, seen: set<Id>, plan: Plan): Plan {
    var found := FindLine(recorded, t.line);
    if found.None? then plan.(problems := AddProblem(plan.problems, NotOnDelivery))
    else if t.line in seen then plan.(problems := AddProblem(plan.problems, GivenTwice))
    else
      var problem := ProblemWith(found.value, t);
      if problem.Some? then plan.(problems := AddProblem(plan.problems, problem.value))
      else if Unchanged(found.value, t) then plan
      else plan.(changes := plan.changes + [ChangeTo(found.value, t)])
  }

  function SeenAfter(recorded: seq<Line>, t: Truth, seen: set<Id>): set<Id> {
    if FindLine(recorded, t.line).Some? then seen + {t.line} else seen
  }

  function PlanFrom(recorded: seq<Line>, truths: seq<Truth>, seen: set<Id>, plan: Plan): Plan
    decreases truths
  {
    if truths == [] then plan
    else PlanFrom(recorded, truths[1..], SeenAfter(recorded, truths[0], seen), PlanOne(recorded, truths[0], seen, plan))
  }

  /** `planCorrection`. */
  function PlanCorrection(recorded: seq<Line>, truths: seq<Truth>, feeChanged: bool): Plan {
    var plan := PlanFrom(recorded, truths, {}, Plan([], []));
    if plan.problems == [] && plan.changes == [] && !feeChanged then plan.(problems := [NothingChanged]) else plan
  }

  /** The change in the delivery's value. */
  function ValueDelta(changes: seq<Change>): int {
    if changes == [] then 0 else changes[0].totalCost - changes[0].line.totalCost + ValueDelta(changes[1..])
  }

  // -- The option a line's stock is in now ------------------------------------

  /** The first option this lot's stock was moved into at this location, if it was. */
  function MovedInto(ms: seq<Movement>, lot: Id, location: Id): Option<Id> {
    if ms == [] then None
    else if ms[0].kind == TransferIn && ms[0].key.lot == lot && ms[0].key.location == location && ms[0].key.option.Some? then
      ms[0].key.option
    else
      MovedInto(ms[1..], lot, location)
  }

  function WithCurrentOption(ms: seq<Movement>, location: Id, line: Line): Line {
    if line.option.None? then line.(option := MovedInto(ms, line.lot, location)) else line
  }

  function WithCurrentOptions(ms: seq<Movement>, location: Id, lines: seq<Line>): (r: seq<Line>)
    ensures |r| == |lines|
    ensures forall i :: 0 <= i < |r| ==> r[i] == WithCurrentOption(ms, location, lines[i])
  {
    if lines == [] then [] else [WithCurrentOption(ms, location, lines[0])] + WithCurrentOptions(ms, location, lines[1..])
  }

  // -- Applying a correction --------------------------------------------------

  /** `newLots` holds the id the lot of a line's right product would get. */
  datatype Correction = Correction(
    truths: seq<Truth>, fee: Option<FeeTerms>, force: bool, forcedReason: string, mayForce: bool, newLots: map<Id, Id>)

  /** Which delivery, where and when. */
  datatype Site = Site(delivery: Id, location: Id, receivedAt: Time)

  function OutOfLot(site: Site, inp: Correction, product: Id, option: Option<Id>, lot: Id, quantity: int): OutboundInput {
    OutboundInput(product, option, site.location, quantity, Adjustment, Some(Delivery(site.delivery)), Some(lot),
                  inp.force, inp.forcedReason, inp.mayForce, site.receivedAt)
  }

  function TakeBack(b: Books, site: Site, inp: Correction, product: Id, option: Option<Id>, lot: Id, quantity: int): Result<Books, Refusal> {
    var t :- ByStock(Outbound(b, OutOfLot(site, inp, product, option, lot, quantity), 0));
    Ok(t.books)
  }

  function PutIn(b: Books, site: Site, product: Id, option: Option<Id>, lot: Id, quantity: int): Result<Books, Refusal> {
    ByStock(Inbound(b, Key(product, option, site.location, lot), quantity, Adjustment, Some(Delivery(site.delivery))))
  }

  function SetLot(lots: map<Id, Lot>, lot: Id, received: nat, paidFor: nat, totalCost: nat): map<Id, Lot> {
    if lot in lots then
      lots[lot := lots[lot].(quantityReceived := received, quantityPaidFor := paidFor, totalCost := totalCost)]
    else
      lots
  }

  function ReplaceLine(lines: seq<Line>, line: Line): (r: seq<Line>)
    ensures |r| == |lines|
    ensures forall i :: 0 <= i < |r| ==> r[i] == if lines[i].id == line.id then line else lines[i]
  {
    if lines == [] then []
    else [if lines[0].id == line.id then line else lines[0]] + ReplaceLine(lines[1..], line)
  }

  /** The line as it stands after the change, its fee share not yet looked at. */
  function ChangedLine(line: Line, ch: Change, product: Id, lot: Id): Line {
    line.(product := product, option := ch.option, lot := lot,
          received := ch.received, paidFor := ch.paidFor, totalCost := ch.totalCost)
  }

  /** `moveToRightProduct`: the wrong one out of its lot, the right one in as a lot of its own. */
  function ToRightProduct(b: Books, stocked: set<Id>, site: Site, ch: Change, product: Id, inp: Correction): Result<Books, Refusal> {
    if product !in stocked then Err(NotStocked)
    else if !VariantAllowed(OptionsOf(b, product), ch.option, false) then Err(OfStock(OptionRefused))
    else
      var b1 :- if ch.line.received > 0
                then TakeBack(b, site, inp, ch.line.product, ch.line.option, ch.line.lot, ch.line.received) else Ok(b);
      var b2 := b1.(lots := SetLot(b1.lots, ch.line.lot, 0, 0, 0));
      if ch.line.id !in inp.newLots || inp.newLots[ch.line.id] in b2.lots then Err(OfStock(IdTaken))
      else
        var lot := inp.newLots[ch.line.id];
        var expiry := if ch.line.lot in b.lots then b.lots[ch.line.lot].expiry else None;
        PutIn(b2.(lots := b2.lots[lot := Lot(product, expiry, site.receivedAt, ch.received, ch.paidFor, ch.totalCost)]),
              site, product, ch.option, lot, ch.received)
  }

  /** The stock of a change that keeps its product: another option on the same lot, or the difference. */
  function SameProduct(b: Books, site: Site, ch: Change, inp: Correction): Result<Books, Refusal> {
    if ch.newOption then
      if !VariantAllowed(OptionsOf(b, ch.line.product), ch.option, false) then Err(OfStock(OptionRefused))
      else
        var b1 :- if ch.line.received > 0
                  then TakeBack(b, site, inp, ch.line.product, ch.line.option, ch.line.lot, ch.line.received) else Ok(b);
        PutIn(b1, site, ch.line.product, ch.option, ch.line.lot, ch.received)
    else if ch.stockDelta < 0 then
      TakeBack(b, site, inp, ch.line.product, ch.option, ch.line.lot, -ch.stockDelta)
    else if ch.stockDelta > 0 then
      PutIn(b, site, ch.line.product, ch.option, ch.line.lot, ch.stockDelta)
    else
      Ok(b)
  }

  datatype Applied = Applied(books: Books, lines: seq<Line>)

  function ApplyChange(b: Books, lines: seq<Line>, stocked: set<Id>, site: Site, ch: Change, inp: Correction): Result<Applied, Refusal> {
    if ch.newProduct.Some? then
      var b1 :- ToRightProduct(b, stocked, site, ch, ch.newProduct.value, inp);
      Ok(Applied(b1, ReplaceLine(lines, ChangedLine(ch.line, ch, ch.newProduct.value,
                                                    if ch.line.id in inp.newLots then inp.newLots[ch.line.id] else 0))))
    else
      var b1 :- SameProduct(b, site, ch, inp);
      Ok(Applied(b1.(lots := SetLot(b1.lots, ch.line.lot, ch.received, ch.paidFor, ch.totalCost)),
                 ReplaceLine(lines, ChangedLine(ch.line, ch, ch.line.product, ch.line.lot))))
  }

  function ApplyChanges(b: Books, lines: seq<Line>, stocked: set<Id>, site: Site, changes: seq<Change>, inp: Correction): Result<Applied, Refusal>
    decreases changes
  {
    if changes == [] then Ok(Applied(b, lines))
    else
      var a :- ApplyChange(b, lines, stocked, site, changes[0], inp);
      ApplyChanges(a.books, a.lines, stocked, site, changes[1..], inp)
  }

  /** Each line's new share, and its lot's total put to the line's value plus that share. */
  function Share(lots: map<Id, Lot>, lines: seq<Line>, shares: seq<nat>): (r: (map<Id, Lot>, seq<Line>))
    requires |shares| == |lines|
    ensures |r.1| == |lines|
    ensures forall i :: 0 <= i < |lines| ==> r.1[i] == lines[i].(deliveryCost := shares[i])
    decreases lines
  {
    if lines == [] then (lots, [])
    else
      var line := lines[0];
      var lots1 := if line.lot in lots then lots[line.lot := lots[line.lot].(totalCost := line.totalCost + shares[0])] else lots;
      var r := Share(lots1, lines[1..], shares[1..]);
      (r.0, [line.(deliveryCost := shares[0])] + r.1)
  }

  /** `shareTheFee`. */
  function ShareTheFee(b: Books, lines: seq<Line>, fee: nat): Result<Applied, Refusal> {
    if fee > 0 && !Fee.FeeHasSomewhereToGo(FeeLines(lines)) then Err(FeeHasNothingToJoin)
    else
      var split := Fee.Split(fee, FeeLines(lines));
      if split.Err? then Err(FeeHasNothingToJoin)
      else
        SplitLength(fee, FeeLines(lines));
        var r := Share(b.lots, lines, split.value);
        Ok(Applied(b.(lots := r.0), r.1))
  }

  function SiteOf(delivery: Id, r: Receipt): Site {
    Site(delivery, r.location, r.receivedAt)
  }

  function PlanFor(s: Shop, delivery: Id, inp: Correction): Plan
    requires delivery in s.receipts
  {
    var r := s.receipts[delivery];
    PlanCorrection(WithCurrentOptions(s.books.movements, r.location, r.lines), inp.truths, inp.fee.Some? && inp.fee.value != r.fee)
  }

  /** The bill follows the change in value, when there is a live bill and a change. */
  function BillAfter(s: Shop, bill: nat, delta: int): Result<Payables.Vendors, Refusal> {
    if Payables.Live(s.vendors, bill) && delta != 0 then ByBill(Payables.Correct(s.vendors, bill, delta)) else Ok(s.vendors)
  }

  /** `DeliveryCorrectionService.apply`, as one transaction. */
  function Correct(s: Shop, delivery: Id, inp: Correction): Result<Shop, Refusal> {
    if delivery !in s.receipts then Err(NoSuchDelivery)
    else
      var r := s.receipts[delivery];
      var fee := if inp.fee.Some? then inp.fee.value else r.fee;
      var plan := PlanFor(s, delivery, inp);
      if plan.problems != [] then Err(OfPlan(plan.problems))
      else
        var vendors :- BillAfter(s, r.bill, ValueDelta(plan.changes));
        var changed :- ApplyChanges(s.books, r.lines, s.stocked, SiteOf(delivery, r), plan.changes, inp);
        var shared :- ShareTheFee(changed.books, changed.lines, fee.amount);
        Ok(s.(books := shared.books, vendors := vendors,
              receipts := s.receipts[delivery := r.(fee := fee, lines := shared.lines)]))
  }

  // -- The unit a corrected line is shown in ----------------------------------

  datatype Unit = Unit(isPortion: bool, factor: nat)

  predicate HoldsWhole(u: Unit, received: nat, paidFor: nat)
    requires u.factor > 0
  {
    !u.isPortion && received % u.factor == 0 && paidFor % u.factor == 0
  }

  /** `displayUnit`: the biggest unit both figures are whole in, portions passed over. */
  function DisplayUnit(units: seq<Unit>, received: nat, paidFor: nat): Option<Unit>
    requires forall i :: 0 <= i < |units| ==> units[i].factor > 0
  {
    if units == [] then None
    else
      var rest := DisplayUnit(units[1..], received, paidFor);
      if !HoldsWhole(units[0], received, paidFor) then rest
      else if rest.Some? && rest.value.factor > units[0].factor then rest
      else Some(units[0])
  }

  /** With a base unit there is always one, it loses nothing of either figure, and no bigger one would do. */
  lemma {:induction false} DisplayUnitIsExact(units: seq<Unit>, received: nat, paidFor: nat)
    requires forall i :: 0 <= i < |units| ==> units[i].factor > 0
    ensures (exists i :: 0 <= i < |units| && !units[i].isPortion && units[i].factor == 1)
      ==> DisplayUnit(units, received, paidFor).Some?
    ensures var u := DisplayUnit(units, received, paidFor);
      u.Some? ==>
        && u.value in units && HoldsWhole(u.value, received, paidFor)
        && (forall i :: 0 <= i < |units| && HoldsWhole(units[i], received, paidFor) ==> units[i].factor <= u.value.factor)
  {
    if units != [] {
      DisplayUnitIsExact(units[1..], received, paidFor);
      var rest := DisplayUnit(units[1..], received, paidFor);
      forall i | 0 <= i < |units| && HoldsWhole(units[i], received, paidFor)
        ensures DisplayUnit(units, received, paidFor).Some?
        ensures units[i].factor <= DisplayUnit(units, received, paidFor).value.factor
      {
        if i > 0 {
          assert units[i] == units[1..][i - 1];
          SomeWhole(units[1..], i - 1, received, paidFor);
        }
      }
    }
  }

  lemma {:induction false} SomeWhole(units: seq<Unit>, i: nat, received: nat, paidFor: nat)
    requires forall i :: 0 <= i < |units| ==> units[i].factor > 0
    requires i < |units| && HoldsWhole(units[i], received, paidFor)
    ensures DisplayUnit(units, received, paidFor).Some?
  {
    if i > 0 {
      SomeWhole(units[1..], i - 1, received, paidFor);
    }
  }
}
