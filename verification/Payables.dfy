/**
 * What the business owes its vendors: bills, payments, rebates credited off them,
 * and corrections (src/modules/payables/balance.ts, supplier-bill.service.ts,
 * supplier-payment.service.ts, vendor-rebate.service.ts).
 */
module Payables {
  import opened Common

  datatype Bill = Bill(supplier: Id, amountDue: int, deleted: bool)

  /** A payment against one bill. A voided one is kept and stops counting. */
  datatype Payment = Payment(bill: nat, amount: nat, voided: bool)

  /** A credit standing on a bill. Never less than one kobo. */
  datatype Credit = Credit(bill: nat, amount: nat)

  /** A rebate expected from a vendor, or credited off one of its bills. */
  datatype Rebate = Rebate(supplier: Id, credit: Option<Credit>, removed: bool)

  /** The three tables. A row is known by where it stands; rows are never taken out. */
  datatype Vendors = Vendors(bills: seq<Bill>, payments: seq<Payment>, rebates: seq<Rebate>)

  datatype Refusal =
    | NotFound
    | ZeroPayment
    | MoreThanOwed
    | BelowPaid
    | BelowSettled
    | HasPayments
    | AlreadyVoided
    | AlreadyCredited
    | NotCredited
    | OtherVendor

  // -- The one balance rule ---------------------------------------------------

  /** `LIVE_SUPPLIER_PAYMENTS`: payments on the bill nobody voided. */
  function Paid(payments: seq<Payment>, bill: nat): nat {
    if payments == [] then 0
    else (if payments[0].bill == bill && !payments[0].voided then payments[0].amount else 0) + Paid(payments[1..], bill)
  }

  /** `CREDITED_REBATES`: every rebate linked to the bill. */
  function Rebated(rebates: seq<Rebate>, bill: nat): nat {
    if rebates == [] then 0
    else
      (if rebates[0].credit.Some? && rebates[0].credit.value.bill == bill then rebates[0].credit.value.amount else 0)
      + Rebated(rebates[1..], bill)
  }

  function Balance(v: Vendors, bill: nat): int
    requires bill < |v.bills|
  {
    v.bills[bill].amountDue - Paid(v.payments, bill) - Rebated(v.rebates, bill)
  }

  lemma {:induction false} PaidConcat(x: seq<Payment>, y: seq<Payment>, bill: nat)
    ensures Paid(x + y, bill) == Paid(x, bill) + Paid(y, bill)
  {
    if x == [] {
      assert x + y == y;
    } else {
      assert (x + y)[1..] == x[1..] + y;
      PaidConcat(x[1..], y, bill);
    }
  }

  lemma {:induction false} RebatedConcat(x: seq<Rebate>, y: seq<Rebate>, bill: nat)
    ensures Rebated(x + y, bill) == Rebated(x, bill) + Rebated(y, bill)
  {
    if x == [] {
      assert x + y == y;
    } else {
      assert (x + y)[1..] == x[1..] + y;
      RebatedConcat(x[1..], y, bill);
    }
  }

  lemma {:induction false} PaidUpdate(payments: seq<Payment>, i: nat, row: Payment, bill: nat)
    requires i < |payments|
    ensures Paid(payments[i := row], bill) == Paid(payments, bill) - Paid([payments[i]], bill) + Paid([row], bill)
  {
    assert payments == payments[..i] + [payments[i]] + payments[i + 1..];
    assert payments[i := row] == payments[..i] + [row] + payments[i + 1..];
    PaidConcat(payments[..i] + [payments[i]], payments[i + 1..], bill);
    PaidConcat(payments[..i], [payments[i]], bill);
    PaidConcat(payments[..i] + [row], payments[i + 1..], bill);
    PaidConcat(payments[..i], [row], bill);
  }

  lemma {:induction false} RebatedUpdate(rebates: seq<Rebate>, i: nat, row: Rebate, bill: nat)
    requires i < |rebates|
    ensures Rebated(rebates[i := row], bill) == Rebated(rebates, bill) - Rebated([rebates[i]], bill) + Rebated([row], bill)
  {
    assert rebates == rebates[..i] + [rebates[i]] + rebates[i + 1..];
    assert rebates[i := row] == rebates[..i] + [row] + rebates[i + 1..];
    RebatedConcat(rebates[..i] + [rebates[i]], rebates[i + 1..], bill);
    RebatedConcat(rebates[..i], [rebates[i]], bill);
    RebatedConcat(rebates[..i] + [row], rebates[i + 1..], bill);
    RebatedConcat(rebates[..i], [row], bill);
  }

  lemma {:induction false} PaidOne(p: Payment, bill: nat)
    ensures Paid([p], bill) == if p.bill == bill && !p.voided then p.amount else 0
  {
    assert [p][1..] == [];
  }

  lemma {:induction false} RebatedOne(r: Rebate, bill: nat)
    ensures Rebated([r], bill) == if r.credit.Some? && r.credit.value.bill == bill then r.credit.value.amount else 0
  {
    assert [r][1..] == [];
  }

  // -- What the services do ---------------------------------------------------

  predicate Live(v: Vendors, bill: nat) {
    bill < |v.bills| && !v.bills[bill].deleted
  }

  function Raise(v: Vendors, supplier: Id, amountDue: nat): Vendors {
    v.(bills := v.bills + [Bill(supplier, amountDue, false)])
  }

  /** `SupplierPaymentService.create`. */
  function Pay(v: Vendors, bill: nat, amount: nat): Result<Vendors, Refusal> {
    if amount == 0 then Err(ZeroPayment)
    else if !Live(v, bill) then Err(NotFound)
    else if amount > Balance(v, bill) then Err(MoreThanOwed)
    else Ok(v.(payments := v.payments + [Payment(bill, amount, false)]))
  }

  /** A bill raised by a delivery and what was handed over at the door (`recordForDelivery`). */
  function RaiseForDelivery(v: Vendors, supplier: Id, amountDue: nat, paid: Option<nat>): Result<Vendors, Refusal> {
    if paid.Some? && paid.value > amountDue then Err(MoreThanOwed)
    else
      var raised := Raise(v, supplier, amountDue);
      Ok(if paid.None? then raised
         else raised.(payments := raised.payments + [Payment(|v.bills|, paid.value, false)]))
  }

  /** `SupplierPaymentService.void`. */
  function Void(v: Vendors, payment: nat): Result<Vendors, Refusal> {
    if payment >= |v.payments| then Err(NotFound)
    else if v.payments[payment].voided then Err(AlreadyVoided)
    else Ok(v.(payments := v.payments[payment := v.payments[payment].(voided := true)]))
  }

  function Expect(v: Vendors, supplier: Id): Vendors {
    v.(rebates := v.rebates + [Rebate(supplier, None, false)])
  }

  predicate Standing(v: Vendors, rebate: nat) {
    rebate < |v.rebates| && !v.rebates[rebate].removed
  }

  /** `VendorRebateService.credit`. */
  function CreditOff(v: Vendors, rebate: nat, bill: nat, amount: nat): Result<Vendors, Refusal>
    requires amount >= 1
  {
    if !Standing(v, rebate) then Err(NotFound)
    else if v.rebates[rebate].credit.Some? then Err(AlreadyCredited)
    else if !Live(v, bill) then Err(NotFound)
    else if v.bills[bill].supplier != v.rebates[rebate].supplier then Err(OtherVendor)
    else if amount > Balance(v, bill) then Err(MoreThanOwed)
    else Ok(v.(rebates := v.rebates[rebate := v.rebates[rebate].(credit := Some(Credit(bill, amount)))]))
  }

  /** `uncredit`. */
  function Uncredit(v: Vendors, rebate: nat): Result<Vendors, Refusal> {
    if !Standing(v, rebate) then Err(NotFound)
    else if v.rebates[rebate].credit.None? then Err(NotCredited)
    else Ok(v.(rebates := v.rebates[rebate := v.rebates[rebate].(credit := None)]))
  }

  /** `VendorRebateService.remove`. */
  function RemoveRebate(v: Vendors, rebate: nat): Result<Vendors, Refusal> {
    if !Standing(v, rebate) then Err(NotFound)
    else if v.rebates[rebate].credit.Some? then Err(AlreadyCredited)
    else Ok(v.(rebates := v.rebates[rebate := v.rebates[rebate].(removed := true)]))
  }

  /** `SupplierBillService.update`. The guard looks at what was paid and not at what was credited. */
  function Edit(v: Vendors, bill: nat, amountDue: nat): Result<Vendors, Refusal> {
    if !Live(v, bill) then Err(NotFound)
    else if amountDue < Paid(v.payments, bill) then Err(BelowPaid)
    else Ok(v.(bills := v.bills[bill := v.bills[bill].(amountDue := amountDue)]))
  }

  predicate AnyLivePayment(payments: seq<Payment>, bill: nat) {
    exists i :: 0 <= i < |payments| && payments[i].bill == bill && !payments[i].voided
  }

  /** `SupplierBillService.remove`. */
  function Remove(v: Vendors, bill: nat): Result<Vendors, Refusal> {
    if !Live(v, bill) then Err(NotFound)
    else if AnyLivePayment(v.payments, bill) then Err(HasPayments)
    else Ok(v.(bills := v.bills[bill := v.bills[bill].(deleted := true)]))
  }

  /** A corrected delivery moving its bill by the change in value, never below what has gone against it. */
  function Correct(v: Vendors, bill: nat, delta: int): Result<Vendors, Refusal> {
    if !Live(v, bill) then Err(NotFound)
    else if v.bills[bill].amountDue + delta < Paid(v.payments, bill) + Rebated(v.rebates, bill) then Err(BelowSettled)
    else Ok(v.(bills := v.bills[bill := v.bills[bill].(amountDue := v.bills[bill].amountDue + delta)]))
  }

  // -- Every run --------------------------------------------------------------

  datatype Step =
    | RaiseBill(vendor: Id, due: nat)
    | PayBill(on: nat, amount: nat)
    | Deliver(vendor: Id, due: nat, atTheDoor: Option<nat>)
    | VoidPayment(payment: nat)
    | ExpectRebate(vendor: Id)
    | CreditRebate(rebate: nat, on: nat, credited: nat)
    | UncreditRebate(rebate: nat)
    | TakeOutRebate(rebate: nat)
    | EditBill(on: nat, due: nat)
    | RemoveBill(on: nat)
    | CorrectDelivery(on: nat, delta: int)

  function Kept(v: Vendors, r: Result<Vendors, Refusal>): Vendors {
    if r.Ok? then r.value else v
  }

  /** A refused call changes nothing. A credit of nothing is turned away at the door. */
  function Next(v: Vendors, step: Step): Vendors {
    match step
    case RaiseBill(vendor, due) => Raise(v, vendor, due)
    case PayBill(on, amount) => Kept(v, Pay(v, on, amount))
    case Deliver(vendor, due, atTheDoor) => Kept(v, RaiseForDelivery(v, vendor, due, atTheDoor))
    case VoidPayment(payment) => Kept(v, Void(v, payment))
    case ExpectRebate(vendor) => Expect(v, vendor)
    case CreditRebate(rebate, on, credited) => if credited == 0 then v else Kept(v, CreditOff(v, rebate, on, credited))
    case UncreditRebate(rebate) => Kept(v, Uncredit(v, rebate))
    case TakeOutRebate(rebate) => Kept(v, RemoveRebate(v, rebate))
    case EditBill(on, due) => Kept(v, Edit(v, on, due))
    case RemoveBill(on) => Kept(v, Remove(v, on))
    case CorrectDelivery(on, delta) => Kept(v, Correct(v, on, delta))
  }

  function Run(v: Vendors, steps: seq<Step>): Vendors
    decreases steps
  {
    if steps == [] then v else Run(Next(v, steps[0]), steps[1..])
  }

  const EMPTY := Vendors([], [], [])

  /** Everything points at a bill that exists, and no bill has been paid more than it asks. */
  ghost predicate NeverOverpaid(v: Vendors) {
    && (forall i :: 0 <= i < |v.payments| ==> v.payments[i].bill < |v.bills|)
    && (forall i :: 0 <= i < |v.rebates| && v.rebates[i].credit.Some? ==> v.rebates[i].credit.value.bill < |v.bills|)
    && (forall bill :: 0 <= bill < |v.bills| ==> Paid(v.payments, bill) <= v.bills[bill].amountDue)
  }

  ghost predicate NothingNegative(v: Vendors) {
    forall bill :: 0 <= bill < |v.bills| ==> Balance(v, bill) >= 0
  }

  lemma {:induction false} NothingOnNewBill(v: Vendors, bill: nat)
    requires NeverOverpaid(v) && bill >= |v.bills|
    ensures Paid(v.payments, bill) == 0 && Rebated(v.rebates, bill) == 0
  {
    NoPayments(v.payments, bill);
    NoCredits(v.rebates, bill);
  }

  lemma {:induction false} NoPayments(payments: seq<Payment>, bill: nat)
    requires forall i :: 0 <= i < |payments| ==> payments[i].bill != bill
    ensures Paid(payments, bill) == 0
  {
    if payments != [] {
      NoPayments(payments[1..], bill);
    }
  }

  lemma {:induction false} NoCredits(rebates: seq<Rebate>, bill: nat)
    requires forall i :: 0 <= i < |rebates| && rebates[i].credit.Some? ==> rebates[i].credit.value.bill != bill
    ensures Rebated(rebates, bill) == 0
  {
    if rebates != [] {
      NoCredits(rebates[1..], bill);
    }
  }

  /** How one step moves one bill's three figures. */
  lemma {:induction false} StepFigures(v: Vendors, step: Step, bill: nat)
    requires NeverOverpaid(v) && bill < |Next(v, step).bills|
    ensures var v' := Next(v, step);
      var before := if bill < |v.bills| then v.bills[bill].amountDue else 0;
      var paid, rebated := Paid(v.payments, bill), Rebated(v.rebates, bill);
      var due', paid', rebated' := v'.bills[bill].amountDue, Paid(v'.payments, bill), Rebated(v'.rebates, bill);
      match step
      case RaiseBill(_, due) => paid' == paid && rebated' == rebated && due' == if bill == |v.bills| then due else before
      case PayBill(on, amount) => due' == before && rebated' == rebated
        && (paid' == paid || (bill == on && paid' == paid + amount && paid + amount + rebated <= before))
      case Deliver(_, due, _) => rebated' == rebated
        && (if bill < |v.bills| then due' == before && paid' == paid else due' == due && paid' <= due && rebated == 0)
      case VoidPayment(_) => due' == before && rebated' == rebated && paid' <= paid
      case ExpectRebate(_) => due' == before && paid' == paid && rebated' == rebated
      case CreditRebate(_, on, credited) => due' == before && paid' == paid
        && (rebated' == rebated || (bill == on && rebated' == rebated + credited && paid + rebated' <= before))
      case UncreditRebate(_) => due' == before && paid' == paid && rebated' <= rebated
      case TakeOutRebate(_) => due' == before && paid' == paid && rebated' == rebated
      case EditBill(on, due) => paid' == paid && rebated' == rebated
        && (due' == before || (bill == on && due' == due && paid <= due))
      case RemoveBill(_) => due' == before && paid' == paid && rebated' == rebated
      case CorrectDelivery(on, delta) =>
        paid' == paid && rebated' == rebated &&
        (due' == before || (bill == on && due' == before + delta && paid + rebated <= due'))
  {
    match step
    case RaiseBill(_, _) =>
    case PayBill(on, amount) => PaidAppend(v.payments, Payment(on, amount, false), bill);
    case Deliver(_, due, atTheDoor) =>
      if atTheDoor.Some? {
        PaidAppend(v.payments, Payment(|v.bills|, atTheDoor.value, false), bill);
      }
      if bill >= |v.bills| {
        NothingOnNewBill(v, bill);
      }
    case VoidPayment(payment) =>
      if payment < |v.payments| {
        PaidUpdate(v.payments, payment, v.payments[payment].(voided := true), bill);
        PaidOne(v.payments[payment].(voided := true), bill);
      }
    case ExpectRebate(vendor) =>
      RebatedConcat(v.rebates, [Rebate(vendor, None, false)], bill);
      RebatedOne(Rebate(vendor, None, false), bill);
    case CreditRebate(rebate, on, credited) =>
      if rebate < |v.rebates| {
        RebateRewritten(v.rebates, rebate, v.rebates[rebate].(credit := Some(Credit(on, credited))), bill);
      }
    case UncreditRebate(rebate) =>
      if rebate < |v.rebates| {
        RebateRewritten(v.rebates, rebate, v.rebates[rebate].(credit := None), bill);
      }
    case TakeOutRebate(rebate) =>
      if rebate < |v.rebates| {
        RebateRewritten(v.rebates, rebate, v.rebates[rebate].(removed := true), bill);
      }
    case EditBill(_, _) =>
    case RemoveBill(_) =>
    case CorrectDelivery(_, _) =>
  }

  lemma {:induction false} PaidAppend(payments: seq<Payment>, p: Payment, bill: nat)
    ensures Paid(payments + [p], bill) == Paid(payments, bill) + if p.bill == bill && !p.voided then p.amount else 0
  {
    PaidConcat(payments, [p], bill);
    PaidOne(p, bill);
  }

  lemma {:induction false} RebateRewritten(rebates: seq<Rebate>, i: nat, row: Rebate, bill: nat)
    requires i < |rebates|
    ensures Rebated(rebates[i := row], bill) == Rebated(rebates, bill)
      - (if rebates[i].credit.Some? && rebates[i].credit.value.bill == bill then rebates[i].credit.value.amount else 0)
      + (if row.credit.Some? && row.credit.value.bill == bill then row.credit.value.amount else 0)
  {
    RebatedUpdate(rebates, i, row, bill);
    RebatedOne(rebates[i], bill);
    RebatedOne(row, bill);
  }

  lemma {:induction false} NextNeverOverpaid(v: Vendors, step: Step)
    requires NeverOverpaid(v)
    ensures NeverOverpaid(Next(v, step))
  {
    var v' := Next(v, step);
    forall bill | 0 <= bill < |v'.bills|
      ensures Paid(v'.payments, bill) <= v'.bills[bill].amountDue
    {
      StepFigures(v, step, bill);
      if bill >= |v.bills| {
        NothingOnNewBill(v, bill);
      }
    }
  }

  /** Over any run of calls, no bill is ever paid more than it asks. */
  lemma {:induction false} RunNeverOverpays(v: Vendors, steps: seq<Step>)
    requires NeverOverpaid(v)
    ensures NeverOverpaid(Run(v, steps))
    decreases steps
  {
    if steps != [] {
      NextNeverOverpaid(v, steps[0]);
      RunNeverOverpays(Next(v, steps[0]), steps[1..]);
    }
  }

  /** An edit that leaves room for what was credited as well as what was paid. */
  predicate Gentle(v: Vendors, step: Step) {
    step.EditBill? && Edit(v, step.on, step.due).Ok? ==>
      step.due >= Paid(v.payments, step.on) + Rebated(v.rebates, step.on)
  }

  /** The one way a balance goes below zero is an accepted edit under what was paid and credited together. */
  lemma {:induction false} OnlyAHarshEditGoesNegative(v: Vendors, step: Step)
    requires NeverOverpaid(v) && NothingNegative(v)
    ensures NothingNegative(Next(v, step)) <==> Gentle(v, step)
  {
    var v' := Next(v, step);
    forall bill | 0 <= bill < |v'.bills| && Gentle(v, step)
      ensures Balance(v', bill) >= 0
    {
      StepFigures(v, step, bill);
      if bill >= |v.bills| {
        NothingOnNewBill(v, bill);
      } else {
        assert Balance(v, bill) >= 0;
      }
    }
    if !Gentle(v, step) {
      assert Balance(v', step.on) < 0;
    }
  }

  predicate AllGentle(v: Vendors, steps: seq<Step>)
    decreases steps
  {
    steps == [] || (Gentle(v, steps[0]) && AllGentle(Next(v, steps[0]), steps[1..]))
  }

  /** Every state of the run, the last one included, owes nothing back. */
  ghost predicate NeverNegative(v: Vendors, steps: seq<Step>)
    decreases steps
  {
    NothingNegative(v) && (steps == [] || NeverNegative(Next(v, steps[0]), steps[1..]))
  }

  /** A run keeps every balance at zero or above exactly when none of its accepted edits is harsh. */
  lemma {:induction false} NeverNegativeExactlyWhenGentle(v: Vendors, steps: seq<Step>)
    requires NeverOverpaid(v) && NothingNegative(v)
    ensures NeverNegative(v, steps) <==> AllGentle(v, steps)
    decreases steps
  {
    if steps != [] {
      OnlyAHarshEditGoesNegative(v, steps[0]);
      NextNeverOverpaid(v, steps[0]);
      if NothingNegative(Next(v, steps[0])) {
        NeverNegativeExactlyWhenGentle(Next(v, steps[0]), steps[1..]);
      }
    }
  }

  /** A run the guard lets through that ends with a vendor owing the business: 100 due, 60 credited, edited to 50. */
  lemma {:induction false} EditBelowACreditIsAccepted()
    ensures var v := Run(EMPTY, [RaiseBill(1, 100), ExpectRebate(1), CreditRebate(0, 0, 60), EditBill(0, 50)]);
      |v.bills| == 1 && v.bills[0].amountDue == 50 && Balance(v, 0) == -10
  {
    var v1 := Vendors([Bill(1, 100, false)], [], []);
    var v2 := Vendors([Bill(1, 100, false)], [], [Rebate(1, None, false)]);
    var v3 := Vendors([Bill(1, 100, false)], [], [Rebate(1, Some(Credit(0, 60)), false)]);
    var v4 := Vendors([Bill(1, 50, false)], [], [Rebate(1, Some(Credit(0, 60)), false)]);
    assert Next(EMPTY, RaiseBill(1, 100)) == v1;
    assert Next(v1, ExpectRebate(1)) == v2;
    RebatedOne(v2.rebates[0], 0);
    assert Next(v2, CreditRebate(0, 0, 60)) == v3;
    assert Next(v3, EditBill(0, 50)) == v4;
    RebatedOne(v3.rebates[0], 0);
    assert Run(v3, [EditBill(0, 50)]) == v4;
    assert Run(v2, [CreditRebate(0, 0, 60), EditBill(0, 50)]) == v4;
    assert Run(v1, [ExpectRebate(1), CreditRebate(0, 0, 60), EditBill(0, 50)]) == v4;
  }

  // -- What stands on a bill that is gone -------------------------------------

  /** Whatever is settled against a bill is against one there is, and a credit is of something. */
  ghost predicate OnBills(v: Vendors) {
    && (forall i :: 0 <= i < |v.payments| ==> v.payments[i].bill < |v.bills|)
    && (forall i :: 0 <= i < |v.rebates| && v.rebates[i].credit.Some? ==>
          v.rebates[i].credit.value.bill < |v.bills| && v.rebates[i].credit.value.amount >= 1)
  }

  /** No payment that counts is of a bill that was removed. */
  ghost predicate NothingPaidOnTheGone(v: Vendors) {
    forall i :: 0 <= i < |v.payments| && !v.payments[i].voided ==> Live(v, v.payments[i].bill)
  }

  /** No rebate is credited on a bill that was removed. */
  ghost predicate NothingCreditedOnTheGone(v: Vendors) {
    forall i :: 0 <= i < |v.rebates| && v.rebates[i].credit.Some? ==> Live(v, v.rebates[i].credit.value.bill)
  }

  /** A removal of a bill with nothing credited on it. */
  predicate Tidy(v: Vendors, step: Step) {
    step.RemoveBill? && Remove(v, step.on).Ok? ==> Rebated(v.rebates, step.on) == 0
  }

  lemma {:induction false} RebatedIsSome(rebates: seq<Rebate>, i: nat, bill: nat)
    requires i < |rebates| && rebates[i].credit.Some? && rebates[i].credit.value.bill == bill
    ensures Rebated(rebates, bill) >= rebates[i].credit.value.amount
  {
    if i > 0 {
      RebatedIsSome(rebates[1..], i - 1, bill);
    }
  }

  lemma {:induction false} NextOnBills(v: Vendors, step: Step)
    requires OnBills(v)
    ensures OnBills(Next(v, step))
    ensures NothingPaidOnTheGone(v) ==> NothingPaidOnTheGone(Next(v, step))
  {
  }

  /** A removal leaves a credit on a bill that is gone exactly when the bill had something credited on it; nothing else does. */
  lemma {:induction false} OnlyAnUntidyRemovalStrands(v: Vendors, step: Step)
    requires OnBills(v) && NothingCreditedOnTheGone(v)
    ensures NothingCreditedOnTheGone(Next(v, step)) <==> Tidy(v, step)
  {
    var v' := Next(v, step);
    if step.RemoveBill? && Remove(v, step.on).Ok? {
      if Rebated(v.rebates, step.on) == 0 {
        forall i | 0 <= i < |v.rebates| && v.rebates[i].credit.Some?
          ensures v.rebates[i].credit.value.bill != step.on
        {
          if v.rebates[i].credit.value.bill == step.on {
            RebatedIsSome(v.rebates, i, step.on);
          }
        }
      } else if forall i :: 0 <= i < |v.rebates| && v.rebates[i].credit.Some? ==> v.rebates[i].credit.value.bill != step.on {
        NoCredits(v.rebates, step.on);
      }
    }
  }

  predicate AllTidy(v: Vendors, steps: seq<Step>)
    decreases steps
  {
    steps == [] || (Tidy(v, steps[0]) && AllTidy(Next(v, steps[0]), steps[1..]))
  }

  ghost predicate NeverCreditedOnTheGone(v: Vendors, steps: seq<Step>)
    decreases steps
  {
    NothingCreditedOnTheGone(v) && (steps == [] || NeverCreditedOnTheGone(Next(v, steps[0]), steps[1..]))
  }

  /** Over any run no counting payment is left on a bill that is gone. */
  lemma {:induction false} PaymentsKeepTheirBills(v: Vendors, steps: seq<Step>)
    requires OnBills(v) && NothingPaidOnTheGone(v)
    ensures OnBills(Run(v, steps)) && NothingPaidOnTheGone(Run(v, steps))
    decreases steps
  {
    hide Next, OnBills, NothingPaidOnTheGone;
    if steps != [] {
      NextOnBills(v, steps[0]);
      PaymentsKeepTheirBills(Next(v, steps[0]), steps[1..]);
    }
  }

  /** And no credit is, exactly when no bill removed has something credited on it. */
  lemma {:induction false} CreditsKeepTheirBillsExactly(v: Vendors, steps: seq<Step>)
    requires OnBills(v) && NothingCreditedOnTheGone(v)
    ensures NeverCreditedOnTheGone(v, steps) <==> AllTidy(v, steps)
    decreases steps
  {
    hide Next, OnBills, NothingCreditedOnTheGone, Tidy;
    if steps != [] {
      NextOnBills(v, steps[0]);
      OnlyAnUntidyRemovalStrands(v, steps[0]);
      if NothingCreditedOnTheGone(Next(v, steps[0])) {
        CreditsKeepTheirBillsExactly(Next(v, steps[0]), steps[1..]);
      }
    }
  }

  /** A run the guard lets through that ends with a credit on a bill that is gone: 100 due, 60 credited, removed. */
  lemma {:induction false} RemovalUnderACreditIsAccepted()
    ensures Run(EMPTY, [RaiseBill(1, 100), ExpectRebate(1), CreditRebate(0, 0, 60), RemoveBill(0)])
         == Vendors([Bill(1, 100, true)], [], [Rebate(1, Some(Credit(0, 60)), false)])
  {
    var v1 := Vendors([Bill(1, 100, false)], [], []);
    var v2 := Vendors([Bill(1, 100, false)], [], [Rebate(1, None, false)]);
    var v3 := Vendors([Bill(1, 100, false)], [], [Rebate(1, Some(Credit(0, 60)), false)]);
    var v4 := Vendors([Bill(1, 100, true)], [], [Rebate(1, Some(Credit(0, 60)), false)]);
    assert Next(EMPTY, RaiseBill(1, 100)) == v1;
    assert Next(v1, ExpectRebate(1)) == v2;
    RebatedOne(v2.rebates[0], 0);
    assert Next(v2, CreditRebate(0, 0, 60)) == v3;
    assert Next(v3, RemoveBill(0)) == v4;
    assert Run(v3, [RemoveBill(0)]) == v4;
    assert Run(v2, [CreditRebate(0, 0, 60), RemoveBill(0)]) == v4;
    assert Run(v1, [ExpectRebate(1), CreditRebate(0, 0, 60), RemoveBill(0)]) == v4;
  }

  /** Taking a credit off again puts every bill back where it was. */
  lemma {:induction false} UncreditUndoesCredit(v: Vendors, rebate: nat, bill: nat, amount: nat)
    requires amount >= 1 && CreditOff(v, rebate, bill, amount).Ok?
    ensures Uncredit(CreditOff(v, rebate, bill, amount).value, rebate) == Ok(v)
  {
    var row := v.rebates[rebate];
    assert v.rebates[rebate := row.(credit := Some(Credit(bill, amount)))][rebate := row.(credit := None)] == v.rebates;
  }

  /** Voiding a payment leaves every bill owing what it owed before the payment. */
  lemma {:induction false} VoidUndoesPay(v: Vendors, bill: nat, amount: nat, any: nat)
    requires Pay(v, bill, amount).Ok? && any < |v.bills|
    ensures Void(Pay(v, bill, amount).value, |v.payments|).Ok?
    ensures Balance(Void(Pay(v, bill, amount).value, |v.payments|).value, any) == Balance(v, any)
  {
    var paid := Payment(bill, amount, false);
    var payments := v.payments + [paid];
    PaidAppend(v.payments, paid.(voided := true), any);
    assert payments[|v.payments| := paid.(voided := true)] == v.payments + [paid.(voided := true)];
  }

  // -- The services -----------------------------------------------------------

  /** The payables services over their three tables. */
  class VendorLedger {
    var bills: seq<Bill>
    var payments: seq<Payment>
    var rebates: seq<Rebate>

    function View(): Vendors
      reads this
    {
      Vendors(bills, payments, rebates)
    }

    constructor ()
      ensures View() == EMPTY
    {
      bills, payments, rebates := [], [], [];
    }

    /** `billBalance`, from the rows: what was paid, and what was credited. */
    method BalanceOf(bill: nat) returns (paid: nat, rebated: nat)
      ensures paid == Paid(payments, bill) && rebated == Rebated(rebates, bill)
    {
      paid, rebated := 0, 0;
      for i := 0 to |payments|
        invariant paid + Paid(payments[i..], bill) == Paid(payments, bill)
      {
        assert payments[i..][1..] == payments[i + 1..];
        if payments[i].bill == bill && !payments[i].voided {
          paid := paid + payments[i].amount;
        }
      }
      for i := 0 to |rebates|
        invariant rebated + Rebated(rebates[i..], bill) == Rebated(rebates, bill)
      {
        assert rebates[i..][1..] == rebates[i + 1..];
        if rebates[i].credit.Some? && rebates[i].credit.value.bill == bill {
          rebated := rebated + rebates[i].credit.value.amount;
        }
      }
    }

    method CreatePayment(bill: nat, amount: nat) returns (r: Result<(), Refusal>)
      requires NeverOverpaid(View())
      modifies this`payments
      ensures match Pay(old(View()), bill, amount)
        case Ok(v) => r == Ok(()) && View() == v
        case Err(e) => r == Err(e) && View() == old(View())
      ensures NeverOverpaid(View())
    {
      NextNeverOverpaid(View(), PayBill(bill, amount));
      if amount == 0 {
        return Err(ZeroPayment);
      }
      if !Live(View(), bill) {
        return Err(NotFound);
      }
      var paid, rebated := BalanceOf(bill);
      if amount > bills[bill].amountDue - paid - rebated {
        return Err(MoreThanOwed);
      }
      payments := payments + [Payment(bill, amount, false)];
      r := Ok(());
    }

    method VoidOne(payment: nat) returns (r: Result<(), Refusal>)
      requires NeverOverpaid(View())
      modifies this`payments
      ensures match Void(old(View()), payment)
        case Ok(v) => r == Ok(()) && View() == v
        case Err(e) => r == Err(e) && View() == old(View())
      ensures NeverOverpaid(View())
    {
      NextNeverOverpaid(View(), VoidPayment(payment));
      if payment >= |payments| {
        return Err(NotFound);
      }
      if payments[payment].voided {
        return Err(AlreadyVoided);
      }
      payments := payments[payment := payments[payment].(voided := true)];
      r := Ok(());
    }

    method CreditOne(rebate: nat, bill: nat, amount: nat) returns (r: Result<(), Refusal>)
      requires NeverOverpaid(View()) && amount >= 1
      modifies this`rebates
      ensures match CreditOff(old(View()), rebate, bill, amount)
        case Ok(v) => r == Ok(()) && View() == v
        case Err(e) => r == Err(e) && View() == old(View())
      ensures NeverOverpaid(View())
      ensures NothingNegative(old(View())) ==> NothingNegative(View())
    {
      NextNeverOverpaid(View(), CreditRebate(rebate, bill, amount));
      if NothingNegative(View()) {
        OnlyAHarshEditGoesNegative(View(), CreditRebate(rebate, bill, amount));
      }
      if !Standing(View(), rebate) {
        return Err(NotFound);
      }
      if rebates[rebate].credit.Some? {
        return Err(AlreadyCredited);
      }
      if !Live(View(), bill) {
        return Err(NotFound);
      }
      if bills[bill].supplier != rebates[rebate].supplier {
        return Err(OtherVendor);
      }
      var paid, rebated := BalanceOf(bill);
      if amount > bills[bill].amountDue - paid - rebated {
        return Err(MoreThanOwed);
      }
      rebates := rebates[rebate := rebates[rebate].(credit := Some(Credit(bill, amount)))];
      r := Ok(());
    }

    method UncreditOne(rebate: nat) returns (r: Result<(), Refusal>)
      modifies this`rebates
      ensures match Uncredit(old(View()), rebate)
        case Ok(v) => r == Ok(()) && View() == v
        case Err(e) => r == Err(e) && View() == old(View())
    {
      if !Standing(View(), rebate) {
        return Err(NotFound);
      }
      if rebates[rebate].credit.None? {
        return Err(NotCredited);
      }
      rebates := rebates[rebate := rebates[rebate].(credit := None)];
      r := Ok(());
    }

    method RemoveOneRebate(rebate: nat) returns (r: Result<(), Refusal>)
      modifies this`rebates
      ensures match RemoveRebate(old(View()), rebate)
        case Ok(v) => r == Ok(()) && View() == v
        case Err(e) => r == Err(e) && View() == old(View())
    {
      if !Standing(View(), rebate) {
        return Err(NotFound);
      }
      if rebates[rebate].credit.Some? {
        return Err(AlreadyCredited);
      }
      rebates := rebates[rebate := rebates[rebate].(removed := true)];
      r := Ok(());
    }

    method UpdateBill(bill: nat, amountDue: nat) returns (r: Result<(), Refusal>)
      requires NeverOverpaid(View())
      modifies this`bills
      ensures match Edit(old(View()), bill, amountDue)
        case Ok(v) => r == Ok(()) && View() == v
        case Err(e) => r == Err(e) && View() == old(View())
      ensures NeverOverpaid(View())
    {
      NextNeverOverpaid(View(), EditBill(bill, amountDue));
      if !Live(View(), bill) {
        return Err(NotFound);
      }
      var paid, _ := BalanceOf(bill);
      if amountDue < paid {
        return Err(BelowPaid);
      }
      bills := bills[bill := bills[bill].(amountDue := amountDue)];
      r := Ok(());
    }

    method RemoveOneBill(bill: nat) returns (r: Result<(), Refusal>)
      modifies this`bills
      ensures match Remove(old(View()), bill)
        case Ok(v) => r == Ok(()) && View() == v
        case Err(e) => r == Err(e) && View() == old(View())
    {
      if !Live(View(), bill) {
        return Err(NotFound);
      }
      if AnyLivePayment(payments, bill) {
        return Err(HasPayments);
      }
      bills := bills[bill := bills[bill].(deleted := true)];
      r := Ok(());
    }

    /** The bill a delivery raises, and what was handed over at the door (`recordForDelivery`). */
    method BillDelivery(supplier: Id, amountDue: nat, paid: Option<nat>) returns (r: Result<(), Refusal>)
      modifies this
      ensures match RaiseForDelivery(old(View()), supplier, amountDue, paid)
        case Ok(v) => r == Ok(()) && View() == v
        case Err(e) => r == Err(e) && View() == old(View())
    {
      if paid.Some? && paid.value > amountDue {
        return Err(MoreThanOwed);
      }
      bills := bills + [Bill(supplier, amountDue, false)];
      if paid.Some? {
        payments := payments + [Payment(|bills| - 1, paid.value, false)];
      }
      r := Ok(());
    }

    /** A corrected delivery's bill, moved by the change in value. */
    method MoveBill(bill: nat, delta: int) returns (r: Result<(), Refusal>)
      modifies this`bills
      ensures match Correct(old(View()), bill, delta)
        case Ok(v) => r == Ok(()) && View() == v
        case Err(e) => r == Err(e) && View() == old(View())
    {
      if !Live(View(), bill) {
        return Err(NotFound);
      }
      var paid, rebated := BalanceOf(bill);
      var after := bills[bill].amountDue + delta;
      if after < paid + rebated {
        return Err(BelowSettled);
      }
      bills := bills[bill := bills[bill].(amountDue := after)];
      r := Ok(());
    }

    /** Undoes everything since `saved`: the transaction rolls back. */
    method RollBack(saved: Vendors)
      modifies this
      ensures View() == saved
    {
      bills, payments, rebates := saved.bills, saved.payments, saved.rebates;
    }
  }
}
