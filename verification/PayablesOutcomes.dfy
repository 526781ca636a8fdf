/**
 * Which payables calls are accepted, and what each does to what every bill still
 * owes (src/modules/payables/supplier-payment.service.ts:68-200,
 * src/modules/payables/vendor-rebate.service.ts:120-280,
 * src/modules/payables/supplier-bill.service.ts:120-190).
 */
module PayablesOutcomes {
  import opened Common
  import opened Payables

  /**
   * A payment is taken exactly when it is of something, of a bill that stands, and of
   * no more than is owed on it: paying in full is taken. It comes off that bill.
   */
  lemma {:induction false} PayExactly(v: Vendors, bill: nat, amount: nat, other: nat)
    requires other < |v.bills|
    ensures Pay(v, bill, amount).Ok? <==> amount > 0 && bill < |v.bills| && !v.bills[bill].deleted && amount <= Balance(v, bill)
    ensures Pay(v, bill, amount).Ok? ==>
      var v1 := Pay(v, bill, amount).value;
      && v1.bills == v.bills && v1.rebates == v.rebates
      && v1.payments == v.payments + [Payment(bill, amount, false)]
      && Balance(v1, other) == Balance(v, other) - if other == bill then amount else 0
  {
    PaidAppend(v.payments, Payment(bill, amount, false), other);
  }

  /** A payment is voided exactly when there is one and it was not voided; what it took off its bill comes back, and its row stays. */
  lemma {:induction false} VoidExactly(v: Vendors, payment: nat, other: nat)
    requires other < |v.bills|
    ensures Void(v, payment).Ok? <==> payment < |v.payments| && !v.payments[payment].voided
    ensures Void(v, payment).Ok? ==>
      var v1, was := Void(v, payment).value, v.payments[payment];
      && v1.bills == v.bills && v1.rebates == v.rebates
      && v1.payments == v.payments[payment := Payment(was.bill, was.amount, true)]
      && Balance(v1, other) == Balance(v, other) + if other == was.bill then was.amount else 0
  {
    if payment < |v.payments| && !v.payments[payment].voided {
      var row := v.payments[payment].(voided := true);
      PaidUpdate(v.payments, payment, row, other);
      PaidOne(v.payments[payment], other);
      PaidOne(row, other);
    }
  }

  /**
   * A rebate is credited exactly when it stands and is not credited yet, on a bill
   * of its own vendor that stands, for no more than is owed on it; it comes off that bill.
   */
  lemma {:induction false} CreditExactly(v: Vendors, rebate: nat, bill: nat, amount: nat, other: nat)
    requires amount >= 1 && other < |v.bills|
    ensures CreditOff(v, rebate, bill, amount).Ok? <==>
      && rebate < |v.rebates| && !v.rebates[rebate].removed && v.rebates[rebate].credit.None?
      && bill < |v.bills| && !v.bills[bill].deleted && v.bills[bill].supplier == v.rebates[rebate].supplier
      && amount <= Balance(v, bill)
    ensures CreditOff(v, rebate, bill, amount).Ok? ==>
      var v1 := CreditOff(v, rebate, bill, amount).value;
      && v1.bills == v.bills && v1.payments == v.payments
      && v1.rebates == v.rebates[rebate := Rebate(v.rebates[rebate].supplier, Some(Credit(bill, amount)), false)]
      && Balance(v1, other) == Balance(v, other) - if other == bill then amount else 0
  {
    if rebate < |v.rebates| {
      RebateRewritten(v.rebates, rebate, v.rebates[rebate].(credit := Some(Credit(bill, amount))), other);
    }
  }

  /** A credit is taken off exactly when its rebate stands and has one; its bill owes it again. */
  lemma {:induction false} UncreditExactly(v: Vendors, rebate: nat, other: nat)
    requires other < |v.bills|
    ensures Uncredit(v, rebate).Ok? <==> rebate < |v.rebates| && !v.rebates[rebate].removed && v.rebates[rebate].credit.Some?
    ensures Uncredit(v, rebate).Ok? ==>
      var v1, was := Uncredit(v, rebate).value, v.rebates[rebate].credit.value;
      && v1.bills == v.bills && v1.payments == v.payments
      && v1.rebates == v.rebates[rebate := Rebate(v.rebates[rebate].supplier, None, false)]
      && Balance(v1, other) == Balance(v, other) + if other == was.bill then was.amount else 0
  {
    if rebate < |v.rebates| {
      RebateRewritten(v.rebates, rebate, v.rebates[rebate].(credit := None), other);
    }
  }

  /** A rebate is taken out exactly when it stands and is not credited; no bill moves. */
  lemma {:induction false} RemoveRebateExactly(v: Vendors, rebate: nat, other: nat)
    requires other < |v.bills|
    ensures RemoveRebate(v, rebate).Ok? <==> rebate < |v.rebates| && !v.rebates[rebate].removed && v.rebates[rebate].credit.None?
    ensures RemoveRebate(v, rebate).Ok? ==>
      var v1 := RemoveRebate(v, rebate).value;
      && v1.bills == v.bills && v1.payments == v.payments
      && v1.rebates == v.rebates[rebate := Rebate(v.rebates[rebate].supplier, None, true)]
      && Balance(v1, other) == Balance(v, other)
  {
    if rebate < |v.rebates| {
      RebateRewritten(v.rebates, rebate, v.rebates[rebate].(removed := true), other);
    }
  }

  /** A bill is edited exactly when it stands and would ask no less than was paid; it then asks that, and no other bill moves. */
  lemma {:induction false} EditExactly(v: Vendors, bill: nat, amountDue: nat, other: nat)
    requires other < |v.bills|
    ensures Edit(v, bill, amountDue).Ok? <==>
      bill < |v.bills| && !v.bills[bill].deleted && amountDue >= Paid(v.payments, bill)
    ensures Edit(v, bill, amountDue).Ok? ==>
      var v1 := Edit(v, bill, amountDue).value;
      && v1.payments == v.payments && v1.rebates == v.rebates
      && v1.bills == v.bills[bill := Bill(v.bills[bill].supplier, amountDue, false)]
      && Balance(v1, other) == Balance(v, other) + if other == bill then amountDue - v.bills[bill].amountDue else 0
  {
  }

  /** A bill is removed exactly when it stands and every payment of it was voided. */
  lemma {:induction false} RemoveExactly(v: Vendors, bill: nat)
    ensures Remove(v, bill).Ok? <==>
      && bill < |v.bills| && !v.bills[bill].deleted
      && forall i :: 0 <= i < |v.payments| && v.payments[i].bill == bill ==> v.payments[i].voided
    ensures Remove(v, bill).Ok? ==>
      Remove(v, bill).value == v.(bills := v.bills[bill := Bill(v.bills[bill].supplier, v.bills[bill].amountDue, true)])
  {
  }

  /** A new bill asks what it was raised for, of its vendor, and nothing has been settled against it. */
  lemma {:induction false} RaiseExactly(v: Vendors, supplier: Id, amountDue: nat)
    requires NeverOverpaid(v)
    ensures var v1 := Raise(v, supplier, amountDue);
      && v1.bills == v.bills + [Bill(supplier, amountDue, false)] && v1.payments == v.payments && v1.rebates == v.rebates
      && Balance(v1, |v.bills|) == amountDue
  {
    NothingOnNewBill(v, |v.bills|);
  }
}
