/**
 * What customers owe: sales, payments in and out, voids and merged customers
 * (src/modules/payments/payment.service.ts:131-267, 370-389,
 * src/modules/payments/balance.ts, src/modules/payments/receivable.service.ts:32-186,
 * src/modules/customers/customer.service.ts:122-167).
 */
module Accounts {
  import opened Common
  import opened Allocation

  /** A sale on an account, or a walk-in's. `refunded` is what its returns gave back. A sale's id is its place. */
  datatype Sale = Sale(account: Option<Id>, at: Time, total: nat, refunded: nat)

  /** A payment, its rows against invoices, and whether it was voided. */
  datatype Payment = Payment(account: Option<Id>, amount: int, allocations: seq<Request>, voided: bool)

  /** `live` is the set of customers nobody removed. */
  datatype Ledger = Ledger(live: set<Id>, sales: seq<Sale>, payments: seq<Payment>)

  const EMPTY := Ledger({}, [], [])

  datatype Refused =
    | NothingPaid
    | MayNotHandBack
    | NoSuchCustomer
    | OtherAccount
    | BadSplit(why: Allocation.Refusal)
    | NoSuchPayment
    | AlreadyVoided
    | SameCustomer

  // -- Balances ---------------------------------------------------------------

  /** What payments nobody voided have put against a sale. */
  function Allocated(payments: seq<Payment>, sale: int): int {
    if payments == [] then 0
    else (if payments[0].voided then 0 else ClaimedOn(payments[0].allocations, sale)) + Allocated(payments[1..], sale)
  }

  /** `saleBalance`: total, less what was allocated, less what was refunded. */
  function Balance(l: Ledger, sale: nat): int
    requires sale < |l.sales|
  {
    l.sales[sale].total - Allocated(l.payments, sale) - l.sales[sale].refunded
  }

  /** An account's balances, over its first `n` sales of the shop's. */
  function Owed(l: Ledger, account: Option<Id>, n: nat): int
    requires n <= |l.sales|
  {
    if n == 0 then 0 else Owed(l, account, n - 1) + if l.sales[n - 1].account == account then Balance(l, n - 1) else 0
  }

  /** Money received that no invoice has claimed. */
  function Credit(payments: seq<Payment>, account: Option<Id>): int {
    if payments == [] then 0
    else
      (if payments[0].account == account && !payments[0].voided
       then payments[0].amount - Claimed(payments[0].allocations) else 0)
      + Credit(payments[1..], account)
  }

  /** What an account was charged, its returns taken off. */
  function Charged(l: Ledger, account: Option<Id>, n: nat): int
    requires n <= |l.sales|
  {
    if n == 0 then 0
    else Charged(l, account, n - 1) + if l.sales[n - 1].account == account then l.sales[n - 1].total - l.sales[n - 1].refunded else 0
  }

  /** What an account has paid, net of what it was handed back. */
  function Received(payments: seq<Payment>, account: Option<Id>): int {
    if payments == [] then 0
    else (if payments[0].account == account && !payments[0].voided then payments[0].amount else 0) + Received(payments[1..], account)
  }

  // -- The invoices a payment may be put against ------------------------------

  /** A sale among later ones, by when it happened; the earlier row first when they happened together. */
  function Place(sales: seq<Sale>, i: nat, rest: seq<nat>): (r: seq<nat>)
    requires i < |sales| && forall k :: 0 <= k < |rest| ==> rest[k] < |sales|
    ensures |r| == |rest| + 1 && forall x :: x in r <==> x == i || x in rest
    ensures forall k :: 0 <= k < |r| ==> r[k] < |sales|
  {
    if rest == [] || sales[i].at <= sales[rest[0]].at then [i] + rest
    else
      var r := [rest[0]] + Place(sales, i, rest[1..]);
      assert forall x :: x in rest <==> x == rest[0] || x in rest[1..];
      r
  }

  /** Sales from `i` on, oldest first. */
  function ByAge(sales: seq<Sale>, i: nat): (r: seq<nat>)
    requires i <= |sales|
    ensures forall k :: 0 <= k < |r| ==> i <= r[k] < |sales|
    ensures forall x :: i <= x < |sales| ==> x in r
    decreases |sales| - i
  {
    if i == |sales| then []
    else
      var r := Place(sales, i, ByAge(sales, i + 1));
      assert forall k :: 0 <= k < |r| ==> r[k] in r;
      r
  }

  predicate Names(named: seq<Request>, sale: int) {
    exists k :: 0 <= k < |named| && named[k].sale == sale
  }

  /** The `where` clause: the sales named, or else the account's. */
  predicate Asked(l: Ledger, account: Option<Id>, named: seq<Request>, sale: nat)
    requires sale < |l.sales|
  {
    if named != [] then Names(named, sale) else l.sales[sale].account == account
  }

  function Open(l: Ledger, account: Option<Id>, named: seq<Request>, order: seq<nat>): seq<Outstanding>
    requires forall k :: 0 <= k < |order| ==> order[k] < |l.sales|
  {
    if order == [] then []
    else
      (if Asked(l, account, named, order[0]) && Balance(l, order[0]) != 0 then [Outstanding(order[0], Balance(l, order[0]))] else [])
      + Open(l, account, named, order[1..])
  }

  /** `outstandingFor`: only invoices of the payment's own account. */
  function OutstandingFor(l: Ledger, account: Option<Id>, named: seq<Request>): Result<seq<Outstanding>, Refused> {
    if exists i :: 0 <= i < |l.sales| && Asked(l, account, named, i) && l.sales[i].account != account then Err(OtherAccount)
    else Ok(Open(l, account, named, ByAge(l.sales, 0)))
  }

  // -- The services -----------------------------------------------------------

  /** `PaymentService.create`. */
  function Pay(l: Ledger, account: Option<Id>, amount: int, named: seq<Request>, mayHandBack: bool): Result<Ledger, Refused> {
    if amount == 0 then Err(NothingPaid)
    else if amount < 0 && !mayHandBack then Err(MayNotHandBack)
    else if account.Some? && account.value !in l.live then Err(NoSuchCustomer)
    else
      var outstanding :- OutstandingFor(l, account, named);
      var requested := if named == [] then Oldest(amount, outstanding) else named;
      var plan := Plan(amount, requested, outstanding);
      if plan.Err? then Err(BadSplit(plan.error))
      else Ok(l.(payments := l.payments + [Payment(account, amount, plan.value.allocations, false)]))
  }

  /** `voidPayment`. */
  function Void(l: Ledger, payment: nat): Result<Ledger, Refused> {
    if payment >= |l.payments| then Err(NoSuchPayment)
    else if l.payments[payment].voided then Err(AlreadyVoided)
    else Ok(l.(payments := l.payments[payment := l.payments[payment].(voided := true)]))
  }

  function MoveSales(sales: seq<Sale>, from: Id, to: Id): (r: seq<Sale>)
    ensures |r| == |sales|
    ensures forall i :: 0 <= i < |r| ==> r[i] == sales[i].(account := if sales[i].account == Some(from) then Some(to) else sales[i].account)
  {
    if sales == [] then []
    else [sales[0].(account := if sales[0].account == Some(from) then Some(to) else sales[0].account)] + MoveSales(sales[1..], from, to)
  }

  function MovePayments(payments: seq<Payment>, from: Id, to: Id): (r: seq<Payment>)
    ensures |r| == |payments|
    ensures forall i :: 0 <= i < |r| ==>
      r[i] == payments[i].(account := if payments[i].account == Some(from) then Some(to) else payments[i].account)
  {
    if payments == [] then []
    else
      [payments[0].(account := if payments[0].account == Some(from) then Some(to) else payments[0].account)]
      + MovePayments(payments[1..], from, to)
  }

  /** `merge`: every sale and payment of the duplicate goes to the customer kept. */
  function Merge(l: Ledger, duplicate: Id, kept: Id): Result<Ledger, Refused> {
    if duplicate == kept then Err(SameCustomer)
    else if duplicate !in l.live || kept !in l.live then Err(NoSuchCustomer)
    else Ok(Ledger(l.live - {duplicate}, MoveSales(l.sales, duplicate, kept), MovePayments(l.payments, duplicate, kept)))
  }

  // -- Every run --------------------------------------------------------------

  datatype Step =
    | AddCustomer(id: Id)
    | Sell(account: Option<Id>, at: Time, total: nat)
    | TakeBack(sale: nat, refund: nat)
    | PayIn(account: Option<Id>, amount: int, named: seq<Request>, mayHandBack: bool)
    | VoidOne(payment: nat)
    | MergeInto(duplicate: Id, kept: Id)

  function Kept(l: Ledger, r: Result<Ledger, Refused>): Ledger {
    if r.Ok? then r.value else l
  }

  /** A refused call changes nothing. */
  function Next(l: Ledger, step: Step): Ledger {
    match step
    case AddCustomer(id) => l.(live := l.live + {id})
    case Sell(account, at, total) =>
      if account.Some? && account.value !in l.live then l else l.(sales := l.sales + [Sale(account, at, total, 0)])
    case TakeBack(sale, refund) =>
      if sale < |l.sales| then l.(sales := l.sales[sale := l.sales[sale].(refunded := l.sales[sale].refunded + refund)]) else l
    case PayIn(account, amount, named, mayHandBack) => Kept(l, Pay(l, account, amount, named, mayHandBack))
    case VoidOne(payment) => Kept(l, Void(l, payment))
    case MergeInto(duplicate, kept) => Kept(l, Merge(l, duplicate, kept))
  }

  function Run(l: Ledger, steps: seq<Step>): Ledger
    decreases steps
  {
    if steps == [] then l else Run(Next(l, steps[0]), steps[1..])
  }

  /** Every row against an invoice joins a payment and a sale of one account. */
  ghost predicate Joined(l: Ledger) {
    forall p, c :: 0 <= p < |l.payments| && 0 <= c < |l.payments[p].allocations| ==>
      JoinsOne(l.sales, l.payments[p].account, l.payments[p].allocations[c])
  }

  predicate JoinsOne(sales: seq<Sale>, account: Option<Id>, c: Request) {
    0 <= c.sale < |sales| && sales[c.sale].account == account
  }

  // -- What may be claimed ----------------------------------------------------

  lemma {:induction false} PlaceIsDistinct(sales: seq<Sale>, i: nat, rest: seq<nat>)
    requires i < |sales| && forall k :: 0 <= k < |rest| ==> rest[k] < |sales|
    requires i !in rest && forall j, k :: 0 <= j < k < |rest| ==> rest[j] != rest[k]
    ensures forall j, k :: 0 <= j < k < |Place(sales, i, rest)| ==> Place(sales, i, rest)[j] != Place(sales, i, rest)[k]
  {
    if rest != [] && sales[i].at > sales[rest[0]].at {
      PlaceIsDistinct(sales, i, rest[1..]);
      var more := Place(sales, i, rest[1..]);
      forall k | 0 <= k < |more|
        ensures more[k] != rest[0]
      {
        assert more[k] in more;
        if more[k] != i {
          var j :| 0 <= j < |rest[1..]| && rest[1..][j] == more[k];
          assert rest[j + 1] == more[k];
        }
      }
    }
  }

  lemma {:induction false} ByAgeIsDistinct(sales: seq<Sale>, i: nat)
    requires i <= |sales|
    ensures forall j, k :: 0 <= j < k < |ByAge(sales, i)| ==> ByAge(sales, i)[j] != ByAge(sales, i)[k]
    decreases |sales| - i
  {
    if i < |sales| {
      ByAgeIsDistinct(sales, i + 1);
      PlaceIsDistinct(sales, i, ByAge(sales, i + 1));
    }
  }

  predicate AgeOrder(sales: seq<Sale>, order: seq<nat>)
    requires forall k :: 0 <= k < |order| ==> order[k] < |sales|
  {
    forall j, k :: 0 <= j < k < |order| ==>
      sales[order[j]].at < sales[order[k]].at || (sales[order[j]].at == sales[order[k]].at && order[j] < order[k])
  }

  lemma {:induction false} PlaceIsOrdered(sales: seq<Sale>, i: nat, rest: seq<nat>)
    requires i < |sales| && forall k :: 0 <= k < |rest| ==> i < rest[k] < |sales|
    requires AgeOrder(sales, rest)
    ensures AgeOrder(sales, Place(sales, i, rest))
  {
    if rest != [] && sales[i].at > sales[rest[0]].at {
      PlaceIsOrdered(sales, i, rest[1..]);
      var more := Place(sales, i, rest[1..]);
      forall k | 0 <= k < |more|
        ensures sales[rest[0]].at < sales[more[k]].at || (sales[rest[0]].at == sales[more[k]].at && rest[0] < more[k])
      {
        assert more[k] in more;
        if more[k] != i {
          var j :| 0 <= j < |rest[1..]| && rest[1..][j] == more[k];
          assert rest[j + 1] == more[k];
        }
      }
    }
  }

  /** Invoices are offered oldest first. */
  lemma {:induction false} ByAgeIsOrdered(sales: seq<Sale>, i: nat)
    requires i <= |sales|
    ensures AgeOrder(sales, ByAge(sales, i))
    decreases |sales| - i
  {
    if i < |sales| {
      ByAgeIsOrdered(sales, i + 1);
      PlaceIsOrdered(sales, i, ByAge(sales, i + 1));
    }
  }

  lemma {:induction false} OpenMember(l: Ledger, account: Option<Id>, named: seq<Request>, order: seq<nat>, o: Outstanding)
    requires (forall k :: 0 <= k < |order| ==> order[k] < |l.sales|) && o in Open(l, account, named, order)
    ensures o.sale in order && 0 <= o.sale < |l.sales|
    ensures Asked(l, account, named, o.sale) && o.balance == Balance(l, o.sale) && o.balance != 0
  {
    hide Balance, Asked;
    if o in Open(l, account, named, order[1..]) {
      OpenMember(l, account, named, order[1..], o);
    }
  }

  lemma {:induction false} OpenDistinct(l: Ledger, account: Option<Id>, named: seq<Request>, order: seq<nat>)
    requires forall k :: 0 <= k < |order| ==> order[k] < |l.sales|
    requires forall j, k :: 0 <= j < k < |order| ==> order[j] != order[k]
    ensures DistinctInvoices(Open(l, account, named, order))
  {
    hide Balance, Asked;
    if order != [] {
      OpenDistinct(l, account, named, order[1..]);
      var rest := Open(l, account, named, order[1..]);
      forall k | 0 <= k < |rest|
        ensures rest[k].sale != order[0]
      {
        OpenMember(l, account, named, order[1..], rest[k]);
      }
    }
  }

  lemma {:induction false} OpenComplete(l: Ledger, account: Option<Id>, named: seq<Request>, order: seq<nat>, i: nat)
    requires forall k :: 0 <= k < |order| ==> order[k] < |l.sales|
    requires i in order && Asked(l, account, named, i) && Balance(l, i) != 0
    ensures Outstanding(i, Balance(l, i)) in Open(l, account, named, order)
  {
    hide Balance, Asked;
    if i != order[0] {
      OpenComplete(l, account, named, order[1..], i);
    }
  }

  /** What a payment is offered: each of its account's invoices asked for with money on it, once, at its balance. */
  lemma {:induction false} OutstandingIsOwn(l: Ledger, account: Option<Id>, named: seq<Request>)
    requires OutstandingFor(l, account, named).Ok?
    ensures var open := OutstandingFor(l, account, named).value;
      && DistinctInvoices(open)
      && (forall k :: 0 <= k < |open| ==>
            && 0 <= open[k].sale < |l.sales| && l.sales[open[k].sale].account == account
            && open[k].balance == Balance(l, open[k].sale))
      && (forall i: nat :: i < |l.sales| && Asked(l, account, named, i) && Balance(l, i) != 0 ==>
            Outstanding(i, Balance(l, i)) in open)
  {
    hide Balance;
    var order := ByAge(l.sales, 0);
    var open := Open(l, account, named, order);
    ByAgeIsDistinct(l.sales, 0);
    OpenDistinct(l, account, named, order);
    forall k | 0 <= k < |open|
      ensures 0 <= open[k].sale < |l.sales| && l.sales[open[k].sale].account == account
      ensures open[k].balance == Balance(l, open[k].sale)
    {
      OpenMember(l, account, named, order, open[k]);
    }
    forall i: nat | i < |l.sales| && Asked(l, account, named, i) && Balance(l, i) != 0
      ensures Outstanding(i, Balance(l, i)) in open
    {
      OpenComplete(l, account, named, order, i);
    }
  }

  lemma {:induction false} Listed(outstanding: seq<Outstanding>, sale: Id)
    ensures Invoice(outstanding, sale).Some? ==>
      Invoice(outstanding, sale).value in outstanding && Invoice(outstanding, sale).value.sale == sale
    decreases |outstanding|
  {
    if outstanding != [] && outstanding[|outstanding| - 1].sale != sale {
      Listed(outstanding[..|outstanding| - 1], sale);
    }
  }

  /** What an accepted payment claims: its own account's invoices, never past nothing owed. */
  lemma {:induction false} PayFacts(l: Ledger, account: Option<Id>, amount: int, named: seq<Request>, mayHandBack: bool)
    requires Pay(l, account, amount, named, mayHandBack).Ok?
    ensures var l1 := Pay(l, account, amount, named, mayHandBack).value;
      var claims := l1.payments[|l.payments|].allocations;
      && l1 == l.(payments := l.payments + [Payment(account, amount, claims, false)])
      && (forall c :: 0 <= c < |claims| ==> JoinsOne(l.sales, account, claims[c]) && Sign(claims[c].amount) == Sign(amount))
      && (forall i :: 0 <= i < |l.sales| ==>
            var left := Balance(l, i) - ClaimedOn(claims, i);
            (0 <= left <= Balance(l, i)) || (Balance(l, i) <= left <= 0))
      && (forall i :: 0 <= i < |l.sales| && l.sales[i].account != account ==> ClaimedOn(claims, i) == 0)
      && Abs(Claimed(claims)) <= Abs(amount)
  {
    var outstanding := OutstandingFor(l, account, named).value;
    OutstandingIsOwn(l, account, named);
    var requested := if named == [] then Oldest(amount, outstanding) else named;
    PlanAcceptsExactly(amount, requested, outstanding);
    forall c | 0 <= c < |requested|
      ensures JoinsOne(l.sales, account, requested[c])
    {
      assert Fits(amount, requested[c], outstanding);
      Listed(outstanding, requested[c].sale);
    }
    forall i | 0 <= i < |l.sales|
      ensures var left := Balance(l, i) - ClaimedOn(requested, i);
        (0 <= left <= Balance(l, i)) || (Balance(l, i) <= left <= 0)
      ensures l.sales[i].account != account ==> ClaimedOn(requested, i) == 0
    {
      SplitIsSafe(amount, requested, outstanding, i);
      Listed(outstanding, i);
    }
  }

  /** Left to itself, a payment is never refused for its split. */
  lemma {:induction false} UnnamedIsAlwaysAccepted(l: Ledger, account: Option<Id>, amount: int, mayHandBack: bool)
    requires IsMinor(amount) && amount != 0 && (amount < 0 ==> mayHandBack)
    requires account.Some? ==> account.value in l.live
    ensures Pay(l, account, amount, [], mayHandBack).Ok?
  {
    OutstandingIsOwn(l, account, []);
    OldestIsAccepted(amount, OutstandingFor(l, account, []).value);
  }

  // -- The books balance ------------------------------------------------------

  /** What some claims put against an account's first `n` sales. */
  function OnAccount(sales: seq<Sale>, claims: seq<Request>, account: Option<Id>, n: nat): int
    requires n <= |sales|
  {
    if n == 0 then 0
    else OnAccount(sales, claims, account, n - 1) + if sales[n - 1].account == account then ClaimedOn(claims, n - 1) else 0
  }

  lemma {:induction false} OneClaim(sales: seq<Sale>, c: Request, rest: seq<Request>, account: Option<Id>, n: nat)
    requires n <= |sales| && 0 <= c.sale < |sales|
    ensures OnAccount(sales, [c] + rest, account, n)
      == OnAccount(sales, rest, account, n) + if c.sale < n && sales[c.sale].account == account then c.amount else 0
  {
    if n > 0 {
      OneClaim(sales, c, rest, account, n - 1);
      assert ([c] + rest)[1..] == rest;
    }
  }

  /** Claims that join one account are all on that account's sales. */
  lemma {:induction false} ClaimsAreOnAccount(sales: seq<Sale>, claims: seq<Request>, owner: Option<Id>, account: Option<Id>)
    requires forall c :: 0 <= c < |claims| ==> JoinsOne(sales, owner, claims[c])
    ensures OnAccount(sales, claims, account, |sales|) == if owner == account then Claimed(claims) else 0
  {
    if claims == [] {
      NoClaims(sales, account, |sales|);
    } else {
      ClaimsAreOnAccount(sales, claims[1..], owner, account);
      OneClaim(sales, claims[0], claims[1..], account, |sales|);
      assert [claims[0]] + claims[1..] == claims;
    }
  }

  lemma {:induction false} NoClaims(sales: seq<Sale>, account: Option<Id>, n: nat)
    requires n <= |sales|
    ensures OnAccount(sales, [], account, n) == 0
  {
    if n > 0 {
      NoClaims(sales, account, n - 1);
    }
  }

  /** What live payments put against an account's first `n` sales. */
  function AllOnAccount(sales: seq<Sale>, payments: seq<Payment>, account: Option<Id>, n: nat): int
    requires n <= |sales|
  {
    if n == 0 then 0
    else AllOnAccount(sales, payments, account, n - 1) + if sales[n - 1].account == account then Allocated(payments, n - 1) else 0
  }

  lemma {:induction false} OnePayment(sales: seq<Sale>, payments: seq<Payment>, account: Option<Id>, n: nat)
    requires n <= |sales| && payments != []
    ensures AllOnAccount(sales, payments, account, n)
      == (if payments[0].voided then 0 else OnAccount(sales, payments[0].allocations, account, n))
         + AllOnAccount(sales, payments[1..], account, n)
  {
    if n > 0 {
      OnePayment(sales, payments, account, n - 1);
    }
  }

  lemma {:induction false} PaymentsAreOnAccount(sales: seq<Sale>, payments: seq<Payment>, account: Option<Id>)
    requires forall p, c :: 0 <= p < |payments| && 0 <= c < |payments[p].allocations| ==>
      JoinsOne(sales, payments[p].account, payments[p].allocations[c])
    ensures AllOnAccount(sales, payments, account, |sales|) + Credit(payments, account) == Received(payments, account)
  {
    if payments == [] {
      NoPayments(sales, account, |sales|);
    } else {
      ClaimsAreOnAccount(sales, payments[0].allocations, payments[0].account, account);
      OnePayment(sales, payments, account, |sales|);
      PaymentsAreOnAccount(sales, payments[1..], account);
    }
  }

  lemma {:induction false} NoPayments(sales: seq<Sale>, account: Option<Id>, n: nat)
    requires n <= |sales|
    ensures AllOnAccount(sales, [], account, n) == 0
  {
    if n > 0 {
      NoPayments(sales, account, n - 1);
    }
  }

  lemma {:induction false} OwedInParts(l: Ledger, account: Option<Id>, n: nat)
    requires n <= |l.sales|
    ensures Owed(l, account, n) == Charged(l, account, n) - AllOnAccount(l.sales, l.payments, account, n)
  {
    if n > 0 {
      OwedInParts(l, account, n - 1);
    }
  }

  /** What an account owes, less what it has to its credit, is what it was charged less what it paid. */
  lemma {:induction false} BooksBalance(l: Ledger, account: Option<Id>)
    requires Joined(l)
    ensures Owed(l, account, |l.sales|) - Credit(l.payments, account)
         == Charged(l, account, |l.sales|) - Received(l.payments, account)
  {
    OwedInParts(l, account, |l.sales|);
    PaymentsAreOnAccount(l.sales, l.payments, account);
  }

  lemma {:induction false} NextJoined(l: Ledger, step: Step)
    requires Joined(l)
    ensures Joined(Next(l, step))
  {
    hide Pay;
    var l1 := Next(l, step);
    if step.PayIn? && Pay(l, step.account, step.amount, step.named, step.mayHandBack).Ok? {
      PayFacts(l, step.account, step.amount, step.named, step.mayHandBack);
    }
    forall p, c | 0 <= p < |l1.payments| && 0 <= c < |l1.payments[p].allocations|
      ensures JoinsOne(l1.sales, l1.payments[p].account, l1.payments[p].allocations[c])
    {
      if p < |l.payments| {
        assert JoinsOne(l.sales, l.payments[p].account, l.payments[p].allocations[c]);
      }
    }
  }

  lemma {:induction false} RunJoined(l: Ledger, steps: seq<Step>)
    requires Joined(l)
    ensures Joined(Run(l, steps))
    decreases steps
  {
    hide Joined, Next;
    if steps != [] {
      NextJoined(l, steps[0]);
      RunJoined(Next(l, steps[0]), steps[1..]);
    }
  }

  /** Over any run of sales, returns, payments, voids and merges, every account's books balance. */
  lemma {:induction false} BooksAlwaysBalance(steps: seq<Step>, account: Option<Id>)
    ensures var l := Run(EMPTY, steps);
      Owed(l, account, |l.sales|) - Credit(l.payments, account) == Charged(l, account, |l.sales|) - Received(l.payments, account)
  {
    hide Run, Joined;
    StartJoined();
    RunJoined(EMPTY, steps);
    BooksBalance(Run(EMPTY, steps), account);
  }

  lemma {:induction false} StartJoined()
    ensures Joined(EMPTY)
  {
  }

  // -- One payment, one void, one merge ---------------------------------------

  lemma {:induction false} AllocatedAppend(payments: seq<Payment>, p: Payment, sale: int)
    ensures Allocated(payments + [p], sale) == Allocated(payments, sale) + if p.voided then 0 else ClaimedOn(p.allocations, sale)
  {
    if payments == [] {
      assert [] + [p] == [p] && [p][1..] == [];
    } else {
      assert (payments + [p])[1..] == payments[1..] + [p];
      AllocatedAppend(payments[1..], p, sale);
    }
  }

  lemma {:induction false} AllocatedVoided(payments: seq<Payment>, i: nat, sale: int)
    requires i < |payments| && !payments[i].voided
    ensures Allocated(payments[i := payments[i].(voided := true)], sale)
         == Allocated(payments, sale) - ClaimedOn(payments[i].allocations, sale)
  {
    var after := payments[i := payments[i].(voided := true)];
    if i == 0 {
      assert after[1..] == payments[1..];
    } else {
      assert after[1..] == payments[1..][i - 1 := payments[1..][i - 1].(voided := true)];
      AllocatedVoided(payments[1..], i - 1, sale);
    }
  }

  /** A payment brings every invoice of its account towards nothing owed, never past it, and touches no other account's. */
  lemma {:induction false} PaySettles(l: Ledger, account: Option<Id>, amount: int, named: seq<Request>, mayHandBack: bool, sale: nat)
    requires Pay(l, account, amount, named, mayHandBack).Ok? && sale < |l.sales|
    ensures var l1 := Pay(l, account, amount, named, mayHandBack).value;
      && l1.sales == l.sales
      && ((0 <= Balance(l1, sale) <= Balance(l, sale)) || (Balance(l, sale) <= Balance(l1, sale) <= 0))
      && (l.sales[sale].account != account ==> Balance(l1, sale) == Balance(l, sale))
  {
    hide Pay;
    PayFacts(l, account, amount, named, mayHandBack);
    var l1 := Pay(l, account, amount, named, mayHandBack).value;
    AllocatedAppend(l.payments, l1.payments[|l.payments|], sale);
  }

  /** Voiding a payment puts every invoice back where it was before it. */
  lemma {:induction false} VoidUndoesPay(l: Ledger, account: Option<Id>, amount: int, named: seq<Request>, mayHandBack: bool, sale: nat)
    requires Pay(l, account, amount, named, mayHandBack).Ok? && sale < |l.sales|
    ensures var l1 := Pay(l, account, amount, named, mayHandBack).value;
      && Void(l1, |l.payments|).Ok?
      && Void(l1, |l.payments|).value.sales == l.sales
      && Balance(Void(l1, |l.payments|).value, sale) == Balance(l, sale)
  {
    hide Pay;
    PayFacts(l, account, amount, named, mayHandBack);
    var l1 := Pay(l, account, amount, named, mayHandBack).value;
    AllocatedAppend(l.payments, l1.payments[|l.payments|], sale);
    AllocatedVoided(l1.payments, |l.payments|, sale);
  }

  lemma {:induction false} AllocatedMoved(payments: seq<Payment>, from: Id, to: Id, sale: int)
    ensures Allocated(MovePayments(payments, from, to), sale) == Allocated(payments, sale)
  {
    if payments != [] {
      AllocatedMoved(payments[1..], from, to, sale);
      assert MovePayments(payments, from, to)[1..] == MovePayments(payments[1..], from, to);
    }
  }

  lemma {:induction false} CreditMoved(payments: seq<Payment>, from: Id, to: Id)
    requires from != to
    ensures Credit(MovePayments(payments, from, to), Some(to)) == Credit(payments, Some(to)) + Credit(payments, Some(from))
    ensures Credit(MovePayments(payments, from, to), Some(from)) == 0
  {
    if payments != [] {
      CreditMoved(payments[1..], from, to);
      assert MovePayments(payments, from, to)[1..] == MovePayments(payments[1..], from, to);
    }
  }

  lemma {:induction false} OneMoved(l: Ledger, l1: Ledger, from: Id, to: Id, i: nat)
    requires i < |l.sales| == |l1.sales|
    requires l1.sales == MoveSales(l.sales, from, to) && l1.payments == MovePayments(l.payments, from, to)
    ensures l1.sales[i].account == if l.sales[i].account == Some(from) then Some(to) else l.sales[i].account
    ensures Balance(l1, i) == Balance(l, i)
  {
    AllocatedMoved(l.payments, from, to, i);
  }

  lemma {:induction false} OwedMoved(l: Ledger, l1: Ledger, from: Id, to: Id, n: nat)
    requires from != to && n <= |l.sales| == |l1.sales|
    requires l1.sales == MoveSales(l.sales, from, to) && l1.payments == MovePayments(l.payments, from, to)
    ensures Owed(l1, Some(to), n) == Owed(l, Some(to), n) + Owed(l, Some(from), n)
    ensures Owed(l1, Some(from), n) == 0
  {
    hide Balance, MoveSales, MovePayments;
    if n > 0 {
      OwedMoved(l, l1, from, to, n - 1);
      OneMoved(l, l1, from, to, n - 1);
    }
  }

  /** A merge adds the two positions, and leaves the duplicate with neither debt nor credit. */
  lemma {:induction false} MergeAddsPositions(l: Ledger, duplicate: Id, kept: Id)
    requires Merge(l, duplicate, kept).Ok?
    ensures var l1 := Merge(l, duplicate, kept).value;
      && Owed(l1, Some(kept), |l1.sales|) == Owed(l, Some(kept), |l.sales|) + Owed(l, Some(duplicate), |l.sales|)
      && Credit(l1.payments, Some(kept)) == Credit(l.payments, Some(kept)) + Credit(l.payments, Some(duplicate))
      && Owed(l1, Some(duplicate), |l1.sales|) == 0 && Credit(l1.payments, Some(duplicate)) == 0
  {
    OwedMoved(l, Merge(l, duplicate, kept).value, duplicate, kept, |l.sales|);
    CreditMoved(l.payments, duplicate, kept);
  }

  // -- Without returns --------------------------------------------------------

  /** Nothing was refunded, only money in has been put against invoices, and nothing is owed back. */
  ghost predicate OnlyOwing(l: Ledger) {
    && (forall i :: 0 <= i < |l.sales| ==> l.sales[i].refunded == 0 && Balance(l, i) >= 0)
    && (forall p :: 0 <= p < |l.payments| ==> AllPositive(l.payments[p].allocations))
    && Joined(l)
  }

  predicate AllPositive(claims: seq<Request>) {
    forall c :: 0 <= c < |claims| ==> claims[c].amount > 0
  }

  lemma {:induction false} ClaimsAreMoney(claims: seq<Request>, sale: int)
    requires AllPositive(claims)
    ensures ClaimedOn(claims, sale) >= 0
  {
    if claims != [] {
      ClaimsAreMoney(claims[1..], sale);
    }
  }

  lemma {:induction false} AllocatedIsMoney(payments: seq<Payment>, sale: int)
    requires forall p :: 0 <= p < |payments| ==> AllPositive(payments[p].allocations)
    ensures Allocated(payments, sale) >= 0
  {
    if payments != [] {
      ClaimsAreMoney(payments[0].allocations, sale);
      AllocatedIsMoney(payments[1..], sale);
    }
  }

  lemma {:induction false} NotYetAllocated(payments: seq<Payment>, sales: seq<Sale>, sale: int)
    requires sale >= |sales|
    requires forall p, c :: 0 <= p < |payments| && 0 <= c < |payments[p].allocations| ==>
      JoinsOne(sales, payments[p].account, payments[p].allocations[c])
    ensures Allocated(payments, sale) == 0
  {
    if payments != [] {
      NothingClaimed(payments[0].allocations, sale) by {
        forall c | 0 <= c < |payments[0].allocations|
          ensures payments[0].allocations[c].sale != sale
        {
          assert JoinsOne(sales, payments[0].account, payments[0].allocations[c]);
        }
      }
      NotYetAllocated(payments[1..], sales, sale);
    }
  }

  /** With nothing owed back, money handed back has no invoice to go against. */
  lemma {:induction false} PayKeepsOwing(l: Ledger, account: Option<Id>, amount: int, named: seq<Request>, mayHandBack: bool)
    requires OnlyOwing(l) && Pay(l, account, amount, named, mayHandBack).Ok?
    ensures OnlyOwing(Pay(l, account, amount, named, mayHandBack).value)
  {
    hide Pay;
    var l1 := Pay(l, account, amount, named, mayHandBack).value;
    PayFacts(l, account, amount, named, mayHandBack);
    var claims := l1.payments[|l.payments|].allocations;
    NextJoined(l, PayIn(account, amount, named, mayHandBack));
    forall i | 0 <= i < |l.sales|
      ensures Balance(l1, i) >= 0
    {
      PaySettles(l, account, amount, named, mayHandBack, i);
    }
    forall c | 0 <= c < |claims|
      ensures claims[c].amount > 0
    {
      NothingToUnwind(l, account, amount, named, mayHandBack, c);
    }
    forall p | 0 <= p < |l1.payments|
      ensures AllPositive(l1.payments[p].allocations)
    {
      if p < |l.payments| {
        assert AllPositive(l.payments[p].allocations);
      }
    }
  }

  lemma {:induction false} NothingToUnwind(l: Ledger, account: Option<Id>, amount: int, named: seq<Request>, mayHandBack: bool, c: nat)
    requires OnlyOwing(l) && Pay(l, account, amount, named, mayHandBack).Ok?
    requires c < |Pay(l, account, amount, named, mayHandBack).value.payments[|l.payments|].allocations|
    ensures amount > 0
  {
    var outstanding := OutstandingFor(l, account, named).value;
    OutstandingIsOwn(l, account, named);
    var requested := if named == [] then Oldest(amount, outstanding) else named;
    PlanAcceptsExactly(amount, requested, outstanding);
    assert Fits(amount, requested[c], outstanding);
    Listed(outstanding, requested[c].sale);
  }

  lemma {:induction false} VoidKeepsOwing(l: Ledger, payment: nat)
    requires OnlyOwing(l) && Void(l, payment).Ok?
    ensures OnlyOwing(Void(l, payment).value)
  {
    NextJoined(l, VoidOne(payment));
    var l1 := Void(l, payment).value;
    forall i | 0 <= i < |l.sales|
      ensures Balance(l1, i) >= 0
    {
      AllocatedVoided(l.payments, payment, i);
      ClaimsAreMoney(l.payments[payment].allocations, i);
      assert Balance(l, i) >= 0;
    }
  }

  lemma {:induction false} NextOnlyOwing(l: Ledger, step: Step)
    requires OnlyOwing(l) && !step.TakeBack?
    ensures OnlyOwing(Next(l, step))
  {
    hide Pay, Joined, AllPositive;
    match step
    case PayIn(account, amount, named, mayHandBack) =>
      if Pay(l, account, amount, named, mayHandBack).Ok? {
        PayKeepsOwing(l, account, amount, named, mayHandBack);
      }
    case VoidOne(payment) =>
      if Void(l, payment).Ok? {
        VoidKeepsOwing(l, payment);
      }
    case MergeInto(duplicate, kept) =>
      NextJoined(l, step);
      forall i | 0 <= i < |Next(l, step).sales|
        ensures Next(l, step).sales[i].refunded == 0 && Balance(Next(l, step), i) >= 0
      {
        AllocatedMoved(l.payments, duplicate, kept, i);
        assert Balance(l, i) >= 0;
      }
    case Sell(_, _, _) => SellKeepsOwing(l, step);
    case AddCustomer(_) => NextJoined(l, step); SameBalances(l, step);
  }

  lemma {:induction false} SameBalances(l: Ledger, step: Step)
    requires step.AddCustomer?
    ensures forall i :: 0 <= i < |l.sales| ==> Balance(Next(l, step), i) == Balance(l, i)
  {
  }

  lemma {:induction false} SellKeepsOwing(l: Ledger, step: Step)
    requires OnlyOwing(l) && step.Sell?
    ensures OnlyOwing(Next(l, step))
  {
    NextJoined(l, step);
    NotYetAllocated(l.payments, l.sales, |l.sales|);
    var l1 := Next(l, step);
    forall i | 0 <= i < |l1.sales|
      ensures l1.sales[i].refunded == 0 && Balance(l1, i) >= 0
    {
      if i < |l.sales| {
        assert Balance(l, i) >= 0;
      }
    }
  }

  lemma {:induction false} RunOnlyOwing(l: Ledger, steps: seq<Step>)
    requires OnlyOwing(l) && forall i :: 0 <= i < |steps| ==> !steps[i].TakeBack?
    ensures OnlyOwing(Run(l, steps))
    decreases steps
  {
    hide OnlyOwing, Next;
    if steps != [] {
      NextOnlyOwing(l, steps[0]);
      RunOnlyOwing(Next(l, steps[0]), steps[1..]);
    }
  }

  /** Until something is returned, no invoice is ever overpaid or comes to more than its total, whatever is paid, voided or merged. */
  lemma {:induction false} NothingOwedBackWithoutReturns(steps: seq<Step>, sale: nat)
    requires forall i :: 0 <= i < |steps| ==> !steps[i].TakeBack?
    requires sale < |Run(EMPTY, steps).sales|
    ensures 0 <= Balance(Run(EMPTY, steps), sale) <= Run(EMPTY, steps).sales[sale].total
  {
    hide Run;
    RunOnlyOwing(EMPTY, steps);
    AllocatedIsMoney(Run(EMPTY, steps).payments, sale);
  }
}
