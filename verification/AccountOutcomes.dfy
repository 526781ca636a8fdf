/**
 * What a payment does to the invoices of its account, said of their balances
 * before it and after (src/modules/payments/payment.service.ts:131-267,
 * src/modules/payments/allocation.ts:50-146).
 */
module AccountOutcomes {
  import opened Common
  import opened Allocation
  import opened Accounts

  /** The sale was made before the other; of two made together, recorded before it. */
  predicate Earlier(sales: seq<Sale>, i: nat, j: nat)
    requires i < |sales| && j < |sales|
  {
    sales[i].at < sales[j].at || (sales[i].at == sales[j].at && i < j)
  }

  /** What is owed on an account's invoices the payment's way, over its first `n` sales of the shop's. */
  function OwedWay(l: Ledger, account: Option<Id>, way: int, n: nat): nat
    requires n <= |l.sales|
  {
    if n == 0 then 0
    else
      OwedWay(l, account, way, n - 1)
      + if l.sales[n - 1].account == account && Sign(Balance(l, n - 1)) == Sign(way) then Abs(Balance(l, n - 1)) else 0
  }

  lemma {:induction false} BalanceAfter(l: Ledger, l1: Ledger, account: Option<Id>, amount: int, claims: seq<Request>, sale: nat)
    requires sale < |l.sales| && l1 == l.(payments := l.payments + [Payment(account, amount, claims, false)])
    ensures Balance(l1, sale) == Balance(l, sale) - ClaimedOn(claims, sale)
  {
    AllocatedAppend(l.payments, Payment(account, amount, claims, false), sale);
  }

  // -- Named invoices ---------------------------------------------------------

  /** A claim that may be made: of an invoice of the account, the payment's way, of no more than is on it. */
  predicate MayClaim(l: Ledger, account: Option<Id>, amount: int, r: Request) {
    && 0 <= r.sale < |l.sales| && l.sales[r.sale].account == account
    && r.amount != 0 && IsMinor(r.amount) && Sign(r.amount) == Sign(amount)
    && Sign(Balance(l, r.sale)) == Sign(r.amount) && Abs(r.amount) <= Abs(Balance(l, r.sale))
  }

  /** Every sale named is one of the account's. A name that is no sale's is left to the split to refuse. */
  predicate NamesOwn(l: Ledger, account: Option<Id>, named: seq<Request>) {
    forall c :: 0 <= c < |named| && 0 <= named[c].sale < |l.sales| ==> l.sales[named[c].sale].account == account
  }

  lemma {:induction false} FitsExactly(l: Ledger, account: Option<Id>, amount: int, named: seq<Request>, r: Request)
    requires named != [] && OutstandingFor(l, account, named).Ok? && r in named
    ensures Fits(amount, r, OutstandingFor(l, account, named).value) <==> MayClaim(l, account, amount, r)
  {
    hide Balance;
    var open := OutstandingFor(l, account, named).value;
    OutstandingIsOwn(l, account, named);
    Listed(open, r.sale);
    if 0 <= r.sale < |l.sales| && Balance(l, r.sale) != 0 {
      var k :| 0 <= k < |named| && named[k] == r;
      assert Names(named, r.sale);
      assert Asked(l, account, named, r.sale);
      var i :| 0 <= i < |open| && open[i] == Outstanding(r.sale, Balance(l, r.sale));
      InvoiceAt(open, i);
    }
  }

  /**
   * A payment naming its invoices is accepted exactly when it is of something, by
   * somebody who may if money is handed back, on an account there is, and every
   * claim may be made, each of a different invoice, together no more than the payment.
   */
  lemma {:induction false} NamedAcceptedExactly(l: Ledger, account: Option<Id>, amount: int, named: seq<Request>, mayHandBack: bool)
    requires named != []
    ensures Pay(l, account, amount, named, mayHandBack).Ok? <==>
      && amount != 0 && IsMinor(amount) && (amount < 0 ==> mayHandBack) && (account.Some? ==> account.value in l.live)
      && (forall c :: 0 <= c < |named| ==> MayClaim(l, account, amount, named[c]))
      && (forall c, d :: 0 <= c < d < |named| ==> named[c].sale != named[d].sale)
      && Abs(Claimed(named)) <= Abs(amount)
  {
    hide Balance, Open, ByAge, MayClaim, Plan;
    var asked := OutstandingFor(l, account, named);
    if asked.Ok? {
      PlanAcceptsExactly(amount, named, asked.value);
      forall c | 0 <= c < |named|
        ensures Fits(amount, named[c], asked.value) <==> MayClaim(l, account, amount, named[c])
      {
        FitsExactly(l, account, amount, named, named[c]);
      }
    } else {
      SomeoneElses(l, account, amount, named);
    }
  }

  lemma {:induction false} SomeoneElses(l: Ledger, account: Option<Id>, amount: int, named: seq<Request>)
    requires named != [] && OutstandingFor(l, account, named).Err?
    ensures exists c :: 0 <= c < |named| && !MayClaim(l, account, amount, named[c])
  {
    var i :| 0 <= i < |l.sales| && Asked(l, account, named, i) && l.sales[i].account != account;
    var c :| 0 <= c < |named| && named[c].sale == i;
    assert !MayClaim(l, account, amount, named[c]);
  }

  /** An accepted payment takes off each invoice it names exactly what it claims of it, and off no other anything. */
  lemma {:induction false} NamedSettlesItsClaims(l: Ledger, account: Option<Id>, amount: int, named: seq<Request>, mayHandBack: bool, sale: nat)
    requires named != [] && Pay(l, account, amount, named, mayHandBack).Ok? && sale < |l.sales|
    ensures var l1 := Pay(l, account, amount, named, mayHandBack).value;
      && l1.payments == l.payments + [Payment(account, amount, named, false)] && l1.sales == l.sales && l1.live == l.live
      && (forall c :: 0 <= c < |named| && named[c].sale == sale ==> Balance(l1, sale) == Balance(l, sale) - named[c].amount)
      && ((forall c :: 0 <= c < |named| ==> named[c].sale != sale) ==> Balance(l1, sale) == Balance(l, sale))
  {
    hide Balance;
    var open := OutstandingFor(l, account, named).value;
    PlanAcceptsExactly(amount, named, open);
    BalanceAfter(l, Pay(l, account, amount, named, mayHandBack).value, account, amount, named, sale);
    if exists c :: 0 <= c < |named| && named[c].sale == sale {
      forall c | 0 <= c < |named| && named[c].sale == sale
        ensures ClaimedOn(named, sale) == named[c].amount
      {
        ClaimedOnce(named, c);
      }
    } else {
      NothingClaimed(named, sale);
    }
  }

  // -- Oldest first -----------------------------------------------------------

  lemma {:induction false} OpenOrdered(l: Ledger, account: Option<Id>, named: seq<Request>, order: seq<nat>, i: nat, j: nat)
    requires forall k :: 0 <= k < |order| ==> order[k] < |l.sales|
    requires AgeOrder(l.sales, order) && i < j < |Open(l, account, named, order)|
    ensures var open := Open(l, account, named, order);
      && 0 <= open[i].sale < |l.sales| && 0 <= open[j].sale < |l.sales|
      && Earlier(l.sales, open[i].sale, open[j].sale)
  {
    hide Balance, Asked;
    var rest := order[1..];
    var open, more := Open(l, account, named, order), Open(l, account, named, rest);
    RestIsOrdered(l.sales, order);
    if |open| == |more| {
      assert open == more;
      OpenOrdered(l, account, named, rest, i, j);
    } else if i > 0 {
      OpenOrdered(l, account, named, rest, i - 1, j - 1);
    } else {
      OpenMember(l, account, named, rest, more[j - 1]);
      var k :| 0 <= k < |rest| && rest[k] == more[j - 1].sale;
      assert order[k + 1] == rest[k];
    }
  }

  lemma {:induction false} RestIsOrdered(sales: seq<Sale>, order: seq<nat>)
    requires order != [] && (forall k :: 0 <= k < |order| ==> order[k] < |sales|) && AgeOrder(sales, order)
    ensures forall k :: 0 <= k < |order[1..]| ==> order[1..][k] < |sales|
    ensures AgeOrder(sales, order[1..])
  {
  }

  /** A payment that names no invoice claims what taking the oldest first takes. */
  lemma {:induction false} UnnamedClaims(l: Ledger, account: Option<Id>, amount: int, mayHandBack: bool) returns (open: seq<Outstanding>)
    requires Pay(l, account, amount, [], mayHandBack).Ok?
    ensures OutstandingFor(l, account, []) == Ok(open) && open == Open(l, account, [], ByAge(l.sales, 0)) && IsMinor(amount) && amount != 0
    ensures Pay(l, account, amount, [], mayHandBack).value
         == l.(payments := l.payments + [Payment(account, amount, Oldest(amount, open), false)])
  {
    hide Balance, Oldest, Open, ByAge;
    open := OutstandingFor(l, account, []).value;
    PlanAcceptsExactly(amount, Oldest(amount, open), open);
  }

  /**
   * Oldest first: when a payment that names no invoice touches one, every earlier
   * invoice of the account with a balance its way is left with nothing on it.
   */
  lemma {:induction false} OldestAreSettledFirst(l: Ledger, account: Option<Id>, amount: int, mayHandBack: bool, i: nat, j: nat)
    requires Pay(l, account, amount, [], mayHandBack).Ok? && i < |l.sales| && j < |l.sales| && Earlier(l.sales, i, j)
    requires l.sales[i].account == account && Sign(Balance(l, i)) == Sign(amount)
    ensures var l1 := Pay(l, account, amount, [], mayHandBack).value;
      l1.sales == l.sales && (Balance(l1, j) != Balance(l, j) ==> Balance(l1, i) == 0)
  {
    hide Balance, Oldest, Open, ByAge;
    var open := UnnamedClaims(l, account, amount, mayHandBack);
    var l1 := Pay(l, account, amount, [], mayHandBack).value;
    OutstandingIsOwn(l, account, []);
    BalanceAfter(l, l1, account, amount, Oldest(amount, open), i);
    BalanceAfter(l, l1, account, amount, Oldest(amount, open), j);
    if Balance(l1, j) != Balance(l, j) {
      assert Asked(l, account, [], i) && Balance(l, i) != 0;
      var a :| 0 <= a < |open| && open[a] == Outstanding(i, Balance(l, i));
      ClaimedIsListed(amount, open, j);
      var c :| 0 <= c < |open| && open[c].sale == j;
      ByAgeIsOrdered(l.sales, 0);
      if c < a {
        OpenOrdered(l, account, [], ByAge(l.sales, 0), c, a);
      }
      OldestGoFirst(amount, open, a, c);
    }
  }

  lemma {:induction false} ClaimedIsListed(amount: int, open: seq<Outstanding>, sale: Id)
    requires ClaimedOn(Oldest(amount, open), sale) != 0
    ensures exists c :: 0 <= c < |open| && open[c].sale == sale
  {
    if forall c :: 0 <= c < |open| ==> open[c].sale != sale {
      OnlyListed(amount, open, sale);
    }
  }

  // -- How much is settled ----------------------------------------------------

  function OneOwed(l: Ledger, account: Option<Id>, way: int, i: nat): nat
    requires i < |l.sales|
  {
    if l.sales[i].account == account && Sign(Balance(l, i)) == Sign(way) then Abs(Balance(l, i)) else 0
  }

  function OwedAmong(l: Ledger, account: Option<Id>, way: int, order: seq<nat>): nat
    requires forall k :: 0 <= k < |order| ==> order[k] < |l.sales|
  {
    if order == [] then 0 else OneOwed(l, account, way, order[0]) + OwedAmong(l, account, way, order[1..])
  }

  lemma {:induction false} MatchingIsOwed(l: Ledger, account: Option<Id>, way: int, order: seq<nat>)
    requires way != 0 && forall k :: 0 <= k < |order| ==> order[k] < |l.sales|
    ensures Matching(way, Open(l, account, [], order)) == OwedAmong(l, account, way, order)
  {
    hide Balance;
    if order != [] {
      MatchingIsOwed(l, account, way, order[1..]);
      var rest := Open(l, account, [], order[1..]);
      var o := Outstanding(order[0], Balance(l, order[0]));
      assert ([o] + rest)[1..] == rest && [] + rest == rest;
    }
  }

  lemma {:induction false} PlacedAmong(l: Ledger, account: Option<Id>, way: int, i: nat, rest: seq<nat>)
    requires i < |l.sales| && forall k :: 0 <= k < |rest| ==> rest[k] < |l.sales|
    ensures OwedAmong(l, account, way, Place(l.sales, i, rest)) == OneOwed(l, account, way, i) + OwedAmong(l, account, way, rest)
  {
    hide OneOwed;
    if rest == [] || l.sales[i].at <= l.sales[rest[0]].at {
      assert ([i] + rest)[1..] == rest;
    } else {
      PlacedAmong(l, account, way, i, rest[1..]);
      var placed := Place(l.sales, i, rest[1..]);
      assert ([rest[0]] + placed)[1..] == placed;
    }
  }

  lemma {:induction false} AgedAmong(l: Ledger, account: Option<Id>, way: int, i: nat)
    requires i <= |l.sales|
    ensures OwedWay(l, account, way, i) + OwedAmong(l, account, way, ByAge(l.sales, i)) == OwedWay(l, account, way, |l.sales|)
    decreases |l.sales| - i
  {
    hide Balance;
    if i < |l.sales| {
      AgedAmong(l, account, way, i + 1);
      PlacedAmong(l, account, way, i, ByAge(l.sales, i + 1));
    }
  }

  lemma {:induction false} OwedFalls(l: Ledger, l1: Ledger, account: Option<Id>, amount: int, claims: seq<Request>, n: nat)
    requires n <= |l.sales| && amount != 0 && l1.sales == l.sales
    requires forall i :: 0 <= i < |l.sales| ==> Balance(l1, i) == Balance(l, i) - ClaimedOn(claims, i)
    requires forall i :: 0 <= i < |l.sales| ==> var left := Balance(l, i) - ClaimedOn(claims, i);
      (0 <= left <= Balance(l, i)) || (Balance(l, i) <= left <= 0)
    requires forall i :: 0 <= i < |l.sales| ==> ClaimedOn(claims, i) == 0 || Sign(ClaimedOn(claims, i)) == Sign(amount)
    ensures OwedWay(l, account, amount, n) - OwedWay(l1, account, amount, n) == Sign(amount) * OnAccount(l.sales, claims, account, n)
  {
    hide Balance, ClaimedOn;
    if n > 0 {
      OwedFalls(l, l1, account, amount, claims, n - 1);
    }
  }

  lemma {:induction false} ClaimsRunOneWay(claims: seq<Request>, amount: int, sale: Id)
    requires forall c :: 0 <= c < |claims| ==> Sign(claims[c].amount) == Sign(amount)
    ensures ClaimedOn(claims, sale) == 0 || Sign(ClaimedOn(claims, sale)) == Sign(amount)
  {
    if claims != [] {
      ClaimsRunOneWay(claims[1..], amount, sale);
    }
  }

  /**
   * A payment that names no invoice settles as much as it can: what is owed its way
   * on the account falls by the whole of the payment, or to nothing.
   */
  lemma {:induction false} UnnamedSettlesAllItCan(l: Ledger, account: Option<Id>, amount: int, mayHandBack: bool)
    requires Pay(l, account, amount, [], mayHandBack).Ok?
    ensures var l1, n := Pay(l, account, amount, [], mayHandBack).value, |l.sales|;
      && l1.sales == l.sales && l1.live == l.live && |l1.payments| == |l.payments| + 1
      && OwedWay(l1, account, amount, n) == Max(OwedWay(l, account, amount, n) - Abs(amount), 0)
  {
    hide Balance, Oldest, Open, ByAge, Pay, Matching, OwedWay, OwedAmong, OnAccount;
    var open := UnnamedClaims(l, account, amount, mayHandBack);
    var l1, claims := Pay(l, account, amount, [], mayHandBack).value, Oldest(amount, open);
    PayFacts(l, account, amount, [], mayHandBack);
    OutstandingIsOwn(l, account, []);
    OldestTotal(amount, open);
    MatchingIsOwed(l, account, amount, ByAge(l.sales, 0));
    AgedAmong(l, account, amount, 0);
    NothingOwedYet(l, account, amount);
    ClaimsAreOnAccount(l.sales, claims, account, account);
    forall i | 0 <= i < |l.sales|
      ensures Balance(l1, i) == Balance(l, i) - ClaimedOn(claims, i)
      ensures ClaimedOn(claims, i) == 0 || Sign(ClaimedOn(claims, i)) == Sign(amount)
    {
      BalanceAfter(l, l1, account, amount, claims, i);
      ClaimsRunOneWay(claims, amount, i);
    }
    OwedFalls(l, l1, account, amount, claims, |l.sales|);
  }

  lemma {:induction false} NothingOwedYet(l: Ledger, account: Option<Id>, way: int)
    ensures OwedWay(l, account, way, 0) == 0
  {
  }

  // -- The other calls --------------------------------------------------------

  /** A sale is owed in full by its account and by nobody else, and no other invoice moves. */
  lemma {:induction false} SellExactly(l: Ledger, account: Option<Id>, at: Time, total: nat, sale: nat)
    requires Joined(l) && (account.Some? ==> account.value in l.live)
    ensures var l1 := Next(l, Sell(account, at, total));
      && |l1.sales| == |l.sales| + 1 && l1.sales[|l.sales|].account == account && l1.sales[|l.sales|].at == at
      && Balance(l1, |l.sales|) == total && l1.payments == l.payments
      && (sale < |l.sales| ==> l1.sales[sale] == l.sales[sale] && Balance(l1, sale) == Balance(l, sale))
  {
    NotYetAllocated(l.payments, l.sales, |l.sales|);
  }

  /** What a return gives back comes off its own sale's balance and no other's. */
  lemma {:induction false} TakeBackExactly(l: Ledger, back: nat, refund: nat, sale: nat)
    requires back < |l.sales| && sale < |l.sales|
    ensures var l1 := Next(l, TakeBack(back, refund));
      && |l1.sales| == |l.sales| && l1.payments == l.payments
      && l1.sales[sale].account == l.sales[sale].account
      && Balance(l1, sale) == Balance(l, sale) - if sale == back then refund else 0
  {
  }

  /** A payment is voided exactly when there is one and it was not voided; its row stays, and only stops counting. */
  lemma {:induction false} VoidExactly(l: Ledger, payment: nat, sale: nat)
    requires sale < |l.sales|
    ensures Void(l, payment).Ok? <==> payment < |l.payments| && !l.payments[payment].voided
    ensures Void(l, payment).Ok? ==>
      var l1 := Void(l, payment).value;
      && l1.sales == l.sales && |l1.payments| == |l.payments|
      && l1.payments[payment] == l.payments[payment].(voided := true)
      && (forall other :: 0 <= other < |l.payments| && other != payment ==> l1.payments[other] == l.payments[other])
      && Balance(l1, sale) == Balance(l, sale) + ClaimedOn(l.payments[payment].allocations, sale)
  {
    if payment < |l.payments| && !l.payments[payment].voided {
      AllocatedVoided(l.payments, payment, sale);
    }
  }

  /** Two customers who are there and not the same may be merged; every invoice keeps its balance, and the duplicate's go to the other. */
  lemma {:induction false} MergeExactly(l: Ledger, duplicate: Id, kept: Id, sale: nat)
    requires sale < |l.sales|
    ensures Merge(l, duplicate, kept).Ok? <==> duplicate != kept && duplicate in l.live && kept in l.live
    ensures Merge(l, duplicate, kept).Ok? ==>
      var l1 := Merge(l, duplicate, kept).value;
      && l1.live == l.live - {duplicate} && |l1.sales| == |l.sales| && |l1.payments| == |l.payments|
      && l1.sales[sale] == l.sales[sale].(account := if l.sales[sale].account == Some(duplicate) then Some(kept) else l.sales[sale].account)
      && Balance(l1, sale) == Balance(l, sale)
  {
    if Merge(l, duplicate, kept).Ok? {
      OneMoved(l, Merge(l, duplicate, kept).value, duplicate, kept, sale);
    }
  }
}
