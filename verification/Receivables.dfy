/**
 * Who owes what: the receivables list, its groups and its headline, and the
 * account services as they run
 * (src/modules/payments/receivable.service.ts:32-186, src/modules/payments/balance.ts).
 */
module Receivables {
  import opened Common
  import opened Allocation
  import opened Accounts

  datatype Invoice = Invoice(account: Option<Id>, balance: int, days: int)

  datatype Group = Group(account: Option<Id>, owed: nat, credit: nat, invoices: nat, oldestDays: int)

  datatype OwedBothWays = OwedBothWays(owed: nat, credit: nat)

  /** `splitOwed`: what is owed to the business, and what it owes back, never netted. */
  function SplitOwed(invoices: seq<Invoice>): OwedBothWays {
    if invoices == [] then OwedBothWays(0, 0)
    else
      var rest := SplitOwed(invoices[1..]);
      var b := invoices[0].balance;
      if b > 0 then rest.(owed := rest.owed + b) else rest.(credit := rest.credit - b)
  }

  function Of(invoices: seq<Invoice>, account: Option<Id>): seq<Invoice> {
    if invoices == [] then []
    else (if invoices[0].account == account then [invoices[0]] else []) + Of(invoices[1..], account)
  }

  function OldestDays(invoices: seq<Invoice>): int {
    if invoices == [] then 0 else Max(invoices[0].days, OldestDays(invoices[1..]))
  }

  /** One invoice counted into a group. */
  function Counted(g: Group, i: Invoice): Group {
    Group(g.account,
          if i.balance > 0 then g.owed + i.balance else g.owed,
          if i.balance > 0 then g.credit else g.credit - i.balance,
          g.invoices + 1, Max(g.oldestDays, i.days))
  }

  /** Into its customer's group, made when there is none yet. */
  function AddTo(groups: seq<Group>, i: Invoice): seq<Group> {
    if groups == [] then [Counted(Group(i.account, 0, 0, 0, 0), i)]
    else if groups[0].account == i.account then [Counted(groups[0], i)] + groups[1..]
    else [groups[0]] + AddTo(groups[1..], i)
  }

  /** The groups so far, the earliest seen first. */
  function Gathered(invoices: seq<Invoice>): seq<Group>
    decreases |invoices|
  {
    if invoices == [] then [] else AddTo(Gathered(invoices[..|invoices| - 1]), invoices[|invoices| - 1])
  }

  function PlaceGroup(g: Group, rest: seq<Group>): seq<Group> {
    if rest == [] || g.oldestDays >= rest[0].oldestDays then [g] + rest else [rest[0]] + PlaceGroup(g, rest[1..])
  }

  function LongestFirst(groups: seq<Group>): seq<Group> {
    if groups == [] then [] else PlaceGroup(groups[0], LongestFirst(groups[1..]))
  }

  /** `groupByCustomer`. */
  function ByCustomer(invoices: seq<Invoice>): seq<Group> {
    LongestFirst(Gathered(invoices))
  }

  // -- The headline and its groups --------------------------------------------

  datatype Totals = Totals(owed: nat, credit: nat, invoices: nat)

  function TotalsOf(groups: seq<Group>): Totals {
    if groups == [] then Totals(0, 0, 0)
    else
      var rest := TotalsOf(groups[1..]);
      Totals(groups[0].owed + rest.owed, groups[0].credit + rest.credit, groups[0].invoices + rest.invoices)
  }

  lemma {:induction false} AddToTotals(groups: seq<Group>, i: Invoice)
    ensures var t, t1 := TotalsOf(groups), TotalsOf(AddTo(groups, i));
      && t1.owed == t.owed + (if i.balance > 0 then i.balance else 0)
      && t1.credit == t.credit + (if i.balance > 0 then 0 else 0 - i.balance)
      && t1.invoices == t.invoices + 1
  {
    if groups == [] {
    } else if groups[0].account == i.account {
      assert ([Counted(groups[0], i)] + groups[1..])[1..] == groups[1..];
    } else {
      AddToTotals(groups[1..], i);
      assert ([groups[0]] + AddTo(groups[1..], i))[1..] == AddTo(groups[1..], i);
    }
  }

  lemma {:induction false} SplitLast(invoices: seq<Invoice>, i: Invoice)
    ensures SplitOwed(invoices + [i]).owed == SplitOwed(invoices).owed + (if i.balance > 0 then i.balance else 0)
    ensures SplitOwed(invoices + [i]).credit == SplitOwed(invoices).credit + (if i.balance > 0 then 0 else 0 - i.balance)
  {
    if invoices == [] {
      assert [] + [i] == [i] && [i][1..] == [];
    } else {
      assert (invoices + [i])[1..] == invoices[1..] + [i];
      SplitLast(invoices[1..], i);
    }
  }

  lemma {:induction false} GatheredTotals(invoices: seq<Invoice>)
    ensures TotalsOf(Gathered(invoices)) == Totals(SplitOwed(invoices).owed, SplitOwed(invoices).credit, |invoices|)
    decreases |invoices|
  {
    if invoices != [] {
      var n := |invoices| - 1;
      GatheredTotals(invoices[..n]);
      AddToTotals(Gathered(invoices[..n]), invoices[n]);
      SplitLast(invoices[..n], invoices[n]);
      assert invoices[..n] + [invoices[n]] == invoices;
    }
  }

  lemma {:induction false} PlaceTotals(g: Group, rest: seq<Group>)
    ensures TotalsOf(PlaceGroup(g, rest)) == TotalsOf([g] + rest)
  {
    assert ([g] + rest)[1..] == rest;
    if rest != [] && g.oldestDays < rest[0].oldestDays {
      PlaceTotals(g, rest[1..]);
      assert ([g] + rest[1..])[1..] == rest[1..];
    }
  }

  lemma {:induction false} PlaceElements(g: Group, rest: seq<Group>)
    ensures multiset(PlaceGroup(g, rest)) == multiset{g} + multiset(rest)
  {
    if rest != [] && g.oldestDays < rest[0].oldestDays {
      PlaceElements(g, rest[1..]);
      assert rest == [rest[0]] + rest[1..];
    }
  }

  lemma {:induction false} LongestFirstTotals(groups: seq<Group>)
    ensures TotalsOf(LongestFirst(groups)) == TotalsOf(groups)
  {
    if groups != [] {
      LongestFirstTotals(groups[1..]);
      PlaceTotals(groups[0], LongestFirst(groups[1..]));
    }
  }

  lemma {:induction false} LongestFirstElements(groups: seq<Group>)
    ensures multiset(LongestFirst(groups)) == multiset(groups)
  {
    if groups != [] {
      LongestFirstElements(groups[1..]);
      PlaceElements(groups[0], LongestFirst(groups[1..]));
      assert groups == [groups[0]] + groups[1..];
    }
  }

  /** The headline is the sum of its own breakdown, and every invoice is in it once. */
  lemma {:induction false} HeadlineIsItsGroups(invoices: seq<Invoice>)
    ensures TotalsOf(ByCustomer(invoices)) == Totals(SplitOwed(invoices).owed, SplitOwed(invoices).credit, |invoices|)
  {
    GatheredTotals(invoices);
    LongestFirstTotals(Gathered(invoices));
  }

  /** What a customer's group should say. */
  function GroupOf(invoices: seq<Invoice>, account: Option<Id>): Group {
    var own := Of(invoices, account);
    Group(account, SplitOwed(own).owed, SplitOwed(own).credit, |own|, OldestDays(own))
  }

  /** One group an account, each its account's own. */
  ghost predicate GroupsOk(groups: seq<Group>, invoices: seq<Invoice>) {
    && (forall i, j :: 0 <= i < j < |groups| ==> groups[i].account != groups[j].account)
    && (forall i :: 0 <= i < |groups| ==> groups[i] == GroupOf(invoices, groups[i].account))
    && (forall i :: 0 <= i < |invoices| ==> HasGroup(groups, invoices[i].account))
  }

  predicate HasGroup(groups: seq<Group>, account: Option<Id>) {
    exists i :: 0 <= i < |groups| && groups[i].account == account
  }

  lemma {:induction false} OfLast(invoices: seq<Invoice>, i: Invoice, account: Option<Id>)
    ensures Of(invoices + [i], account) == Of(invoices, account) + if i.account == account then [i] else []
  {
    if invoices == [] {
      assert [] + [i] == [i] && [i][1..] == [];
    } else {
      var first, rest, last := invoices[0], Of(invoices[1..], account), if i.account == account then [i] else [];
      assert (invoices + [i])[1..] == invoices[1..] + [i];
      OfLast(invoices[1..], i, account);
      assert (if first.account == account then [first] else []) + (rest + last)
          == ((if first.account == account then [first] else []) + rest) + last;
    }
  }

  lemma {:induction false} OldestLast(invoices: seq<Invoice>, i: Invoice)
    ensures OldestDays(invoices + [i]) == Max(OldestDays(invoices), i.days) || invoices == []
    ensures Max(0, OldestDays(invoices + [i])) == Max(Max(0, OldestDays(invoices)), i.days)
    ensures OldestDays(invoices) >= 0
  {
    if invoices == [] {
      assert [] + [i] == [i] && [i][1..] == [];
    } else {
      assert (invoices + [i])[1..] == invoices[1..] + [i];
      OldestLast(invoices[1..], i);
    }
  }

  lemma {:induction false} GroupGrows(invoices: seq<Invoice>, i: Invoice, account: Option<Id>)
    ensures GroupOf(invoices + [i], account)
      == if i.account == account then Counted(GroupOf(invoices, account), i) else GroupOf(invoices, account)
  {
    OfLast(invoices, i, account);
    SplitLast(Of(invoices, account), i);
    OldestLast(Of(invoices, account), i);
    if i.account != account {
      assert Of(invoices, account) + [] == Of(invoices, account);
    }
  }

  lemma {:induction false} AddToFacts(groups: seq<Group>, i: Invoice)
    requires forall a, b :: 0 <= a < b < |groups| ==> groups[a].account != groups[b].account
    ensures var after := AddTo(groups, i);
      && |groups| <= |after| <= |groups| + 1
      && (forall a :: 0 <= a < |groups| ==>
            after[a] == if groups[a].account == i.account then Counted(groups[a], i) else groups[a])
      && (|after| > |groups| ==> after[|groups|] == Counted(Group(i.account, 0, 0, 0, 0), i) && !HasGroup(groups, i.account))
      && HasGroup(after, i.account)
  {
    if groups == [] {
      assert AddTo(groups, i)[0].account == i.account;
    } else if groups[0].account == i.account {
      assert AddTo(groups, i)[0].account == i.account;
    } else {
      AddToFacts(groups[1..], i);
      var rest := AddTo(groups[1..], i);
      var k :| 0 <= k < |rest| && rest[k].account == i.account;
      assert AddTo(groups, i)[k + 1] == rest[k];
      if HasGroup(groups, i.account) {
        var m :| 0 <= m < |groups| && groups[m].account == i.account;
        assert groups[1..][m - 1] == groups[m];
      }
    }
  }

  lemma {:induction false} NoneOf(invoices: seq<Invoice>, account: Option<Id>)
    requires forall i :: 0 <= i < |invoices| ==> invoices[i].account != account
    ensures Of(invoices, account) == []
  {
    if invoices != [] {
      NoneOf(invoices[1..], account);
    }
  }

  lemma {:induction false} NoGroups()
    ensures GroupsOk([], [])
  {
  }

  lemma {:induction false} GatheredOk(invoices: seq<Invoice>)
    ensures GroupsOk(Gathered(invoices), invoices)
    decreases |invoices|
  {
    hide GroupsOk, AddTo;
    if invoices == [] {
      NoGroups();
    } else {
      var n := |invoices| - 1;
      var i, before, groups := invoices[n], invoices[..n], Gathered(invoices[..n]);
      GatheredOk(before);
      assert before + [i] == invoices;
      AddedOk(groups, before, i);
    }
  }

  lemma {:induction false} AddedOk(groups: seq<Group>, before: seq<Invoice>, i: Invoice)
    requires GroupsOk(groups, before)
    ensures GroupsOk(AddTo(groups, i), before + [i])
  {
    hide GroupOf, Counted;
    AddToFacts(groups, i);
    var after, invoices := AddTo(groups, i), before + [i];
    forall a | 0 <= a < |after|
      ensures after[a] == GroupOf(invoices, after[a].account)
    {
      GroupGrows(before, i, after[a].account);
      if a < |groups| {
        CountedKeepsAccount(groups[a], i);
      } else {
        CountedKeepsAccount(Group(i.account, 0, 0, 0, 0), i);
        NewGroup(groups, before, i.account);
      }
    }
    forall a, b | 0 <= a < b < |after|
      ensures after[a].account != after[b].account
    {
      CountedKeepsAccount(groups[a], i);
      if b < |groups| {
        CountedKeepsAccount(groups[b], i);
      } else {
        CountedKeepsAccount(Group(i.account, 0, 0, 0, 0), i);
      }
    }
    forall k | 0 <= k < |invoices|
      ensures HasGroup(after, invoices[k].account)
    {
      if k < |before| {
        assert HasGroup(groups, before[k].account);
        var a :| 0 <= a < |groups| && groups[a].account == before[k].account;
        CountedKeepsAccount(groups[a], i);
        assert after[a].account == before[k].account;
      }
    }
  }

  lemma {:induction false} CountedKeepsAccount(g: Group, i: Invoice)
    ensures Counted(g, i).account == g.account
  {
  }

  lemma {:induction false} NewGroup(groups: seq<Group>, before: seq<Invoice>, account: Option<Id>)
    requires !HasGroup(groups, account) && forall k :: 0 <= k < |before| ==> HasGroup(groups, before[k].account)
    ensures GroupOf(before, account) == Group(account, 0, 0, 0, 0)
  {
    NoneOf(before, account);
  }

  /** Each group of the list is one customer's own invoices, and every customer with one has exactly one group. */
  lemma {:induction false} GroupsAreCustomers(invoices: seq<Invoice>, account: Option<Id>)
    requires exists i :: 0 <= i < |invoices| && invoices[i].account == account
    ensures multiset(ByCustomer(invoices))[GroupOf(invoices, account)] == 1
    ensures forall g :: g in ByCustomer(invoices) && g.account == account ==> g == GroupOf(invoices, account)
  {
    var groups := Gathered(invoices);
    GatheredOk(invoices);
    LongestFirstElements(groups);
    var a :| 0 <= a < |groups| && groups[a].account == account;
    OneOccurrence(groups, a);
    forall g | g in ByCustomer(invoices) && g.account == account
      ensures g == GroupOf(invoices, account)
    {
      assert g in multiset(ByCustomer(invoices));
      assert g in groups;
    }
  }

  lemma {:induction false} OneOccurrence(groups: seq<Group>, a: nat)
    requires a < |groups|
    requires forall i, j :: 0 <= i < j < |groups| ==> groups[i].account != groups[j].account
    ensures multiset(groups)[groups[a]] == 1
  {
    var before, after := groups[..a], groups[a + 1..];
    assert groups == before + [groups[a]] + after;
    assert groups[a] !in before && groups[a] !in after;
    assert multiset(groups) == multiset(before) + multiset{groups[a]} + multiset(after);
  }

  // -- A customer's position --------------------------------------------------

  /** The shop's invoices with money on them, oldest first. */
  function Invoices(l: Ledger, order: seq<nat>, now: Time): seq<Invoice>
    requires forall k :: 0 <= k < |order| ==> order[k] < |l.sales|
  {
    if order == [] then []
    else
      (if Balance(l, order[0]) != 0
       then [Invoice(l.sales[order[0]].account, Balance(l, order[0]), (now - l.sales[order[0]].at) / 86400000)] else [])
      + Invoices(l, order[1..], now)
  }

  function NetOf(l: Ledger, account: Option<Id>, order: seq<nat>): int
    requires forall k :: 0 <= k < |order| ==> order[k] < |l.sales|
  {
    if order == [] then 0
    else (if l.sales[order[0]].account == account then Balance(l, order[0]) else 0) + NetOf(l, account, order[1..])
  }

  lemma {:induction false} PlaceNet(l: Ledger, account: Option<Id>, i: nat, rest: seq<nat>)
    requires i < |l.sales| && forall k :: 0 <= k < |rest| ==> rest[k] < |l.sales|
    ensures NetOf(l, account, Place(l.sales, i, rest)) == NetOf(l, account, [i] + rest)
  {
    hide Balance;
    if rest != [] && l.sales[i].at > l.sales[rest[0]].at {
      PlaceNet(l, account, i, rest[1..]);
      assert Place(l.sales, i, rest)[1..] == Place(l.sales, i, rest[1..]);
      assert ([i] + rest[1..])[1..] == rest[1..];
      assert ([i] + rest)[1..] == rest;
    }
  }

  lemma {:induction false} ByAgeNet(l: Ledger, account: Option<Id>, i: nat)
    requires i <= |l.sales|
    ensures NetOf(l, account, ByAge(l.sales, i)) + Owed(l, account, i) == Owed(l, account, |l.sales|)
    decreases |l.sales| - i
  {
    hide Balance;
    if i < |l.sales| {
      ByAgeNet(l, account, i + 1);
      PlaceNet(l, account, i, ByAge(l.sales, i + 1));
      assert ([i] + ByAge(l.sales, i + 1))[1..] == ByAge(l.sales, i + 1);
    }
  }

  lemma {:induction false} FirstSplit(first: Invoice, rest: seq<Invoice>, account: Option<Id>)
    ensures var split, more := SplitOwed(Of([first] + rest, account)), SplitOwed(Of(rest, account));
      split.owed - split.credit == more.owed - more.credit + if first.account == account then first.balance else 0
  {
    assert ([first] + rest)[1..] == rest;
    assert ([first] + Of(rest, account))[1..] == Of(rest, account);
    assert Of([first] + rest, account) == (if first.account == account then [first] else []) + Of(rest, account);
    if first.account != account {
      assert [] + Of(rest, account) == Of(rest, account);
    }
  }

  lemma {:induction false} SplitIsNet(l: Ledger, account: Option<Id>, order: seq<nat>, now: Time)
    requires forall k :: 0 <= k < |order| ==> order[k] < |l.sales|
    ensures var split := SplitOwed(Of(Invoices(l, order, now), account));
      split.owed - split.credit == NetOf(l, account, order)
  {
    hide Balance;
    if order != [] {
      SplitIsNet(l, account, order[1..], now);
      var rest := Invoices(l, order[1..], now);
      if Balance(l, order[0]) != 0 {
        var first := Invoice(l.sales[order[0]].account, Balance(l, order[0]), (now - l.sales[order[0]].at) / 86400000);
        FirstSplit(first, rest, account);
      } else {
        assert Invoices(l, order, now) == rest;
      }
    }
  }

  /**
   * The receivables list and a customer's statement cannot disagree: a group's
   * two figures net to what the statement says is owed, and with the credit held
   * to what the customer was charged and has paid.
   */
  lemma {:induction false} GroupIsTheStatement(l: Ledger, account: Option<Id>, now: Time)
    requires Joined(l)
    ensures var g := GroupOf(Invoices(l, ByAge(l.sales, 0), now), account);
      && g.owed - g.credit == Owed(l, account, |l.sales|)
      && g.owed - g.credit - Credit(l.payments, account)
           == Charged(l, account, |l.sales|) - Received(l.payments, account)
  {
    SplitIsNet(l, account, ByAge(l.sales, 0), now);
    ByAgeNet(l, account, 0);
    BooksBalance(l, account);
  }

  // -- As it runs -------------------------------------------------------------

  /** `groupByCustomer`. */
  method GroupByCustomer(invoices: seq<Invoice>) returns (groups: seq<Group>)
    ensures groups == ByCustomer(invoices)
    ensures TotalsOf(groups).owed == SplitOwed(invoices).owed && TotalsOf(groups).credit == SplitOwed(invoices).credit
  {
    HeadlineIsItsGroups(invoices);
    var grouped: seq<Group> := [];
    for i := 0 to |invoices|
      invariant grouped == Gathered(invoices[..i])
    {
      assert invoices[..i + 1][..i] == invoices[..i];
      grouped := AddTo(grouped, invoices[i]);
    }
    assert invoices[..|invoices|] == invoices;
    groups := LongestFirst(grouped);
  }

  lemma {:induction false} NothingOpen(l: Ledger, account: Option<Id>, named: seq<Request>)
    ensures Open(l, account, named, []) == []
  {
  }

  lemma {:induction false} OpenLast(l: Ledger, account: Option<Id>, named: seq<Request>, order: seq<nat>, i: nat)
    requires (forall k :: 0 <= k < |order| ==> order[k] < |l.sales|) && i < |l.sales|
    ensures Open(l, account, named, order + [i]) == Open(l, account, named, order)
      + if Asked(l, account, named, i) && Balance(l, i) != 0 then [Outstanding(i, Balance(l, i))] else []
  {
    hide Asked, Balance;
    if order == [] {
      assert [] + [i] == [i] && [i][1..] == [];
    } else {
      OpenLast(l, account, named, order[1..], i);
      assert (order + [i])[1..] == order[1..] + [i];
    }
  }

  /** The payment and customer services over their tables. */
  class AccountService {
    var live: set<Id>
    var sales: seq<Sale>
    var payments: seq<Payment>

    function View(): Ledger
      reads this
    {
      Ledger(live, sales, payments)
    }

    constructor ()
      ensures View() == EMPTY
    {
      live, sales, payments := {}, [], [];
    }

    /** `saleBalance`, from the rows. */
    method BalanceOf(sale: nat) returns (balance: int)
      requires sale < |sales|
      ensures balance == Balance(View(), sale)
    {
      var settled := 0;
      for p := 0 to |payments|
        invariant settled + Allocated(payments[p..], sale) == Allocated(payments, sale)
      {
        assert payments[p..][1..] == payments[p + 1..];
        if !payments[p].voided {
          var claims := payments[p].allocations;
          ghost var before := settled;
          for c := 0 to |claims|
            invariant settled + ClaimedOn(claims[c..], sale) == before + ClaimedOn(claims, sale)
          {
            assert claims[c..][1..] == claims[c + 1..];
            if claims[c].sale == sale {
              settled := settled + claims[c].amount;
            }
          }
        }
      }
      balance := sales[sale].total - settled - sales[sale].refunded;
    }

    /** The balances of the sales asked for, those of nothing left out. */
    method FindOpen(account: Option<Id>, named: seq<Request>, order: seq<nat>) returns (outstanding: seq<Outstanding>)
      requires forall k :: 0 <= k < |order| ==> order[k] < |sales|
      ensures outstanding == Open(View(), account, named, order)
    {
      hide Asked, Balance, Open;
      ghost var l := View();
      outstanding := [];
      NothingOpen(l, account, named);
      for k := 0 to |order|
        invariant outstanding == Open(l, account, named, order[..k])
      {
        OpenLast(l, account, named, order[..k], order[k]);
        assert order[..k + 1] == order[..k] + [order[k]];
        if Asked(View(), account, named, order[k]) {
          var balance := BalanceOf(order[k]);
          if balance != 0 {
            outstanding := outstanding + [Outstanding(order[k], balance)];
          }
        }
      }
      assert order[..|order|] == order;
    }

    /** `outstandingFor`. */
    method FindOutstanding(account: Option<Id>, named: seq<Request>) returns (r: Result<seq<Outstanding>, Refused>)
      ensures r == OutstandingFor(View(), account, named)
    {
      hide Asked, Balance, Open;
      if exists i :: 0 <= i < |sales| && Asked(View(), account, named, i) && sales[i].account != account {
        return Err(OtherAccount);
      }
      var outstanding := FindOpen(account, named, ByAge(sales, 0));
      r := Ok(outstanding);
    }

    /** `PaymentService.create`. */
    method CreatePayment(account: Option<Id>, amount: int, named: seq<Request>, mayHandBack: bool) returns (r: Result<(), Refused>)
      requires Joined(View())
      modifies this`payments
      ensures match Pay(old(View()), account, amount, named, mayHandBack)
        case Ok(l) => r == Ok(()) && View() == l
        case Err(e) => r == Err(e) && View() == old(View())
      ensures Joined(View())
    {
      hide OutstandingFor, Plan;
      NextJoined(View(), PayIn(account, amount, named, mayHandBack));
      if amount == 0 {
        return Err(NothingPaid);
      }
      if amount < 0 && !mayHandBack {
        return Err(MayNotHandBack);
      }
      if account.Some? && account.value !in live {
        return Err(NoSuchCustomer);
      }
      var outstanding := FindOutstanding(account, named);
      if outstanding.Err? {
        return Err(outstanding.error);
      }
      var requested := named;
      if named == [] {
        requested := AllocateOldest(amount, outstanding.value);
      }
      var plan := PlanAllocations(amount, requested, outstanding.value);
      if plan.Err? {
        return Err(BadSplit(plan.error));
      }
      payments := payments + [Payment(account, amount, plan.value.allocations, false)];
      r := Ok(());
    }

    /** `voidPayment`. */
    method VoidPayment(payment: nat) returns (r: Result<(), Refused>)
      requires Joined(View())
      modifies this`payments
      ensures match Void(old(View()), payment)
        case Ok(l) => r == Ok(()) && View() == l
        case Err(e) => r == Err(e) && View() == old(View())
      ensures Joined(View())
    {
      NextJoined(View(), VoidOne(payment));
      if payment >= |payments| {
        return Err(NoSuchPayment);
      }
      if payments[payment].voided {
        return Err(AlreadyVoided);
      }
      payments := payments[payment := payments[payment].(voided := true)];
      r := Ok(());
    }

    /** Every sale of the duplicate, pointed at the customer kept. */
    method PointSales(duplicate: Id, kept: Id)
      modifies this`sales
      ensures sales == MoveSales(old(sales), duplicate, kept)
    {
      var rows := sales;
      for i := 0 to |rows|
        invariant |sales| == |rows|
        invariant forall j :: 0 <= j < |rows| ==> sales[j] == if j < i then MoveSales(rows, duplicate, kept)[j] else rows[j]
      {
        if sales[i].account == Some(duplicate) {
          sales := sales[i := sales[i].(account := Some(kept))];
        }
      }
    }

    /** Every payment of the duplicate, pointed at the customer kept. */
    method PointPayments(duplicate: Id, kept: Id)
      modifies this`payments
      ensures payments == MovePayments(old(payments), duplicate, kept)
    {
      var rows := payments;
      for i := 0 to |rows|
        invariant |payments| == |rows|
        invariant forall j :: 0 <= j < |rows| ==> payments[j] == if j < i then MovePayments(rows, duplicate, kept)[j] else rows[j]
      {
        if payments[i].account == Some(duplicate) {
          payments := payments[i := payments[i].(account := Some(kept))];
        }
      }
    }

    /** `merge`: re-points the sales and the payments, and removes the duplicate. */
    method MergeCustomers(duplicate: Id, kept: Id) returns (r: Result<(), Refused>)
      requires Joined(View())
      modifies this
      ensures match Merge(old(View()), duplicate, kept)
        case Ok(l) => r == Ok(()) && View() == l
        case Err(e) => r == Err(e) && View() == old(View())
      ensures Joined(View())
    {
      NextJoined(View(), MergeInto(duplicate, kept));
      hide Joined;
      if duplicate == kept {
        return Err(SameCustomer);
      }
      if duplicate !in live || kept !in live {
        return Err(NoSuchCustomer);
      }
      PointSales(duplicate, kept);
      PointPayments(duplicate, kept);
      live := live - {duplicate};
      r := Ok(());
    }

    /** `statement`: what the customer owes, and money of theirs no invoice has claimed. */
    method Statement(account: Option<Id>) returns (owed: int, credit: int)
      requires Joined(View())
      ensures owed == Owed(View(), account, |sales|) && credit == Credit(payments, account)
      ensures owed - credit == Charged(View(), account, |sales|) - Received(payments, account)
    {
      BooksBalance(View(), account);
      owed, credit := 0, 0;
      for i := 0 to |sales|
        invariant owed == Owed(View(), account, i)
      {
        if sales[i].account == account {
          var balance := BalanceOf(i);
          if balance != 0 {
            owed := owed + balance;
          }
        }
      }
      for p := 0 to |payments|
        invariant credit + Credit(payments[p..], account) == Credit(payments, account)
      {
        assert payments[p..][1..] == payments[p + 1..];
        if payments[p].account == account && !payments[p].voided {
          credit := credit + payments[p].amount - Claimed(payments[p].allocations);
        }
      }
    }
  }
}
