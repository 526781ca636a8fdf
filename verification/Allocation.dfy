/**
 * Splitting a payment over the invoices it settles
 * (src/modules/payments/allocation.ts:50-146).
 */
module Allocation {
  import opened Common

  /** An invoice and what is still owed on it: negative when the customer is owed. */
  datatype Outstanding = Outstanding(sale: Id, balance: int)

  datatype Request = Request(sale: Id, amount: int)

  datatype Split = Split(allocations: seq<Request>, unallocated: int)

  datatype Refusal =
    | NotWholeKobo
    | ZeroPayment
    | ZeroClaim
    | OppositeWay
    | GivenTwice
    | NotOnAccount
    | MoreThanOwed
    | MoreThanPaid

  /** `Number.isSafeInteger`, of a whole number. */
  predicate IsMinor(n: int) {
    Abs(n) <= 9007199254740991
  }

  /** The invoice with this id; the last one, should it be listed twice. */
  function Invoice(outstanding: seq<Outstanding>, sale: Id): Option<Outstanding>
    decreases |outstanding|
  {
    if outstanding == [] then None
    else
      var last := outstanding[|outstanding| - 1];
      if last.sale == sale then Some(last) else Invoice(outstanding[..|outstanding| - 1], sale)
  }

  /** What is wrong with one claim, if anything. */
  function ProblemWith(payment: int, r: Request, outstanding: seq<Outstanding>, seen: set<Id>): Option<Refusal> {
    var invoice := Invoice(outstanding, r.sale);
    if !IsMinor(r.amount) then Some(NotWholeKobo)
    else if r.amount == 0 then Some(ZeroClaim)
    else if Sign(r.amount) != Sign(payment) then Some(OppositeWay)
    else if r.sale in seen then Some(GivenTwice)
    else if invoice.None? then Some(NotOnAccount)
    else if Abs(r.amount) > Abs(invoice.value.balance) || Sign(invoice.value.balance) != Sign(r.amount) then Some(MoreThanOwed)
    else None
  }

  function Claimed(requested: seq<Request>): int {
    if requested == [] then 0 else requested[0].amount + Claimed(requested[1..])
  }

  /** The claims one after another, from what was claimed so far. */
  function ClaimAll(payment: int, requested: seq<Request>, outstanding: seq<Outstanding>, seen: set<Id>, claimed: int): Result<int, Refusal>
    decreases requested
  {
    if requested == [] then Ok(claimed)
    else
      var problem := ProblemWith(payment, requested[0], outstanding, seen);
      if problem.Some? then Err(problem.value)
      else ClaimAll(payment, requested[1..], outstanding, seen + {requested[0].sale}, claimed + requested[0].amount)
  }

  /** `planAllocations`. */
  function Plan(payment: int, requested: seq<Request>, outstanding: seq<Outstanding>): Result<Split, Refusal> {
    if !IsMinor(payment) then Err(NotWholeKobo)
    else if payment == 0 then Err(ZeroPayment)
    else
      var claimed :- ClaimAll(payment, requested, outstanding, {}, 0);
      if Abs(claimed) > Abs(payment) then Err(MoreThanPaid) else Ok(Split(requested, payment - claimed))
  }

  /** `allocateOldest`, in the order given. */
  function Oldest(remaining: int, outstanding: seq<Outstanding>): seq<Request>
    decreases outstanding
  {
    if outstanding == [] || remaining == 0 then []
    else if Sign(outstanding[0].balance) != Sign(remaining) then Oldest(remaining, outstanding[1..])
    else
      var take := Sign(remaining) * Min(Abs(outstanding[0].balance), Abs(remaining));
      [Request(outstanding[0].sale, take)] + Oldest(remaining - take, outstanding[1..])
  }

  // -- Which splits are accepted ----------------------------------------------

  /** A claim against an invoice of the account, running the payment's way, of no more than is owed. */
  predicate Fits(payment: int, r: Request, outstanding: seq<Outstanding>) {
    && IsMinor(r.amount) && r.amount != 0 && Sign(r.amount) == Sign(payment)
    && var invoice := Invoice(outstanding, r.sale);
    && invoice.Some? && Sign(invoice.value.balance) == Sign(r.amount) && Abs(r.amount) <= Abs(invoice.value.balance)
  }

  predicate DistinctSales(requested: seq<Request>) {
    forall i, j :: 0 <= i < j < |requested| ==> requested[i].sale != requested[j].sale
  }

  lemma {:induction false} ClaimAllExactly(payment: int, requested: seq<Request>, outstanding: seq<Outstanding>, seen: set<Id>, claimed: int)
    ensures ClaimAll(payment, requested, outstanding, seen, claimed).Ok? <==>
      && (forall i :: 0 <= i < |requested| ==> Fits(payment, requested[i], outstanding) && requested[i].sale !in seen)
      && DistinctSales(requested)
    ensures ClaimAll(payment, requested, outstanding, seen, claimed).Ok? ==>
      ClaimAll(payment, requested, outstanding, seen, claimed).value == claimed + Claimed(requested)
    decreases requested
  {
    if requested != [] {
      var r, rest := requested[0], requested[1..];
      assert requested == [r] + rest;
      ClaimAllExactly(payment, rest, outstanding, seen + {r.sale}, claimed + r.amount);
      if ProblemWith(payment, r, outstanding, seen).None? {
        assert Fits(payment, r, outstanding) && r.sale !in seen;
        if DistinctSales(requested) {
          assert forall i :: 0 <= i < |rest| ==> rest[i] == requested[i + 1];
        }
      } else {
        assert !(Fits(payment, requested[0], outstanding) && requested[0].sale !in seen);
      }
    }
  }

  /**
   * A split is accepted exactly when the payment is something, each invoice is
   * named once and claimed no more than is owed on it, the payment's way, and the
   * claims together are no more than the payment.
   */
  lemma {:induction false} PlanAcceptsExactly(payment: int, requested: seq<Request>, outstanding: seq<Outstanding>)
    ensures Plan(payment, requested, outstanding).Ok? <==>
      && IsMinor(payment) && payment != 0
      && (forall i :: 0 <= i < |requested| ==> Fits(payment, requested[i], outstanding))
      && DistinctSales(requested)
      && Abs(Claimed(requested)) <= Abs(payment)
    ensures Plan(payment, requested, outstanding).Ok? ==>
      Plan(payment, requested, outstanding).value == Split(requested, payment - Claimed(requested))
  {
    ClaimAllExactly(payment, requested, outstanding, {}, 0);
  }

  lemma {:induction false} SameWay(payment: int, requested: seq<Request>)
    requires forall i :: 0 <= i < |requested| ==> Sign(requested[i].amount) == Sign(payment)
    ensures Claimed(requested) == 0 || Sign(Claimed(requested)) == Sign(payment)
  {
    if requested != [] {
      SameWay(payment, requested[1..]);
    }
  }

  /** What is claimed of one invoice. */
  function ClaimedOn(requested: seq<Request>, sale: Id): int {
    if requested == [] then 0
    else (if requested[0].sale == sale then requested[0].amount else 0) + ClaimedOn(requested[1..], sale)
  }

  lemma {:induction false} NothingClaimed(requested: seq<Request>, sale: Id)
    requires forall i :: 0 <= i < |requested| ==> requested[i].sale != sale
    ensures ClaimedOn(requested, sale) == 0
  {
    if requested != [] {
      NothingClaimed(requested[1..], sale);
    }
  }

  lemma {:induction false} ClaimedOnce(requested: seq<Request>, i: nat)
    requires DistinctSales(requested) && i < |requested|
    ensures ClaimedOn(requested, requested[i].sale) == requested[i].amount
  {
    if i == 0 {
      NothingClaimed(requested[1..], requested[0].sale);
    } else {
      ClaimedOnce(requested[1..], i - 1);
    }
  }

  /**
   * An accepted split leaves every invoice between nothing and what it owed, and
   * what is not put against an invoice is what is left of the payment, never
   * running the other way.
   */
  lemma {:induction false} SplitIsSafe(payment: int, requested: seq<Request>, outstanding: seq<Outstanding>, sale: Id)
    requires Plan(payment, requested, outstanding).Ok?
    ensures var split := Plan(payment, requested, outstanding).value;
      && Claimed(split.allocations) + split.unallocated == payment
      && (split.unallocated == 0 || Sign(split.unallocated) == Sign(payment))
    ensures Invoice(outstanding, sale).Some? ==>
      var owed := Invoice(outstanding, sale).value.balance;
      var left := owed - ClaimedOn(requested, sale);
      (0 <= left <= owed) || (owed <= left <= 0)
    ensures Invoice(outstanding, sale).None? ==> ClaimedOn(requested, sale) == 0
  {
    PlanAcceptsExactly(payment, requested, outstanding);
    SameWay(payment, requested);
    if exists i :: 0 <= i < |requested| && requested[i].sale == sale {
      var i :| 0 <= i < |requested| && requested[i].sale == sale;
      assert Fits(payment, requested[i], outstanding);
      ClaimedOnce(requested, i);
    } else {
      NothingClaimed(requested, sale);
    }
  }

  // -- Oldest first -----------------------------------------------------------

  predicate DistinctInvoices(outstanding: seq<Outstanding>) {
    forall i, j :: 0 <= i < j < |outstanding| ==> outstanding[i].sale != outstanding[j].sale
  }

  /** What the invoices running the payment's way come to. */
  function Matching(payment: int, outstanding: seq<Outstanding>): nat {
    if outstanding == [] then 0
    else (if Sign(outstanding[0].balance) == Sign(payment) then Abs(outstanding[0].balance) else 0) + Matching(payment, outstanding[1..])
  }

  lemma {:induction false} InvoiceAt(outstanding: seq<Outstanding>, i: nat)
    requires DistinctInvoices(outstanding) && i < |outstanding|
    ensures Invoice(outstanding, outstanding[i].sale) == Some(outstanding[i])
    decreases |outstanding|
  {
    if i < |outstanding| - 1 {
      InvoiceAt(outstanding[..|outstanding| - 1], i);
    }
  }

  /** Each take is of a different invoice of the list, in order, of no more than it owes. */
  ghost predicate TakesFrom(taken: seq<Request>, payment: int, outstanding: seq<Outstanding>) {
    && DistinctSales(taken)
    && forall i :: 0 <= i < |taken| ==> TakeOf(taken[i], payment, outstanding)
  }

  predicate TakeOf(r: Request, payment: int, outstanding: seq<Outstanding>) {
    exists k :: 0 <= k < |outstanding| && IsTake(r, payment, outstanding[k])
  }

  predicate IsTake(r: Request, payment: int, o: Outstanding) {
    && r.sale == o.sale && r.amount != 0 && Sign(r.amount) == Sign(payment)
    && Sign(o.balance) == Sign(r.amount) && Abs(r.amount) <= Abs(o.balance)
  }

  lemma {:induction false} TakeSize(remaining: int, balance: int)
    requires remaining != 0 && Sign(balance) == Sign(remaining)
    ensures var take := Sign(remaining) * Min(Abs(balance), Abs(remaining));
      && take != 0 && Sign(take) == Sign(remaining)
      && Abs(take) == Min(Abs(balance), Abs(remaining))
      && Abs(remaining - take) == Abs(remaining) - Abs(take)
      && (remaining == take || Sign(remaining - take) == Sign(remaining))
  {
  }

  lemma {:induction false} RestIsDistinct(outstanding: seq<Outstanding>)
    requires DistinctInvoices(outstanding) && outstanding != []
    ensures DistinctInvoices(outstanding[1..])
  {
  }

  lemma {:induction false} OldestTakes(remaining: int, outstanding: seq<Outstanding>)
    requires DistinctInvoices(outstanding)
    ensures TakesFrom(Oldest(remaining, outstanding), remaining, outstanding)
    decreases outstanding
  {
    hide TakeOf, DistinctInvoices, Sign, Abs, Min;
    if outstanding != [] && remaining != 0 {
      var o, rest := outstanding[0], outstanding[1..];
      RestIsDistinct(outstanding);
      if Sign(o.balance) != Sign(remaining) {
        OldestTakes(remaining, rest);
        LaterTakes(Oldest(remaining, rest), remaining, outstanding);
      } else {
        var take := Sign(remaining) * Min(Abs(o.balance), Abs(remaining));
        TakeSize(remaining, o.balance);
        TakeFits(remaining, o.balance);
        OldestTakes(remaining - take, rest);
        var more := Oldest(remaining - take, rest);
        assert remaining == take ==> more == [];
        FirstTake(Request(o.sale, take), more, remaining, outstanding);
      }
    }
  }

  lemma {:induction false} TakeFits(remaining: int, balance: int)
    requires remaining != 0 && Sign(balance) == Sign(remaining)
    ensures Abs(Sign(remaining) * Min(Abs(balance), Abs(remaining))) <= Abs(balance)
  {
  }

  /** What is taken comes to all there is to settle, or all there is to settle it with. */
  lemma {:induction false} OldestTotal(remaining: int, outstanding: seq<Outstanding>)
    ensures Abs(Claimed(Oldest(remaining, outstanding))) == Min(Abs(remaining), Matching(remaining, outstanding))
    ensures Claimed(Oldest(remaining, outstanding)) == 0 || Sign(Claimed(Oldest(remaining, outstanding))) == Sign(remaining)
    decreases outstanding
  {
    if outstanding != [] && remaining != 0 {
      var o, rest := outstanding[0], outstanding[1..];
      if Sign(o.balance) != Sign(remaining) {
        OldestTotal(remaining, rest);
      } else {
        var take := Sign(remaining) * Min(Abs(o.balance), Abs(remaining));
        TakeSize(remaining, o.balance);
        OldestTotal(remaining - take, rest);
        if remaining != take {
          SameMatching(remaining, remaining - take, rest);
        }
      }
    }
  }

  lemma {:induction false} SameMatching(p: int, q: int, outstanding: seq<Outstanding>)
    requires Sign(p) == Sign(q)
    ensures Matching(p, outstanding) == Matching(q, outstanding)
  {
    if outstanding != [] {
      SameMatching(p, q, outstanding[1..]);
    }
  }

  lemma {:induction false} LaterTakes(taken: seq<Request>, payment: int, outstanding: seq<Outstanding>)
    requires outstanding != [] && TakesFrom(taken, payment, outstanding[1..])
    ensures TakesFrom(taken, payment, outstanding)
  {
    forall i | 0 <= i < |taken|
      ensures TakeOf(taken[i], payment, outstanding)
    {
      assert TakeOf(taken[i], payment, outstanding[1..]);
      var k :| 0 <= k < |outstanding[1..]| && IsTake(taken[i], payment, outstanding[1..][k]);
      assert IsTake(taken[i], payment, outstanding[k + 1]);
    }
  }

  lemma {:induction false} FirstTake(r: Request, more: seq<Request>, payment: int, outstanding: seq<Outstanding>)
    requires DistinctInvoices(outstanding) && outstanding != [] && IsTake(r, payment, outstanding[0])
    requires more == [] || exists q :: Sign(q) == Sign(payment) && TakesFrom(more, q, outstanding[1..])
    ensures TakesFrom([r] + more, payment, outstanding)
  {
    var taken := [r] + more;
    forall i | 0 <= i < |taken|
      ensures TakeOf(taken[i], payment, outstanding) && (i > 0 ==> taken[i].sale != r.sale)
    {
      if i == 0 {
        assert IsTake(taken[0], payment, outstanding[0]);
      } else {
        var q :| Sign(q) == Sign(payment) && TakesFrom(more, q, outstanding[1..]);
        assert TakeOf(more[i - 1], q, outstanding[1..]);
        var k :| 0 <= k < |outstanding[1..]| && IsTake(more[i - 1], q, outstanding[1..][k]);
        assert IsTake(taken[i], payment, outstanding[k + 1]);
      }
    }
  }

  /**
   * Whatever is owed, taking the oldest first makes a split that is accepted, and
   * it settles as much as there is to settle or as there is to settle it with.
   */
  lemma {:induction false} OldestIsAccepted(payment: int, outstanding: seq<Outstanding>)
    requires IsMinor(payment) && payment != 0 && DistinctInvoices(outstanding)
    ensures Plan(payment, Oldest(payment, outstanding), outstanding).Ok?
    ensures Abs(Claimed(Oldest(payment, outstanding))) == Min(Abs(payment), Matching(payment, outstanding))
  {
    var taken := Oldest(payment, outstanding);
    OldestTakes(payment, outstanding);
    OldestTotal(payment, outstanding);
    NoTakeIsLarger(payment, outstanding);
    forall i | 0 <= i < |taken|
      ensures Fits(payment, taken[i], outstanding)
    {
      assert TakeOf(taken[i], payment, outstanding);
      var k :| 0 <= k < |outstanding| && IsTake(taken[i], payment, outstanding[k]);
      InvoiceAt(outstanding, k);
    }
    PlanAcceptsExactly(payment, taken, outstanding);
  }

  lemma {:induction false} NoTakeIsLarger(remaining: int, outstanding: seq<Outstanding>)
    ensures forall i :: 0 <= i < |Oldest(remaining, outstanding)| ==> Abs(Oldest(remaining, outstanding)[i].amount) <= Abs(remaining)
    decreases outstanding
  {
    if outstanding != [] && remaining != 0 {
      if Sign(outstanding[0].balance) != Sign(remaining) {
        NoTakeIsLarger(remaining, outstanding[1..]);
      } else {
        TakeSize(remaining, outstanding[0].balance);
        NoTakeIsLarger(remaining - Sign(remaining) * Min(Abs(outstanding[0].balance), Abs(remaining)), outstanding[1..]);
      }
    }
  }

  /** No invoice is touched before every earlier one running the same way is settled. */
  lemma {:induction false} OldestGoFirst(payment: int, outstanding: seq<Outstanding>, i: nat, j: nat)
    requires DistinctInvoices(outstanding) && i < j < |outstanding|
    requires Sign(outstanding[i].balance) == Sign(payment)
    requires ClaimedOn(Oldest(payment, outstanding), outstanding[j].sale) != 0
    ensures ClaimedOn(Oldest(payment, outstanding), outstanding[i].sale) == outstanding[i].balance
    decreases outstanding
  {
    var o, rest := outstanding[0], outstanding[1..];
    assert rest[j - 1] == outstanding[j];
    if payment != 0 {
      if Sign(o.balance) != Sign(payment) {
        assert rest[i - 1] == outstanding[i];
        OldestGoFirst(payment, rest, i - 1, j - 1);
      } else {
        var take := Sign(payment) * Min(Abs(o.balance), Abs(payment));
        TakeSize(payment, o.balance);
        if i == 0 {
          OnlyListed(payment - take, rest, o.sale);
        } else if payment != take {
          assert rest[i - 1] == outstanding[i];
          OldestGoFirst(payment - take, rest, i - 1, j - 1);
        }
      }
    }
  }

  lemma {:induction false} OnlyListed(remaining: int, outstanding: seq<Outstanding>, sale: Id)
    requires forall k :: 0 <= k < |outstanding| ==> outstanding[k].sale != sale
    ensures ClaimedOn(Oldest(remaining, outstanding), sale) == 0
    decreases outstanding
  {
    if outstanding != [] && remaining != 0 {
      if Sign(outstanding[0].balance) != Sign(remaining) {
        OnlyListed(remaining, outstanding[1..], sale);
      } else {
        OnlyListed(remaining - Sign(remaining) * Min(Abs(outstanding[0].balance), Abs(remaining)), outstanding[1..], sale);
      }
    }
  }

  // -- The loops --------------------------------------------------------------

  /** `planAllocations` as it runs. */
  method PlanAllocations(payment: int, requested: seq<Request>, outstanding: seq<Outstanding>) returns (r: Result<Split, Refusal>)
    ensures r == Plan(payment, requested, outstanding)
  {
    if !IsMinor(payment) {
      return Err(NotWholeKobo);
    }
    if payment == 0 {
      return Err(ZeroPayment);
    }
    var seen: set<Id> := {};
    var claimed := 0;
    for i := 0 to |requested|
      invariant ClaimAll(payment, requested[i..], outstanding, seen, claimed) == ClaimAll(payment, requested, outstanding, {}, 0)
    {
      var request := requested[i];
      assert requested[i..][1..] == requested[i + 1..];
      var problem := ProblemWith(payment, request, outstanding, seen);
      if problem.Some? {
        return Err(problem.value);
      }
      seen := seen + {request.sale};
      claimed := claimed + request.amount;
    }
    if Abs(claimed) > Abs(payment) {
      return Err(MoreThanPaid);
    }
    r := Ok(Split(requested, payment - claimed));
  }

  /** `allocateOldest` as it runs. */
  method AllocateOldest(payment: int, outstanding: seq<Outstanding>) returns (allocations: seq<Request>)
    ensures allocations == Oldest(payment, outstanding)
  {
    allocations := [];
    var remaining := payment;
    var i := 0;
    while i < |outstanding| && remaining != 0
      invariant 0 <= i <= |outstanding|
      invariant allocations + Oldest(remaining, outstanding[i..]) == Oldest(payment, outstanding)
    {
      var invoice := outstanding[i];
      assert outstanding[i..][1..] == outstanding[i + 1..];
      if Sign(invoice.balance) == Sign(remaining) {
        var take := Sign(remaining) * Min(Abs(invoice.balance), Abs(remaining));
        allocations := allocations + [Request(invoice.sale, take)];
        remaining := remaining - take;
      }
      i := i + 1;
    }
  }
}
