/**
 * First expired, first out: the order lots are picked in, and how much a pick
 * takes from each (src/modules/inventory/fefo.ts).
 */
module Fefo {
  import opened Common

  /** A lot with stock at one location, as the picker sees it. No expiry sorts last. */
  datatype Batch = Batch(lot: Id, quantity: int, expiry: Option<Time>, receivedAt: Time)

  datatype Allocation = Allocation(lot: Id, quantity: nat)

  datatype Picked = Picked(allocations: seq<Allocation>, shortfall: nat)

  // -- The picking order ------------------------------------------------------

  /** `a` may be picked before `b`: expiry, then receipt, then id. */
  predicate Sooner(a: Batch, b: Batch) {
    if a.expiry != b.expiry then
      b.expiry.None? || (a.expiry.Some? && a.expiry.value < b.expiry.value)
    else if a.receivedAt != b.receivedAt then
      a.receivedAt < b.receivedAt
    else
      a.lot <= b.lot
  }

  predicate Ordered(s: seq<Batch>) {
    forall i, j :: 0 <= i < j < |s| ==> Sooner(s[i], s[j])
  }

  predicate DistinctLots(s: seq<Batch>) {
    forall i, j :: 0 <= i < j < |s| ==> s[i].lot != s[j].lot
  }

  function Insert(b: Batch, s: seq<Batch>): (r: seq<Batch>)
    ensures multiset(r) == multiset{b} + multiset(s)
  {
    if s == [] then [b]
    else if Sooner(b, s[0]) then
      [b] + s
    else
      assert s == [s[0]] + s[1..];
      [s[0]] + Insert(b, s[1..])
  }

  function SortFefo(s: seq<Batch>): (r: seq<Batch>)
    ensures multiset(r) == multiset(s)
    ensures |r| == |s|
  {
    if s == [] then []
    else
      assert s == [s[0]] + s[1..];
      var r := Insert(s[0], SortFefo(s[1..]));
      assert |r| == |multiset(r)|;
      assert |s| == |multiset(s)|;
      r
  }

  lemma {:induction false} InsertKeepsOrder(b: Batch, s: seq<Batch>)
    requires Ordered(s)
    ensures Ordered(Insert(b, s))
  {
    if s != [] && !Sooner(b, s[0]) {
      InsertKeepsOrder(b, s[1..]);
      var rest := Insert(b, s[1..]);
      forall j | 0 <= j < |rest|
        ensures Sooner(s[0], rest[j])
      {
        assert rest[j] in multiset(rest);
        assert rest[j] == b || rest[j] in s[1..];
      }
    }
  }

  lemma {:induction false} SortIsOrdered(s: seq<Batch>)
    ensures Ordered(SortFefo(s))
  {
    if s != [] {
      SortIsOrdered(s[1..]);
      InsertKeepsOrder(s[0], SortFefo(s[1..]));
    }
  }

  lemma {:induction false} SameMembers(a: seq<Batch>, b: seq<Batch>, x: Batch)
    requires multiset(a) == multiset(b)
    ensures x in a <==> x in b
  {
    assert x in a <==> x in multiset(a);
    assert x in b <==> x in multiset(b);
  }

  lemma {:induction false} InsertKeepsDistinct(b: Batch, s: seq<Batch>)
    requires DistinctLots(s) && forall i :: 0 <= i < |s| ==> s[i].lot != b.lot
    ensures DistinctLots(Insert(b, s))
  {
    if s != [] && !Sooner(b, s[0]) {
      InsertKeepsDistinct(b, s[1..]);
      var rest := Insert(b, s[1..]);
      forall j | 0 <= j < |rest|
        ensures rest[j].lot != s[0].lot
      {
        assert rest[j] in multiset(rest);
        assert rest[j] == b || rest[j] in s[1..];
      }
    }
  }

  lemma {:induction false} SortKeepsDistinct(s: seq<Batch>)
    requires DistinctLots(s)
    ensures DistinctLots(SortFefo(s))
  {
    if s != [] {
      var rest := SortFefo(s[1..]);
      SortKeepsDistinct(s[1..]);
      forall i | 0 <= i < |rest|
        ensures rest[i].lot != s[0].lot
      {
        SameMembers(rest, s[1..], rest[i]);
      }
      InsertKeepsDistinct(s[0], rest);
    }
  }

  lemma {:induction false} SameFirst(a: seq<Batch>, b: seq<Batch>)
    requires multiset(a) == multiset(b) && a != [] && b != []
    requires Ordered(a) && Ordered(b) && DistinctLots(a)
    ensures a[0] == b[0]
  {
    SameMembers(a, b, a[0]);
    SameMembers(a, b, b[0]);
    var k :| 0 <= k < |b| && b[k] == a[0];
    var l :| 0 <= l < |a| && a[l] == b[0];
    assert l == 0 || Sooner(a[0], a[l]);
    assert k == 0 || Sooner(b[0], b[k]);
  }

  lemma {:induction false} DropFirst(a: seq<Batch>)
    requires a != []
    ensures multiset(a[1..]) == multiset(a) - multiset{a[0]}
  {
    assert a == [a[0]] + a[1..];
  }

  /** An ordered arrangement of distinct lots is the only one. */
  lemma {:induction false} OrderedIsUnique(a: seq<Batch>, b: seq<Batch>)
    requires multiset(a) == multiset(b)
    requires Ordered(a) && Ordered(b) && DistinctLots(a)
    ensures a == b
  {
    assert |a| == |multiset(a)| && |b| == |multiset(b)|;
    if a != [] {
      SameFirst(a, b);
      DropFirst(a);
      DropFirst(b);
      OrderedIsUnique(a[1..], b[1..]);
    }
  }

  /** Which order the database returned the lots in never matters. */
  lemma {:induction false} OrderOfRowsIsIrrelevant(a: seq<Batch>, b: seq<Batch>)
    requires multiset(a) == multiset(b) && DistinctLots(a)
    ensures SortFefo(a) == SortFefo(b)
  {
    SortIsOrdered(a);
    SortIsOrdered(b);
    SortKeepsDistinct(a);
    OrderedIsUnique(SortFefo(a), SortFefo(b));
  }

  // -- Picking ----------------------------------------------------------------

  /** What a lot can give: nothing when it is empty or already negative. */
  function Capacity(b: Batch): nat {
    if b.quantity > 0 then b.quantity else 0
  }

  function Stock(s: seq<Batch>): nat {
    if s == [] then 0 else Capacity(s[0]) + Stock(s[1..])
  }

  /** The picks, one lot at a time down an ordered list. */
  function Picks(s: seq<Batch>, quantity: nat): seq<Allocation> {
    if s == [] || quantity == 0 then []
    else if s[0].quantity <= 0 then Picks(s[1..], quantity)
    else
      var take := Min(s[0].quantity, quantity);
      [Allocation(s[0].lot, take)] + Picks(s[1..], quantity - take)
  }

  function Taken(picks: seq<Allocation>): nat {
    if picks == [] then 0 else picks[0].quantity + Taken(picks[1..])
  }

  function TakenFrom(picks: seq<Allocation>, lot: Id): nat {
    if picks == [] then 0
    else (if picks[0].lot == lot then picks[0].quantity else 0) + TakenFrom(picks[1..], lot)
  }

  /** What the lot at `i` gives to a pick of `quantity`, said without running the pick. */
  function Draw(s: seq<Batch>, i: nat, quantity: nat): nat
    requires i < |s|
  {
    Min(Capacity(s[i]), Max(quantity - Stock(s[..i]), 0))
  }

  lemma {:induction false} StockConcat(a: seq<Batch>, b: seq<Batch>)
    ensures Stock(a + b) == Stock(a) + Stock(b)
  {
    if a == [] {
      assert a + b == b;
    } else {
      assert (a + b)[1..] == a[1..] + b;
      StockConcat(a[1..], b);
    }
  }

  lemma {:induction false} StockOfInsert(b: Batch, s: seq<Batch>)
    ensures Stock(Insert(b, s)) == Capacity(b) + Stock(s)
  {
    if s != [] && !Sooner(b, s[0]) {
      StockOfInsert(b, s[1..]);
    }
  }

  lemma {:induction false} StockOfSorted(s: seq<Batch>)
    ensures Stock(SortFefo(s)) == Stock(s)
  {
    if s != [] {
      StockOfSorted(s[1..]);
      StockOfInsert(s[0], SortFefo(s[1..]));
    }
  }

  lemma {:induction false} TakenIsCovered(s: seq<Batch>, quantity: nat)
    ensures Taken(Picks(s, quantity)) == Min(quantity, Stock(s))
    ensures forall k :: 0 <= k < |Picks(s, quantity)| ==> Picks(s, quantity)[k].quantity > 0
  {
    if s == [] || quantity == 0 {
    } else if s[0].quantity <= 0 {
      TakenIsCovered(s[1..], quantity);
    } else {
      TakenIsCovered(s[1..], quantity - Min(s[0].quantity, quantity));
    }
  }

  lemma {:induction false} NothingFromElsewhere(s: seq<Batch>, quantity: nat, lot: Id)
    requires forall i :: 0 <= i < |s| ==> s[i].lot != lot
    ensures TakenFrom(Picks(s, quantity), lot) == 0
  {
    if s == [] || quantity == 0 {
    } else if s[0].quantity <= 0 {
      NothingFromElsewhere(s[1..], quantity, lot);
    } else {
      NothingFromElsewhere(s[1..], quantity - Min(s[0].quantity, quantity), lot);
    }
  }

  /** Every lot gives exactly what is left after all the lots before it, no more. */
  lemma {:induction false} EachLotDraws(s: seq<Batch>, quantity: nat, i: nat)
    requires DistinctLots(s) && i < |s|
    ensures TakenFrom(Picks(s, quantity), s[i].lot) == Draw(s, i, quantity)
  {
    if quantity == 0 {
    } else {
      var take := if s[0].quantity <= 0 then 0 else Min(s[0].quantity, quantity);
      if i == 0 {
        NothingFromElsewhere(s[1..], quantity - take, s[0].lot);
      } else {
        EachLotDraws(s[1..], quantity - take, i - 1);
        assert s[..i][1..] == s[1..][..i - 1];
        assert Stock(s[..i]) == Capacity(s[0]) + Stock(s[1..][..i - 1]);
      }
    }
  }

  /** No lot is touched before every lot ahead of it is emptied. */
  lemma {:induction false} EarlierLotsEmptyFirst(s: seq<Batch>, quantity: nat, i: nat, j: nat)
    requires DistinctLots(s) && i < j < |s|
    requires TakenFrom(Picks(s, quantity), s[j].lot) > 0
    ensures TakenFrom(Picks(s, quantity), s[i].lot) == Capacity(s[i])
  {
    EachLotDraws(s, quantity, i);
    EachLotDraws(s, quantity, j);
    assert s[..j] == s[..i] + [s[i]] + s[i + 1..j];
    StockConcat(s[..i] + [s[i]], s[i + 1..j]);
    StockConcat(s[..i], [s[i]]);
  }

  /** What a pick leaves behind; the picking order does not look at quantities. */
  function Left(s: seq<Batch>, quantity: nat): (r: seq<Batch>)
    ensures |r| == |s|
    ensures forall i :: 0 <= i < |s| ==> r[i].lot == s[i].lot
  {
    if s == [] then []
    else
      var take := Min(Capacity(s[0]), quantity);
      [s[0].(quantity := s[0].quantity - take)] + Left(s[1..], quantity - take)
  }

  /** The lots a pick leaves are the lots it found less what it drew, still in picking order. */
  lemma {:induction false} LeftIsLessTheDraw(s: seq<Batch>, quantity: nat, i: nat)
    requires DistinctLots(s) && i < |s|
    ensures Left(s, quantity)[i] == s[i].(quantity := s[i].quantity - TakenFrom(Picks(s, quantity), s[i].lot))
    ensures Ordered(s) ==> Ordered(Left(s, quantity))
  {
    LeftByIndex(s, quantity, i);
    EachLotDraws(s, quantity, i);
    if Ordered(s) {
      forall a, b | 0 <= a < b < |s|
        ensures Sooner(Left(s, quantity)[a], Left(s, quantity)[b])
      {
        LeftByIndex(s, quantity, a);
        LeftByIndex(s, quantity, b);
        assert Sooner(s[a], s[b]);
      }
    }
  }

  lemma {:induction false} LeftByIndex(s: seq<Batch>, quantity: nat, i: nat)
    requires i < |s|
    ensures Left(s, quantity)[i] == s[i].(quantity := s[i].quantity - Draw(s, i, quantity))
  {
    if i > 0 {
      var take := Min(Capacity(s[0]), quantity);
      LeftByIndex(s[1..], quantity - take, i - 1);
      assert s[..i][1..] == s[1..][..i - 1];
      assert Stock(s[..i]) == Capacity(s[0]) + Stock(s[1..][..i - 1]);
    }
  }

  lemma {:induction false} StockLeft(s: seq<Batch>, quantity: nat, i: nat)
    requires i <= |s|
    ensures Stock(Left(s, quantity)[..i]) == Max(Stock(s[..i]) - quantity, 0)
  {
    if i > 0 {
      var take := Min(Capacity(s[0]), quantity);
      var left := Left(s, quantity);
      StockLeft(s[1..], quantity - take, i - 1);
      assert left[..i][1..] == Left(s[1..], quantity - take)[..i - 1];
      assert s[..i][1..] == s[1..][..i - 1];
    }
  }

  /** Taking `first` and then `second` draws from every lot what taking both at once does. */
  lemma {:induction false} PickingTwiceIsPickingOnce(s: seq<Batch>, first: nat, second: nat, i: nat)
    requires DistinctLots(s) && i < |s|
    ensures TakenFrom(Picks(s, first + second), s[i].lot)
         == TakenFrom(Picks(s, first), s[i].lot) + TakenFrom(Picks(Left(s, first), second), s[i].lot)
  {
    var left := Left(s, first);
    EachLotDraws(s, first, i);
    EachLotDraws(s, first + second, i);
    EachLotDraws(left, second, i);
    LeftByIndex(s, first, i);
    StockLeft(s, first, i);
  }

  // -- Which lot goes first ---------------------------------------------------

  /** It goes off before the other does, which may never go off. */
  predicate GoesOffFirst(x: Batch, y: Batch) {
    x.expiry.Some? && (y.expiry.None? || x.expiry.value < y.expiry.value)
  }

  predicate ReceivedFirst(x: Batch, y: Batch) {
    x.expiry == y.expiry && x.receivedAt < y.receivedAt
  }

  predicate LowerId(x: Batch, y: Batch) {
    x.expiry == y.expiry && x.receivedAt == y.receivedAt && x.lot < y.lot
  }

  /** It is to leave the shelf first: it goes off sooner, or came in sooner, or has the lower id. */
  predicate LeavesFirst(x: Batch, y: Batch) {
    GoesOffFirst(x, y) || ReceivedFirst(x, y) || LowerId(x, y)
  }

  lemma {:induction false} SortedFirst(batches: seq<Batch>, x: Batch, y: Batch) returns (i: nat, j: nat)
    requires DistinctLots(batches) && x in batches && y in batches && LeavesFirst(x, y)
    ensures i < j < |SortFefo(batches)| && SortFefo(batches)[i] == x && SortFefo(batches)[j] == y
    ensures DistinctLots(SortFefo(batches))
  {
    var s := SortFefo(batches);
    SortIsOrdered(batches);
    SortKeepsDistinct(batches);
    SameMembers(s, batches, x);
    SameMembers(s, batches, y);
    i :| 0 <= i < |s| && s[i] == x;
    j :| 0 <= j < |s| && s[j] == y;
    assert j < i ==> Sooner(s[j], s[i]);
  }

  /**
   * First expired, first out, however the lots were listed: nothing is taken of a
   * lot while one that goes off sooner, or came in sooner, or has the lower id, has
   * anything left to give.
   */
  lemma {:induction false} FirstExpiredFirstOut(batches: seq<Batch>, quantity: nat, x: Batch, y: Batch)
    requires DistinctLots(batches) && x in batches && y in batches
    requires GoesOffFirst(x, y) || ReceivedFirst(x, y) || LowerId(x, y)
    ensures var picks := Picks(SortFefo(batches), quantity);
      TakenFrom(picks, y.lot) > 0 ==> TakenFrom(picks, x.lot) == Capacity(x)
  {
    var i, j := SortedFirst(batches, x, y);
    if TakenFrom(Picks(SortFefo(batches), quantity), y.lot) > 0 {
      EarlierLotsEmptyFirst(SortFefo(batches), quantity, i, j);
    }
  }

  lemma {:induction false} OneLotOn(s: seq<Batch>, i: nat, remaining: nat)
    requires i < |s| && remaining > 0
    ensures Picks(s[i..], remaining) ==
      if s[i].quantity <= 0 then Picks(s[i + 1..], remaining)
      else [Allocation(s[i].lot, Min(s[i].quantity, remaining))] + Picks(s[i + 1..], remaining - Min(s[i].quantity, remaining))
  {
    assert s[i..][1..] == s[i + 1..];
  }

  lemma {:induction false} OneMore(a: seq<Allocation>, x: Allocation, rest: seq<Allocation>)
    ensures a + ([x] + rest) == (a + [x]) + rest
    ensures Taken(a + [x]) == Taken(a) + x.quantity
  {
    if a != [] {
      assert (a + [x])[1..] == a[1..] + [x];
      OneMore(a[1..], x, rest);
    }
  }

  lemma {:induction false} NothingTaken()
    ensures Taken([]) == 0
  {
  }

  lemma {:induction false} NothingToPick(s: seq<Batch>, i: nat, remaining: nat)
    requires i <= |s|
    ensures remaining == 0 || i == |s| ==> Picks(s[i..], remaining) == []
  {
  }

  /** Of any two lots, the one to leave second gives nothing until the one to leave first has given all it has. */
  ghost predicate GivenInOrder(batches: seq<Batch>, picks: seq<Allocation>) {
    forall x, y :: x in batches && y in batches && LeavesFirst(x, y) ==>
      (TakenFrom(picks, y.lot) > 0 ==> TakenFrom(picks, x.lot) == Capacity(x))
  }

  lemma {:induction false} PicksAreInOrder(batches: seq<Batch>, quantity: nat)
    requires DistinctLots(batches)
    ensures GivenInOrder(batches, Picks(SortFefo(batches), quantity))
  {
    hide SortFefo, Picks, TakenFrom, DistinctLots;
    forall x, y | x in batches && y in batches && LeavesFirst(x, y)
      ensures TakenFrom(Picks(SortFefo(batches), quantity), y.lot) > 0 ==> TakenFrom(Picks(SortFefo(batches), quantity), x.lot) == Capacity(x)
    {
      FirstExpiredFirstOut(batches, quantity, x, y);
    }
  }

  // -- The loop ---------------------------------------------------------------

  /** The loop of `allocateFefo` down the sorted lots. */
  method PickDown(sorted: seq<Batch>, quantity: nat) returns (allocations: seq<Allocation>, remaining: nat)
    ensures allocations == Picks(sorted, quantity)
    ensures Taken(allocations) + remaining == quantity
  {
    hide Picks, Taken;
    NothingTaken();
    allocations, remaining := [], quantity;
    var i := 0;
    assert sorted[0..] == sorted;
    while i < |sorted|
      invariant 0 <= i <= |sorted|
      invariant allocations + Picks(sorted[i..], remaining) == Picks(sorted, quantity)
      invariant Taken(allocations) + remaining == quantity
    {
      if remaining == 0 {
        break;
      }
      OneLotOn(sorted, i, remaining);
      if sorted[i].quantity > 0 {
        var take := Min(sorted[i].quantity, remaining);
        OneMore(allocations, Allocation(sorted[i].lot, take), Picks(sorted[i + 1..], remaining - take));
        allocations := allocations + [Allocation(sorted[i].lot, take)];
        remaining := remaining - take;
      }
      i := i + 1;
    }
    NothingToPick(sorted, i, remaining);
  }

  /** `allocateFefo`: refuses a quantity that is not positive, and otherwise picks and reports what it could not cover. */
  method AllocateFefo(batches: seq<Batch>, quantity: int) returns (r: Result<Picked, ()>)
    ensures r.Ok? <==> quantity > 0
    ensures r.Ok? ==> r.value.allocations == Picks(SortFefo(batches), quantity)
    ensures r.Ok? ==> r.value.shortfall == Max(0, quantity - Stock(batches))
    ensures r.Ok? ==> Taken(r.value.allocations) + r.value.shortfall == quantity
    ensures r.Ok? && DistinctLots(batches) ==> GivenInOrder(batches, r.value.allocations)
  {
    if quantity <= 0 {
      return Err(());
    }
    hide SortFefo, GivenInOrder, DistinctLots, Picks, Stock, Taken;
    var allocations, remaining := PickDown(SortFefo(batches), quantity);
    StockOfSorted(batches);
    TakenIsCovered(SortFefo(batches), quantity);
    if DistinctLots(batches) {
      PicksAreInOrder(batches, quantity);
    }
    r := Ok(Picked(allocations, remaining));
  }
}
