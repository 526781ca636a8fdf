/**
 * Sharing a delivery fee across what it brought, by largest remainder
 * (src/modules/inventory/delivery-fee.ts).
 */
module DeliveryFee {
  import opened Common

  /** What the split looks at on a line. Costs are money, so never negative. */
  datatype FeeLine = FeeLine(totalCost: nat, quantityReceived: int)

  // -- What each line weighs --------------------------------------------------

  function ByValue(lines: seq<FeeLine>): (ws: seq<nat>)
    ensures |ws| == |lines|
    ensures forall i :: 0 <= i < |ws| ==> ws[i] == if lines[i].quantityReceived > 0 then lines[i].totalCost else 0
  {
    if lines == [] then []
    else [if lines[0].quantityReceived > 0 then lines[0].totalCost else 0] + ByValue(lines[1..])
  }

  function ByArrival(lines: seq<FeeLine>): (ws: seq<nat>)
    ensures |ws| == |lines|
    ensures forall i :: 0 <= i < |ws| ==> ws[i] == Max(lines[i].quantityReceived, 0)
  {
    if lines == [] then [] else [Max(lines[0].quantityReceived, 0)] + ByArrival(lines[1..])
  }

  /** By value, or by what arrived when everything is worth nothing. */
  function Weights(lines: seq<FeeLine>): (ws: seq<nat>)
    ensures |ws| == |lines|
  {
    if exists i :: 0 <= i < |lines| && ByValue(lines)[i] > 0 then ByValue(lines) else ByArrival(lines)
  }

  function Total(ws: seq<nat>): nat {
    if ws == [] then 0 else ws[0] + Total(ws[1..])
  }

  predicate FeeHasSomewhereToGo(lines: seq<FeeLine>) {
    exists i :: 0 <= i < |lines| && lines[i].quantityReceived > 0
  }

  lemma {:induction false} TotalIsZero(ws: seq<nat>)
    ensures Total(ws) == 0 <==> forall i :: 0 <= i < |ws| ==> ws[i] == 0
  {
    if ws != [] {
      TotalIsZero(ws[1..]);
      if Total(ws) == 0 {
        forall i | 0 <= i < |ws|
          ensures ws[i] == 0
        {
          assert i > 0 ==> ws[i] == ws[1..][i - 1];
        }
      }
    }
  }

  /** The weights are all zero exactly when nothing arrived, so a refusal always means that. */
  lemma {:induction false} NothingToWeigh(lines: seq<FeeLine>)
    ensures Total(Weights(lines)) > 0 <==> FeeHasSomewhereToGo(lines)
  {
    TotalIsZero(Weights(lines));
    if FeeHasSomewhereToGo(lines) && !exists i :: 0 <= i < |lines| && ByValue(lines)[i] > 0 {
      var i :| 0 <= i < |lines| && lines[i].quantityReceived > 0;
      assert Weights(lines)[i] > 0;
    }
  }

  // -- Quotas -----------------------------------------------------------------

  /** The whole kobo of each line's exact share. */
  function Floors(fee: nat, ws: seq<nat>, total: nat): (r: seq<nat>)
    requires total > 0
    ensures |r| == |ws|
    ensures forall i :: 0 <= i < |r| ==> r[i] == fee * ws[i] / total
  {
    if ws == [] then [] else [fee * ws[0] / total] + Floors(fee, ws[1..], total)
  }

  /** What is left of each line's exact share, in parts of `total`. */
  function Rems(fee: nat, ws: seq<nat>, total: nat): (r: seq<nat>)
    requires total > 0
    ensures |r| == |ws|
    ensures forall i :: 0 <= i < |r| ==> r[i] == fee * ws[i] % total
  {
    if ws == [] then [] else [fee * ws[0] % total] + Rems(fee, ws[1..], total)
  }

  lemma {:induction false} DivMod(part: nat, total: nat)
    requires total > 0
    ensures part == part / total * total + part % total && part % total < total
  {
  }

  lemma {:induction false} QuotasAddUp(fee: nat, ws: seq<nat>, total: nat)
    requires total > 0
    ensures Total(Floors(fee, ws, total)) * total + Total(Rems(fee, ws, total)) == fee * Total(ws)
  {
    if ws != [] {
      QuotasAddUp(fee, ws[1..], total);
      OneQuota(fee, ws[0], Total(ws[1..]), Total(Floors(fee, ws[1..], total)), Total(Rems(fee, ws[1..], total)), total);
    }
  }

  lemma {:induction false} OneQuota(fee: nat, w: nat, rest: nat, floors: nat, rems: nat, total: nat)
    requires total > 0 && floors * total + rems == fee * rest
    ensures (fee * w / total + floors) * total + (fee * w % total + rems) == fee * (w + rest)
  {
    DivMod(fee * w, total);
    Parts(fee * w / total, floors, total);
    Parts(w, rest, fee);
  }

  lemma {:induction false} Parts(x: int, y: int, z: int)
    ensures (x + y) * z == x * z + y * z
    ensures z * (x + y) == z * x + z * y
  {
  }

  // -- Who gets the kobo left over --------------------------------------------

  /** Line `i` comes before line `j`: larger remainder, then earlier line. */
  predicate Ahead(rs: seq<nat>, i: nat, j: nat)
    requires i < |rs| && j < |rs|
  {
    rs[i] > rs[j] || (rs[i] == rs[j] && i <= j)
  }

  predicate InRange(idx: seq<nat>, n: nat) {
    forall k :: 0 <= k < |idx| ==> idx[k] < n
  }

  predicate Distinct(idx: seq<nat>) {
    forall k, l :: 0 <= k < l < |idx| ==> idx[k] != idx[l]
  }

  predicate Ranked(rs: seq<nat>, idx: seq<nat>)
    requires InRange(idx, |rs|)
  {
    forall k, l :: 0 <= k < l < |idx| ==> Ahead(rs, idx[k], idx[l])
  }

  /** The lines with any weight, first to last. */
  function Weighty(ws: seq<nat>, n: nat): (idx: seq<nat>)
    requires n <= |ws|
    ensures InRange(idx, n) && Distinct(idx)
    ensures forall i: nat :: i in idx <==> i < n && ws[i] > 0
  {
    if n == 0 then []
    else if ws[n - 1] > 0 then Weighty(ws, n - 1) + [n - 1]
    else Weighty(ws, n - 1)
  }

  function Place(rs: seq<nat>, i: nat, idx: seq<nat>): (r: seq<nat>)
    requires i < |rs| && InRange(idx, |rs|)
    ensures InRange(r, |rs|) && |r| == |idx| + 1
    ensures forall x: nat :: x in r <==> x == i || x in idx
  {
    if idx == [] then [i]
    else if Ahead(rs, i, idx[0]) then [i] + idx
    else [idx[0]] + Place(rs, i, idx[1..])
  }

  function ByRemainder(rs: seq<nat>, idx: seq<nat>): (r: seq<nat>)
    requires InRange(idx, |rs|)
    ensures InRange(r, |rs|) && |r| == |idx|
    ensures forall x: nat :: x in r <==> x in idx
  {
    if idx == [] then [] else Place(rs, idx[0], ByRemainder(rs, idx[1..]))
  }

  lemma {:induction false} PlaceSum(rs: seq<nat>, i: nat, idx: seq<nat>)
    requires i < |rs| && InRange(idx, |rs|)
    ensures SumOf(rs, Place(rs, i, idx)) == rs[i] + SumOf(rs, idx)
  {
    if idx == [] {
      assert [i][1..] == [];
    } else if Ahead(rs, i, idx[0]) {
      assert ([i] + idx)[1..] == idx;
    } else {
      PlaceSum(rs, i, idx[1..]);
      assert ([idx[0]] + Place(rs, i, idx[1..]))[1..] == Place(rs, i, idx[1..]);
    }
  }

  lemma {:induction false} PlaceRanked(rs: seq<nat>, i: nat, idx: seq<nat>)
    requires i < |rs| && InRange(idx, |rs|) && Ranked(rs, idx)
    ensures Ranked(rs, Place(rs, i, idx))
  {
    if idx != [] && !Ahead(rs, i, idx[0]) {
      PlaceRanked(rs, i, idx[1..]);
      var rest := Place(rs, i, idx[1..]);
      forall k | 0 <= k < |rest|
        ensures Ahead(rs, idx[0], rest[k])
      {
        assert rest[k] in rest;
      }
    }
  }

  lemma {:induction false} PlaceDistinct(rs: seq<nat>, i: nat, idx: seq<nat>)
    requires i < |rs| && InRange(idx, |rs|) && Distinct(idx) && i !in idx
    ensures Distinct(Place(rs, i, idx))
  {
    if idx != [] && !Ahead(rs, i, idx[0]) {
      PlaceDistinct(rs, i, idx[1..]);
      var rest := Place(rs, i, idx[1..]);
      forall k | 0 <= k < |rest|
        ensures rest[k] != idx[0]
      {
        assert rest[k] in rest;
      }
    }
  }

  lemma {:induction false} ByRemainderFacts(rs: seq<nat>, idx: seq<nat>)
    requires InRange(idx, |rs|) && Distinct(idx)
    ensures Ranked(rs, ByRemainder(rs, idx)) && Distinct(ByRemainder(rs, idx))
    ensures SumOf(rs, ByRemainder(rs, idx)) == SumOf(rs, idx)
  {
    if idx != [] {
      ByRemainderFacts(rs, idx[1..]);
      PlaceSum(rs, idx[0], ByRemainder(rs, idx[1..]));
      PlaceRanked(rs, idx[0], ByRemainder(rs, idx[1..]));
      PlaceDistinct(rs, idx[0], ByRemainder(rs, idx[1..]));
    }
  }

  /** The remainders of the lines listed, summed. */
  function SumOf(rs: seq<nat>, idx: seq<nat>): nat
    requires InRange(idx, |rs|)
  {
    if idx == [] then 0 else rs[idx[0]] + SumOf(rs, idx[1..])
  }

  lemma {:induction false} SumOfConcat(rs: seq<nat>, x: seq<nat>, y: seq<nat>)
    requires InRange(x, |rs|) && InRange(y, |rs|) && InRange(x + y, |rs|)
    ensures SumOf(rs, x + y) == SumOf(rs, x) + SumOf(rs, y)
  {
    if x == [] {
      assert x + y == y;
    } else {
      assert (x + y)[1..] == x[1..] + y;
      SumOfConcat(rs, x[1..], y);
    }
  }

  lemma {:induction false} TotalSnoc(xs: seq<nat>, x: nat)
    ensures Total(xs + [x]) == Total(xs) + x
  {
    if xs != [] {
      assert (xs + [x])[1..] == xs[1..] + [x];
      TotalSnoc(xs[1..], x);
    }
  }

  lemma {:induction false} WeightySum(ws: seq<nat>, rs: seq<nat>, n: nat)
    requires n <= |ws| == |rs|
    requires forall i :: 0 <= i < |ws| && ws[i] == 0 ==> rs[i] == 0
    ensures SumOf(rs, Weighty(ws, n)) == Total(rs[..n])
  {
    if n > 0 {
      WeightySum(ws, rs, n - 1);
      TotalTake(rs, n - 1);
      if ws[n - 1] > 0 {
        SumOfSnoc(rs, Weighty(ws, n - 1), n - 1);
      }
    }
  }

  lemma {:induction false} TotalTake(rs: seq<nat>, n: nat)
    requires n < |rs|
    ensures Total(rs[..n + 1]) == Total(rs[..n]) + rs[n]
  {
    assert rs[..n + 1] == rs[..n] + [rs[n]];
    TotalSnoc(rs[..n], rs[n]);
  }

  lemma {:induction false} SumOfSnoc(rs: seq<nat>, x: seq<nat>, i: nat)
    requires InRange(x, |rs|) && i < |rs|
    ensures SumOf(rs, x + [i]) == SumOf(rs, x) + rs[i]
  {
    SumOfConcat(rs, x, [i]);
    assert [i][1..] == [];
  }

  /** Fewer than `bound` each, so fewer than `bound` times as many. */
  lemma {:induction false} SumBelow(rs: seq<nat>, idx: seq<nat>, bound: nat)
    requires InRange(idx, |rs|) && forall i :: 0 <= i < |rs| ==> rs[i] < bound
    ensures SumOf(rs, idx) <= |idx| * bound
    ensures idx != [] ==> SumOf(rs, idx) < |idx| * bound
  {
    if idx != [] {
      SumBelow(rs, idx[1..], bound);
      OneMore(|idx[1..]|, bound);
    }
  }

  lemma {:induction false} OneMore(n: nat, bound: nat)
    ensures (n + 1) * bound == n * bound + bound
  {
  }

  // -- The split --------------------------------------------------------------

  /** The lines in the order the kobo left over are handed out. */
  function Order(fee: nat, ws: seq<nat>): (idx: seq<nat>)
    requires Total(ws) > 0
    ensures InRange(idx, |ws|)
  {
    ByRemainder(Rems(fee, ws, Total(ws)), Weighty(ws, |ws|))
  }

  function Leftover(fee: nat, ws: seq<nat>): int
    requires Total(ws) > 0
  {
    fee - Total(Floors(fee, ws, Total(ws)))
  }

  /** The floor of the exact quota, and one more for the lines at the head of the order. */
  function ShareOf(fee: nat, ws: seq<nat>, i: nat): nat
    requires Total(ws) > 0 && i < |ws|
  {
    Floors(fee, ws, Total(ws))[i] + if i in Chosen(fee, ws) then 1 else 0
  }

  function Shares(fee: nat, ws: seq<nat>): (r: seq<nat>)
    requires Total(ws) > 0
    ensures |r| == |ws|
  {
    seq(|ws|, i requires 0 <= i < |ws| => ShareOf(fee, ws, i))
  }

  /** `splitDeliveryFee`, as a value: `Err` where the source throws. */
  function Split(fee: int, lines: seq<FeeLine>): Result<seq<nat>, ()> {
    if fee <= 0 || lines == [] then Ok(seq(|lines|, _ => 0))
    else if Total(Weights(lines)) == 0 then Err(())
    else Ok(Shares(fee, Weights(lines)))
  }

  lemma {:induction false} ZeroWeightZeroRem(fee: nat, ws: seq<nat>, total: nat)
    requires total > 0
    ensures forall i :: 0 <= i < |ws| && ws[i] == 0 ==> Rems(fee, ws, total)[i] == 0 && Floors(fee, ws, total)[i] == 0
  {
    forall i | 0 <= i < |ws| && ws[i] == 0
      ensures Rems(fee, ws, total)[i] == 0 && Floors(fee, ws, total)[i] == 0
    {
      assert fee * ws[i] == 0;
    }
  }

  lemma {:induction false} OrderFacts(fee: nat, ws: seq<nat>)
    requires Total(ws) > 0
    ensures Ranked(Rems(fee, ws, Total(ws)), Order(fee, ws)) && Distinct(Order(fee, ws))
    ensures SumOf(Rems(fee, ws, Total(ws)), Order(fee, ws)) == Total(Rems(fee, ws, Total(ws)))
    ensures forall i: nat :: i in Order(fee, ws) <==> i < |ws| && ws[i] > 0
  {
    hide Rems, ByRemainder, Weighty, SumOf;
    var rs := Rems(fee, ws, Total(ws));
    ZeroWeightZeroRem(fee, ws, Total(ws));
    WeightySum(ws, rs, |ws|);
    assert rs[..|ws|] == rs;
    ByRemainderFacts(rs, Weighty(ws, |ws|));
  }

  /** The kobo left over are exactly the remainders put together, and there are lines enough to take them. */
  lemma {:induction false} LeftoverIsRemainders(fee: nat, ws: seq<nat>)
    requires Total(ws) > 0
    ensures 0 <= Leftover(fee, ws)
    ensures Leftover(fee, ws) * Total(ws) == Total(Rems(fee, ws, Total(ws)))
    ensures Leftover(fee, ws) == 0 || Leftover(fee, ws) < |Order(fee, ws)|
  {
    hide Rems, Floors, Order;
    var total := Total(ws);
    var rs, order, left := Rems(fee, ws, total), Order(fee, ws), Leftover(fee, ws);
    QuotasAddUp(fee, ws, total);
    Distribute(fee, Total(Floors(fee, ws, total)), total);
    OrderFacts(fee, ws);
    RemsBelow(fee, ws, total);
    SumBelow(rs, order, total);
    LessByFactor(left, |order|, total);
  }

  lemma {:induction false} Distribute(x: int, y: int, z: int)
    ensures (x - y) * z == x * z - y * z
  {
  }

  lemma {:induction false} RemsBelow(fee: nat, ws: seq<nat>, total: nat)
    requires total > 0
    ensures forall i :: 0 <= i < |ws| ==> Rems(fee, ws, total)[i] < total
  {
  }

  lemma {:induction false} LessByFactor(x: int, n: nat, total: nat)
    requires total > 0 && 0 <= x * total <= n * total
    requires n > 0 ==> x * total < n * total
    ensures 0 <= x && (x == 0 || x < n)
  {
    Ordered(x, -1, total);
    Ordered(n, x, total);
    Ordered(0, x, total);
  }

  lemma {:induction false} Ordered(x: int, y: int, z: int)
    requires z > 0
    ensures x <= y ==> x * z <= y * z
    ensures x < y ==> x * z < y * z
  {
    if x < y {
      Distribute(y, x, z);
      AtLeast(y - x, z);
    }
  }

  lemma {:induction false} AtLeast(d: nat, z: nat)
    requires d > 0 && z > 0
    ensures d * z >= z
  {
  }

  /** A chosen list of distinct lines adds one kobo each. */
  function Extras(n: nat, chosen: seq<nat>): nat {
    if n == 0 then 0 else Extras(n - 1, chosen) + if n - 1 in chosen then 1 else 0
  }

  lemma {:induction false} NoExtras(n: nat)
    ensures Extras(n, []) == 0
  {
    if n > 0 {
      NoExtras(n - 1);
    }
  }

  lemma {:induction false} ExtrasCount(n: nat, chosen: seq<nat>)
    requires Distinct(chosen) && InRange(chosen, n)
    ensures Extras(n, chosen) == |chosen|
  {
    if chosen == [] {
      NoExtras(n);
      return;
    }
    assert chosen[0] < n;
    if n - 1 in chosen {
      var k :| 0 <= k < |chosen| && chosen[k] == n - 1;
      var rest := chosen[..k] + chosen[k + 1..];
      ExtrasCount(n - 1, rest);
      ExtrasOfRest(n - 1, chosen, rest, n - 1);
    } else {
      forall k | 0 <= k < |chosen|
        ensures chosen[k] < n - 1
      {
        assert chosen[k] in chosen;
      }
      ExtrasCount(n - 1, chosen);
    }
  }

  lemma {:induction false} ExtrasOfRest(n: nat, chosen: seq<nat>, rest: seq<nat>, gone: nat)
    requires n <= gone
    requires forall x :: x in rest ==> x in chosen
    requires forall x :: x in chosen && x != gone ==> x in rest
    ensures Extras(n, chosen) == Extras(n, rest)
  {
    if n > 0 {
      ExtrasOfRest(n - 1, chosen, rest, gone);
    }
  }

  /** How many lines get a kobo more. */
  function Chosen(fee: nat, ws: seq<nat>): seq<nat>
    requires Total(ws) > 0
  {
    Order(fee, ws)[..Max(0, Min(Leftover(fee, ws), |Order(fee, ws)|))]
  }

  lemma {:induction false} SharesAddUp(floors: seq<nat>, shares: seq<nat>, chosen: seq<nat>, n: nat)
    requires n <= |shares| == |floors|
    requires forall i: nat :: i < |shares| ==> shares[i] == floors[i] + if i in chosen then 1 else 0
    ensures Total(shares[..n]) == Total(floors[..n]) + Extras(n, chosen)
  {
    if n > 0 {
      SharesAddUp(floors, shares, chosen, n - 1);
      assert shares[..n] == shares[..n - 1] + [shares[n - 1]];
      assert floors[..n] == floors[..n - 1] + [floors[n - 1]];
      TotalSnoc(shares[..n - 1], shares[n - 1]);
      TotalSnoc(floors[..n - 1], floors[n - 1]);
    }
  }

  // -- What the split promises ------------------------------------------------

  lemma {:induction false} ChosenFacts(fee: nat, ws: seq<nat>)
    requires Total(ws) > 0
    ensures |Chosen(fee, ws)| == Leftover(fee, ws) <= |Order(fee, ws)|
    ensures Chosen(fee, ws) == Order(fee, ws)[..Leftover(fee, ws)]
    ensures Distinct(Chosen(fee, ws)) && InRange(Chosen(fee, ws), |ws|)
  {
    hide Order, Leftover;
    LeftoverIsRemainders(fee, ws);
    OrderFacts(fee, ws);
  }

  /** No rounding ever makes or loses a kobo. */
  lemma {:induction false} SharesSumToFee(fee: nat, ws: seq<nat>)
    requires Total(ws) > 0
    ensures Total(Shares(fee, ws)) == fee
  {
    hide Chosen, Floors, Order;
    var shares, floors := Shares(fee, ws), Floors(fee, ws, Total(ws));
    ChosenFacts(fee, ws);
    SharesAddUp(floors, shares, Chosen(fee, ws), |ws|);
    assert shares[..|ws|] == shares && floors[..|ws|] == floors;
    ExtrasCount(|ws|, Chosen(fee, ws));
  }

  /** A line the leftover reaches has a remainder to round up. */
  lemma {:induction false} ExtraNeedsRemainder(fee: nat, ws: seq<nat>, i: nat)
    requires Total(ws) > 0 && i < |ws| && i in Chosen(fee, ws)
    ensures Rems(fee, ws, Total(ws))[i] > 0
  {
    hide Chosen, Order, Rems, Leftover, SumOf, Total;
    ChosenFacts(fee, ws);
    OrderFacts(fee, ws);
    LeftoverIsRemainders(fee, ws);
    RemsBelow(fee, ws, Total(ws));
    var k :| 0 <= k < Leftover(fee, ws) && Order(fee, ws)[k] == i;
    HeadIsNotZero(Rems(fee, ws, Total(ws)), Order(fee, ws), Leftover(fee, ws), Total(ws), k);
  }

  /** If the remainders fill `left` whole parts, the first `left` of them down the order are not zero. */
  lemma {:induction false} HeadIsNotZero(rs: seq<nat>, order: seq<nat>, left: nat, total: nat, k: nat)
    requires InRange(order, |rs|) && Ranked(rs, order) && total > 0
    requires forall i :: 0 <= i < |rs| ==> rs[i] < total
    requires SumOf(rs, order) == left * total && k < left <= |order|
    ensures rs[order[k]] > 0
  {
    if rs[order[k]] == 0 {
      assert order == order[..k] + order[k..];
      SumOfConcat(rs, order[..k], order[k..]);
      AllZero(rs, order[k..]);
      SumBelow(rs, order[..k], total);
      Ordered(k, left, total);
      assert false;
    }
  }

  lemma {:induction false} AllZero(rs: seq<nat>, idx: seq<nat>)
    requires InRange(idx, |rs|) && Ranked(rs, idx) && idx != [] && rs[idx[0]] == 0
    ensures SumOf(rs, idx) == 0
  {
    if |idx| > 1 {
      assert Ahead(rs, idx[0], idx[1]);
      AllZero(rs, idx[1..]);
    }
  }

  /** A larger weight never gets a smaller share. */
  lemma {:induction false} LargerWeightLargerShare(fee: nat, ws: seq<nat>, i: nat, j: nat)
    requires Total(ws) > 0 && i < |ws| && j < |ws| && ws[i] > ws[j]
    ensures ShareOf(fee, ws, i) >= ShareOf(fee, ws, j)
  {
    hide Chosen, Order, Rems, Floors, Leftover;
    var total := Total(ws);
    var rs, order, left, floors := Rems(fee, ws, total), Order(fee, ws), Leftover(fee, ws), Floors(fee, ws, total);
    ChosenFacts(fee, ws);
    OrderFacts(fee, ws);
    QuotaGrows(fee, ws, i, j);
    if j in Chosen(fee, ws) && floors[i] == floors[j] {
      ExtraNeedsRemainder(fee, ws, j);
      var k :| 0 <= k < left && order[k] == j;
      var l :| 0 <= l < |order| && order[l] == i;
      if l <= k {
        assert order[..left][l] == i;
      }
    }
  }

  /** A larger weight has a larger floor, or the same floor and, if the other has any remainder, a larger remainder. */
  lemma {:induction false} QuotaGrows(fee: nat, ws: seq<nat>, i: nat, j: nat)
    requires Total(ws) > 0 && i < |ws| && j < |ws| && ws[i] > ws[j]
    ensures var f, r := Floors(fee, ws, Total(ws)), Rems(fee, ws, Total(ws));
      f[i] > f[j] || (f[i] == f[j] && (r[j] > 0 ==> r[i] > r[j]))
  {
    Products(fee, ws[i], ws[j]);
    QuotientGrows(fee * ws[i], fee * ws[j], Total(ws));
  }

  lemma {:induction false} Products(fee: nat, x: nat, y: nat)
    requires x > y
    ensures fee * x >= fee * y
    ensures fee * y > 0 ==> fee * x > fee * y
  {
    Distribute(x, y, fee);
    if fee > 0 {
      AtLeast(x - y, fee);
    }
  }

  lemma {:induction false} QuotientGrows(x: nat, y: nat, total: nat)
    requires total > 0 && x >= y && (y > 0 ==> x > y)
    ensures x / total > y / total || (x / total == y / total && (y % total > 0 ==> x % total > y % total))
  {
    DivMod(x, total);
    DivMod(y, total);
    DivisionGrows(x / total, y / total, x % total, y % total, total);
    if y % total > 0 {
      assert y > 0 by {
        ZeroDivides(total);
      }
    }
  }

  lemma {:induction false} ZeroDivides(total: nat)
    requires total > 0
    ensures 0 % total == 0
  {
  }

  lemma {:induction false} DivisionGrows(p: nat, q: nat, r: nat, s: nat, total: nat)
    requires r < total && s < total && p * total + r >= q * total + s
    ensures p >= q
  {
    if p < q {
      Distribute(q, p, total);
      AtLeast(q - p, total);
      assert false;
    }
  }

  /**
   * `splitDeliveryFee` on whole lines: it throws on a positive fee and a
   * non-empty delivery exactly when nothing arrived; otherwise the shares come
   * to exactly the fee, and a line where nothing arrived carries none of it.
   */
  lemma {:induction false} SplitIsExact(fee: nat, lines: seq<FeeLine>)
    ensures Split(fee, lines).Err? <==> fee > 0 && lines != [] && !FeeHasSomewhereToGo(lines)
    ensures Split(fee, lines).Ok? ==> |Split(fee, lines).value| == |lines|
    ensures Split(fee, lines).Ok? ==> Total(Split(fee, lines).value) == if lines == [] then 0 else fee
    ensures Split(fee, lines).Ok? ==>
      forall i :: 0 <= i < |lines| && lines[i].quantityReceived <= 0 ==> Split(fee, lines).value[i] == 0
  {
    NothingToWeigh(lines);
    if fee == 0 || lines == [] {
      TotalIsZero(seq(|lines|, _ => 0));
    } else if Total(Weights(lines)) > 0 {
      var ws := Weights(lines);
      SharesSumToFee(fee, ws);
      forall i | 0 <= i < |lines| && lines[i].quantityReceived <= 0
        ensures Shares(fee, ws)[i] == 0
      {
        assert ws[i] == 0;
        NoExtraWithoutWeight(fee, ws, i);
      }
    }
  }

  lemma {:induction false} NoExtraWithoutWeight(fee: nat, ws: seq<nat>, i: nat)
    requires Total(ws) > 0 && i < |ws| && ws[i] == 0
    ensures ShareOf(fee, ws, i) == 0
  {
    hide Order, Floors, Leftover;
    ZeroWeightZeroRem(fee, ws, Total(ws));
    OrderFacts(fee, ws);
    ChosenFacts(fee, ws);
  }

  /** Every share is the floor of its exact quota or one kobo more, and never the one more without a remainder. */
  lemma {:induction false} QuotaRule(fee: nat, ws: seq<nat>, i: nat)
    requires Total(ws) > 0 && i < |ws|
    ensures fee * ws[i] / Total(ws) <= ShareOf(fee, ws, i) <= fee * ws[i] / Total(ws) + 1
    ensures fee * ws[i] % Total(ws) == 0 ==> ShareOf(fee, ws, i) == fee * ws[i] / Total(ws)
  {
    hide Chosen;
    if i in Chosen(fee, ws) {
      ExtraNeedsRemainder(fee, ws, i);
    }
  }

  /** A kobo left over goes to the larger remainder, and of equal ones to the earlier line. */
  lemma {:induction false} ExtraGoesToTheLarger(fee: nat, ws: seq<nat>, i: nat, j: nat)
    requires Total(ws) > 0 && i < |ws| && j < |ws| && i in Chosen(fee, ws) && j !in Chosen(fee, ws)
    ensures var r := Rems(fee, ws, Total(ws)); r[i] > r[j] || (r[i] == r[j] && i < j)
  {
    hide Chosen, Order, Rems, Leftover;
    ChosenFacts(fee, ws);
    OrderFacts(fee, ws);
    ExtraNeedsRemainder(fee, ws, i);
    ZeroWeightZeroRem(fee, ws, Total(ws));
    var order, left := Order(fee, ws), Leftover(fee, ws);
    var k :| 0 <= k < left && order[k] == i;
    if j in order {
      var l :| 0 <= l < |order| && order[l] == j;
      assert Ahead(Rems(fee, ws, Total(ws)), order[k], order[l]);
    }
  }

  // -- The split, said of the lines -------------------------------------------

  predicate SomethingOfValue(lines: seq<FeeLine>) {
    exists i :: 0 <= i < |lines| && lines[i].quantityReceived > 0 && lines[i].totalCost > 0
  }

  /** What a line weighs: what it cost, or what arrived of it when all that arrived cost nothing; nothing when nothing arrived. */
  function Weighs(lines: seq<FeeLine>, i: nat): nat
    requires i < |lines|
  {
    if lines[i].quantityReceived <= 0 then 0 else if SomethingOfValue(lines) then lines[i].totalCost else lines[i].quantityReceived
  }

  function WeighInAll(lines: seq<FeeLine>, n: nat): nat
    requires n <= |lines|
  {
    if n == 0 then 0 else WeighInAll(lines, n - 1) + Weighs(lines, n - 1)
  }

  lemma {:induction false} WeightsAre(lines: seq<FeeLine>)
    ensures forall i :: 0 <= i < |lines| ==> Weights(lines)[i] == Weighs(lines, i)
    ensures Total(Weights(lines)) == WeighInAll(lines, |lines|)
  {
    if SomethingOfValue(lines) {
      var i :| 0 <= i < |lines| && lines[i].quantityReceived > 0 && lines[i].totalCost > 0;
      assert ByValue(lines)[i] > 0;
    }
    WeightsUpTo(lines, |lines|);
    assert Weights(lines)[..|lines|] == Weights(lines);
  }

  lemma {:induction false} WeightsUpTo(lines: seq<FeeLine>, n: nat)
    requires n <= |lines| && forall i :: 0 <= i < |lines| ==> Weights(lines)[i] == Weighs(lines, i)
    ensures Total(Weights(lines)[..n]) == WeighInAll(lines, n)
  {
    hide Weights, Weighs;
    if n > 0 {
      WeightsUpTo(lines, n - 1);
      assert Weights(lines)[..n] == Weights(lines)[..n - 1] + [Weights(lines)[n - 1]];
      TotalSnoc(Weights(lines)[..n - 1], Weights(lines)[n - 1]);
    }
  }

  function ExactKobo(fee: nat, lines: seq<FeeLine>, i: nat): nat
    requires i < |lines| && WeighInAll(lines, |lines|) > 0
  {
    fee * Weighs(lines, i) / WeighInAll(lines, |lines|)
  }

  function PartKobo(fee: nat, lines: seq<FeeLine>, i: nat): nat
    requires i < |lines| && WeighInAll(lines, |lines|) > 0
  {
    fee * Weighs(lines, i) % WeighInAll(lines, |lines|)
  }

  /**
   * The rule the shares follow, which with their sum leaves no other split: each
   * line has the whole kobo of its part of the fee, or one more, and one that has
   * the one more has a larger part of a kobo over than any that has not, or as
   * large a part on an earlier line.
   */
  lemma {:induction false} SplitByLargestRemainder(fee: nat, lines: seq<FeeLine>, i: nat, j: nat)
    requires fee > 0 && lines != [] && Split(fee, lines).Ok? && i < |lines| && j < |lines|
    ensures |Split(fee, lines).value| == |lines| && WeighInAll(lines, |lines|) > 0
    ensures var shares := Split(fee, lines).value;
      && (shares[i] == ExactKobo(fee, lines, i) || shares[i] == ExactKobo(fee, lines, i) + 1)
      && (shares[i] == ExactKobo(fee, lines, i) + 1 && shares[j] == ExactKobo(fee, lines, j) ==>
            PartKobo(fee, lines, i) > PartKobo(fee, lines, j) || (PartKobo(fee, lines, i) == PartKobo(fee, lines, j) && i < j))
  {
    hide Chosen, Weights, Weighs, WeighInAll, Total;
    WeightsAre(lines);
    var ws := Weights(lines);
    assert Split(fee, lines).value == Shares(fee, ws);
    if i in Chosen(fee, ws) && j !in Chosen(fee, ws) {
      ExtraGoesToTheLarger(fee, ws, i, j);
    }
  }

  // -- The loop ---------------------------------------------------------------

  /** Hands the kobo left over out, one each down the order. */
  method HandOut(floors: seq<nat>, order: seq<nat>, leftover: nat) returns (shares: seq<nat>)
    requires InRange(order, |floors|) && Distinct(order) && leftover <= |order|
    ensures |shares| == |floors|
    ensures forall i: nat :: i < |shares| ==> shares[i] == floors[i] + if i in order[..leftover] then 1 else 0
  {
    shares := floors;
    var left := leftover;
    var k := 0;
    while k < |order|
      invariant 0 <= k <= |order| && |shares| == |floors|
      invariant left == leftover - k && left >= 0
      invariant forall i: nat :: i < |shares| ==> shares[i] == floors[i] + if i in order[..k] then 1 else 0
    {
      if left == 0 {
        break;
      }
      assert order[..k + 1] == order[..k] + [order[k]];
      assert order[k] !in order[..k];
      shares := shares[order[k] := shares[order[k]] + 1];
      left := left - 1;
      k := k + 1;
    }
  }

  /** `splitDeliveryFee`: floors first, then the kobo left over. */
  method SplitDeliveryFee(fee: int, lines: seq<FeeLine>) returns (r: Result<seq<nat>, ()>)
    ensures r == Split(fee, lines)
  {
    hide Order, Floors, Rems, Weights, Chosen, Leftover;
    if fee <= 0 || lines == [] {
      return Ok(seq(|lines|, _ => 0));
    }
    var weights := Weights(lines);
    var total := Total(weights);
    if total == 0 {
      return Err(());
    }
    ChosenFacts(fee, weights);
    OrderFacts(fee, weights);
    var shares := HandOut(Floors(fee, weights, total), Order(fee, weights), Leftover(fee, weights));
    assert shares == Shares(fee, weights);
    r := Ok(shares);
  }
}
