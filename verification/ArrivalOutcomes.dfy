/**
 * What recording a delivery leaves, said of what was entered: its lines and lots,
 * its stock, its vendor's bill and what was paid at the door
 * (src/modules/inventory/receiving.service.ts:142-330).
 */
module ArrivalOutcomes {
  import opened Common
  import opened Ledger
  import opened Stock
  import opened Deliveries
  import opened DeliveryTheorems
  import opened DeliveryRuns
  import Fee = DeliveryFee
  import Payables
  import StockOutcomes

  // -- Which deliveries are taken ---------------------------------------------

  predicate LotsAreNew(b: Books, entries: seq<Entry>) {
    && (forall i :: 0 <= i < |entries| ==> entries[i].lot !in b.lots)
    && (forall i, j :: 0 <= i < j < |entries| ==> entries[i].lot != entries[j].lot)
  }

  predicate CanArrive(b: Books, e: Entry) {
    e.received > 0 && VariantAllowed(OptionsOf(b, e.product), e.option, false)
  }

  /** The balances a delivery's entries make: each its own quantity, of its own item, on its own lot. */
  function ArrivedAt(entries: seq<Entry>, location: Id, k: Key): int {
    if entries == [] then 0
    else
      (if k == Key(entries[0].product, entries[0].option, location, entries[0].lot) then entries[0].received else 0)
      + ArrivedAt(entries[1..], location, k)
  }

  lemma {:induction false} OneArrives(b: Books, inp: DeliveryInput, e: Entry, share: nat, k: Key)
    requires Sound(b)
    ensures var r := ReceiveOne(b, inp, e, share);
      && (r.Ok? <==> (e.lot !in b.lots && CanArrive(b, e)))
      && (r.Ok? ==>
            && Sound(r.value)
            && r.value.lots == b.lots[e.lot := Lot(e.product, e.expiry, inp.receivedAt, e.received, e.paidFor, e.totalCost + share)]
            && r.value.options == b.options
            && RowSum(r.value.balances, AtKey(k))
                 == RowSum(b.balances, AtKey(k)) + (if k == Key(e.product, e.option, inp.location, e.lot) then e.received else 0)
            && r.value.movements == b.movements
                 + [Movement(Key(e.product, e.option, inp.location, e.lot), e.received, Ledger.Receipt, Some(Delivery(inp.id)), false, "")])
  {
    hide Sound, VariantAllowed;
    if e.lot !in b.lots {
      var b1 := b.(lots := b.lots[e.lot := EntryLot(e, inp.receivedAt, share)]);
      FiguresSound(b, b1.lots);
      var key := Key(e.product, e.option, inp.location, e.lot);
      StockOutcomes.InboundExactly(b1, key, e.received, Ledger.Receipt, Some(Delivery(inp.id)), k);
      if Inbound(b1, key, e.received, Ledger.Receipt, Some(Delivery(inp.id))).Ok? {
        InboundKeeps(b1, key, e.received, Ledger.Receipt, Some(Delivery(inp.id)));
      }
    }
  }

  predicate AllCanArrive(b: Books, entries: seq<Entry>) {
    forall i :: 0 <= i < |entries| ==> CanArrive(b, entries[i])
  }

  lemma {:induction false} AfterTheFirst(b: Books, b1: Books, entries: seq<Entry>)
    requires entries != [] && b1.options == b.options && b1.lots.Keys == b.lots.Keys + {entries[0].lot}
    ensures LotsAreNew(b, entries) <==> entries[0].lot !in b.lots && LotsAreNew(b1, entries[1..])
    ensures AllCanArrive(b, entries) <==> CanArrive(b, entries[0]) && AllCanArrive(b1, entries[1..])
  {
    hide VariantAllowed;
    assert entries == [entries[0]] + entries[1..];
    forall i | 0 <= i < |entries[1..]|
      ensures entries[1..][i] == entries[i + 1]
      ensures CanArrive(b1, entries[1..][i]) <==> CanArrive(b, entries[i + 1])
    {
    }
    if LotsAreNew(b, entries) {
      forall i | 0 <= i < |entries[1..]|
        ensures entries[1..][i].lot !in b1.lots
      {
        assert entries[0].lot != entries[i + 1].lot;
      }
    }
    if LotsAreNew(b1, entries[1..]) {
      forall i | 0 < i < |entries|
        ensures entries[i].lot !in b1.lots
      {
        assert entries[1..][i - 1] == entries[i];
      }
    }
  }

  /** All the entries arrive exactly when each can and each has a lot of its own. */
  lemma {:induction false} AllArrive(b: Books, inp: DeliveryInput, entries: seq<Entry>, shares: seq<nat>, lines: seq<Line>, k: Key)
    requires |shares| == |entries| && Sound(b)
    ensures var r := ReceiveAll(b, inp, entries, shares, lines);
      && (r.Ok? <==> (LotsAreNew(b, entries) && AllCanArrive(b, entries)))
      && (r.Ok? ==> RowSum(r.value.books.balances, AtKey(k)) == RowSum(b.balances, AtKey(k)) + ArrivedAt(entries, inp.location, k))
    decreases entries
  {
    hide Sound, ReceiveOne, LotsAreNew, AllCanArrive, CanArrive;
    if entries == [] {
      NothingArrives(b, entries);
    } else {
      OneArrives(b, inp, entries[0], shares[0], k);
      var one := ReceiveOne(b, inp, entries[0], shares[0]);
      if one.Ok? {
        AfterTheFirst(b, one.value, entries);
        AllArrive(one.value, inp, entries[1..], shares[1..], lines + [EntryLine(entries[0], shares[0])], k);
      } else {
        FirstCannot(b, entries);
      }
    }
  }

  lemma {:induction false} NothingArrives(b: Books, entries: seq<Entry>)
    requires entries == []
    ensures LotsAreNew(b, entries) && AllCanArrive(b, entries)
  {
  }

  lemma {:induction false} FirstCannot(b: Books, entries: seq<Entry>)
    requires entries != [] && !(entries[0].lot !in b.lots && CanArrive(b, entries[0]))
    ensures !(LotsAreNew(b, entries) && AllCanArrive(b, entries))
  {
  }

  /** Each entry's lot, as its line and its share of the fee make it. */
  lemma {:induction false} LotsArrive(b: Books, inp: DeliveryInput, entries: seq<Entry>, shares: seq<nat>, lines: seq<Line>, i: nat)
    requires |shares| == |entries| && Sound(b) && ReceiveAll(b, inp, entries, shares, lines).Ok? && i < |entries|
    ensures var e, lots := entries[i], ReceiveAll(b, inp, entries, shares, lines).value.books.lots;
      e.lot in lots
      && lots[e.lot] == Lot(e.product, e.expiry, inp.receivedAt, e.received, e.paidFor, e.totalCost + shares[i])
    decreases entries
  {
    hide Sound, ReceiveOne, LotsAreNew, AllCanArrive, CanArrive;
    OneArrives(b, inp, entries[0], shares[0], Key(0, None, 0, 0));
    var one := ReceiveOne(b, inp, entries[0], shares[0]).value;
    var lines1 := lines + [EntryLine(entries[0], shares[0])];
    if i == 0 {
      OtherLotsStay(one, inp, entries[1..], shares[1..], lines1, entries[0].lot);
    } else {
      LotsArrive(one, inp, entries[1..], shares[1..], lines1, i - 1);
    }
  }

  lemma {:induction false} OtherLotsStay(b: Books, inp: DeliveryInput, entries: seq<Entry>, shares: seq<nat>, lines: seq<Line>, lot: Id)
    requires |shares| == |entries| && Sound(b) && ReceiveAll(b, inp, entries, shares, lines).Ok? && lot in b.lots
    ensures lot in ReceiveAll(b, inp, entries, shares, lines).value.books.lots
    ensures ReceiveAll(b, inp, entries, shares, lines).value.books.lots[lot] == b.lots[lot]
    decreases entries
  {
    hide Sound, ReceiveOne, CanArrive;
    if entries != [] {
      OneArrives(b, inp, entries[0], shares[0], Key(0, None, 0, 0));
      OtherLotsStay(ReceiveOne(b, inp, entries[0], shares[0]).value, inp, entries[1..], shares[1..],
                    lines + [EntryLine(entries[0], shares[0])], lot);
    }
  }

  // -- The whole delivery -----------------------------------------------------

  function ChargedInAll(entries: seq<Entry>): nat {
    if entries == [] then 0 else entries[0].totalCost + ChargedInAll(entries[1..])
  }

  lemma {:induction false} ChargedIsValue(entries: seq<Entry>)
    ensures EntryValue(entries) == ChargedInAll(entries)
  {
    if entries != [] {
      ChargedIsValue(entries[1..]);
    }
  }

  /** What is asked for a delivery: what was said to be due, or what its lines come to. */
  function AskedFor(inp: DeliveryInput): nat {
    if inp.amountDue.Some? then inp.amountDue.value else ChargedInAll(inp.entries)
  }

  /**
   * A delivery is taken exactly when it is new, no line is entered twice, what is
   * paid at the door is no more than is asked, the fee has lines to join, and every
   * line brings something its product allows on a lot of its own.
   */
  lemma {:induction false} ReceivedExactly(s: Shop, inp: DeliveryInput)
    requires Sound(s.books)
    ensures Receive(s, inp).Ok? <==>
      && inp.id !in s.receipts
      && (forall i, j :: 0 <= i < j < |inp.entries| ==> inp.entries[i].id != inp.entries[j].id)
      && (inp.payment.Some? ==> inp.payment.value <= AskedFor(inp))
      && Fee.Split(inp.fee.amount, EntryFeeLines(inp.entries)).Ok?
      && LotsAreNew(s.books, inp.entries)
      && (forall i :: 0 <= i < |inp.entries| ==> CanArrive(s.books, inp.entries[i]))
  {
    hide Sound, ReceiveAll, Fee.Split, LotsAreNew, CanArrive, EntryFeeLines;
    ChargedIsValue(inp.entries);
    var split := Fee.Split(inp.fee.amount, EntryFeeLines(inp.entries));
    if split.Ok? {
      SplitLength(inp.fee.amount, EntryFeeLines(inp.entries));
      AllArrive(s.books, inp, inp.entries, split.value, [], Key(0, None, 0, 0));
    }
  }

  /**
   * A delivery taken leaves a line for each entry, as it was entered; each line's
   * lot, of the entry's product and figures, going off when it says and dated the
   * delivery's day, at its value and its share of the fee; and its stock at the
   * delivery's location. No other lot and no other balance moves.
   */
  lemma {:induction false} ReceivedAsEntered(s: Shop, inp: DeliveryInput, i: nat, k: Key, lot: Id)
    requires ShopOk(s) && Receive(s, inp).Ok?
    ensures var s1 := Receive(s, inp).value;
      && inp.id in s1.receipts
      && var r := s1.receipts[inp.id];
         && r.location == inp.location && r.receivedAt == inp.receivedAt && r.fee == inp.fee
         && |r.lines| == |inp.entries|
         && (i < |r.lines| ==>
               var e, line := inp.entries[i], r.lines[i];
               && line == Line(e.id, e.product, e.option, e.lot, e.received, e.paidFor, e.totalCost, line.deliveryCost)
               && e.lot in s1.books.lots
               && s1.books.lots[e.lot] == Lot(e.product, e.expiry, inp.receivedAt, e.received, e.paidFor, e.totalCost + line.deliveryCost))
         && RowSum(s1.books.balances, AtKey(k)) == RowSum(s.books.balances, AtKey(k)) + ArrivedAt(inp.entries, inp.location, k)
         && (lot in s.books.lots ==> lot in s1.books.lots && s1.books.lots[lot] == s.books.lots[lot])
         && (forall d :: d != inp.id ==> (d in s1.receipts <==> d in s.receipts))
         && (forall d :: d != inp.id && d in s.receipts ==> s1.receipts[d] == s.receipts[d])
  {
    hide ShopOk, Sound, ReceiveAll, Fee.Split, EntryFeeLines, ReceiptOk;
    BooksSound(s);
    var split := Fee.Split(inp.fee.amount, EntryFeeLines(inp.entries)).value;
    SplitLength(inp.fee.amount, EntryFeeLines(inp.entries));
    NothingArrivedYet(s.books, inp.id);
    ReceiveAllKeeps(s.books, inp, inp.entries, split, []);
    AllArrive(s.books, inp, inp.entries, split, [], k);
    if i < |inp.entries| {
      LotsArrive(s.books, inp, inp.entries, split, [], i);
    }
    if lot in s.books.lots {
      OtherLotsStay(s.books, inp, inp.entries, split, [], lot);
    }
  }

  lemma {:induction false} BooksSound(s: Shop)
    requires ShopOk(s)
    ensures Sound(s.books)
  {
  }

  /**
   * And it leaves its vendor's bill, for what was said to be due or what the lines
   * come to, and what was paid at the door against it in full; no other bill, no
   * other payment and no rebate moves.
   */
  lemma {:induction false} BilledAsEntered(s: Shop, inp: DeliveryInput)
    requires Receive(s, inp).Ok?
    ensures var v, v1 := s.vendors, Receive(s, inp).value.vendors;
      && v1.bills == v.bills + [Payables.Bill(inp.supplier, AskedFor(inp), false)]
      && v1.payments == (if inp.payment.None? then v.payments
                         else v.payments + [Payables.Payment(|v.bills|, inp.payment.value, false)])
      && v1.rebates == v.rebates
      && inp.id in Receive(s, inp).value.receipts && Receive(s, inp).value.receipts[inp.id].bill == |v.bills|
  {
    hide ReceiveAll, Fee.Split, EntryFeeLines;
    ChargedIsValue(inp.entries);
  }
}
