/**
 * The stock ledger: an append-only list of movements, and a cached table of
 * balances that every movement must keep in step
 * (src/modules/inventory/stock.service.ts).
 */
module Ledger {
  import opened Common

  /** The grain stock is kept at. The option is `None` for a product without options. */
  datatype Key = Key(product: Id, option: Option<Id>, location: Id, lot: Id)

  datatype Kind = Receipt | Sale | ReturnIn | ReturnOut | Adjustment | TransferIn | TransferOut | Damage

  /** What caused a movement, when something did. */
  datatype Cause = Delivery(id: Id) | Count(id: Id) | SaleOf(id: Id)

  /** `forcedReason` is kept only when forced. */
  datatype Movement = Movement(
    key: Key, quantity: int, kind: Kind, reference: Option<Cause>, forced: bool, forcedReason: string)

  datatype Lot = Lot(
    product: Id, expiry: Option<Time>, receivedAt: Time,
    quantityReceived: int, quantityPaidFor: int, totalCost: int)

  /** One row of the balance table. */
  datatype Row = Row(key: Key, quantity: int)

  /** One option of a product. */
  datatype KnownVariant = KnownVariant(id: Id, isActive: bool)

  datatype Books = Books(
    movements: seq<Movement>,
    balances: seq<Row>,
    lots: map<Id, Lot>,
    options: map<Id, seq<KnownVariant>>)

  const EMPTY := Books([], [], map[], map[])

  datatype Refusal =
    | NotPositive
    | OptionRefused
    | NoSuchLot
    | NotEnough(shortfall: nat)
    | MayNotForce
    | NoForcedReason
    | SameLocation
    | IdTaken
    | NothingCounted
    | NotOpen
    | CountedBeforeOptions
    | NoSuchProduct
    | NotCountable

  // -- Which stock a question is about ----------------------------------------

  /** A question a sum can be asked: everything, one balance, one item at one location, one lot there. */
  datatype Scope =
    | Everything
    | AtKey(key: Key)
    | OfItem(product: Id, option: Option<Id>, location: Id)
    | OfProduct(product: Id, location: Id)
    | OfLot(lot: Id)

  predicate Covers(s: Scope, k: Key) {
    match s
    case Everything => true
    case AtKey(key) => k == key
    case OfItem(product, option, location) => k.product == product && k.option == option && k.location == location
    case OfProduct(product, location) => k.product == product && k.location == location
    case OfLot(lot) => k.lot == lot
  }

  function RowSum(rows: seq<Row>, s: Scope): int {
    if rows == [] then 0
    else (if Covers(s, rows[0].key) then rows[0].quantity else 0) + RowSum(rows[1..], s)
  }

  function MoveSum(ms: seq<Movement>, s: Scope): int {
    if ms == [] then 0
    else (if Covers(s, ms[0].key) then ms[0].quantity else 0) + MoveSum(ms[1..], s)
  }

  lemma {:induction false} RowSumConcat(a: seq<Row>, b: seq<Row>, s: Scope)
    ensures RowSum(a + b, s) == RowSum(a, s) + RowSum(b, s)
  {
    if a == [] {
      assert a + b == b;
    } else {
      assert (a + b)[1..] == a[1..] + b;
      RowSumConcat(a[1..], b, s);
    }
  }

  lemma {:induction false} MoveSumConcat(a: seq<Movement>, b: seq<Movement>, s: Scope)
    ensures MoveSum(a + b, s) == MoveSum(a, s) + MoveSum(b, s)
  {
    if a == [] {
      assert a + b == b;
    } else {
      assert (a + b)[1..] == a[1..] + b;
      MoveSumConcat(a[1..], b, s);
    }
  }

  // -- The balance table ------------------------------------------------------

  predicate HasRow(rows: seq<Row>, k: Key) {
    exists i :: 0 <= i < |rows| && rows[i].key == k
  }

  /** The two partial unique indexes of the balance table. */
  predicate UniqueKeys(rows: seq<Row>) {
    forall i, j :: 0 <= i < j < |rows| ==> rows[i].key != rows[j].key
  }

  /** `updateMany … increment`: every row of the key moves. */
  function Bumped(rows: seq<Row>, k: Key, delta: int): (r: seq<Row>)
    ensures |r| == |rows|
    ensures forall i :: 0 <= i < |rows| ==>
      r[i] == if rows[i].key == k then Row(k, rows[i].quantity + delta) else rows[i]
  {
    if rows == [] then []
    else [if rows[0].key == k then Row(k, rows[0].quantity + delta) else rows[0]] + Bumped(rows[1..], k, delta)
  }

  /** `applyToBalance`: update the row, or create it when there is none. */
  function Increment(rows: seq<Row>, k: Key, delta: int): seq<Row> {
    if HasRow(rows, k) then Bumped(rows, k, delta) else rows + [Row(k, delta)]
  }

  lemma {:induction false} BumpedRest(rows: seq<Row>, k: Key, delta: int)
    requires rows != []
    ensures Bumped(rows, k, delta) == [Bumped(rows, k, delta)[0]] + Bumped(rows[1..], k, delta)
  {
  }

  lemma {:induction false} BumpedSum(rows: seq<Row>, k: Key, delta: int, s: Scope)
    requires UniqueKeys(rows) && HasRow(rows, k)
    ensures RowSum(Bumped(rows, k, delta), s) == RowSum(rows, s) + (if Covers(s, k) then delta else 0)
  {
    hide Covers;
    if rows[0].key == k {
      BumpedElsewhere(rows[1..], k, delta);
      BumpedRest(rows, k, delta);
    } else {
      var i :| 0 <= i < |rows| && rows[i].key == k;
      assert rows[1..][i - 1].key == k;
      BumpedSum(rows[1..], k, delta, s);
      BumpedRest(rows, k, delta);
    }
  }

  lemma {:induction false} BumpedElsewhere(rows: seq<Row>, k: Key, delta: int)
    requires !HasRow(rows, k)
    ensures Bumped(rows, k, delta) == rows
  {
  }

  lemma {:induction false} IncrementSum(rows: seq<Row>, k: Key, delta: int, s: Scope)
    requires UniqueKeys(rows)
    ensures RowSum(Increment(rows, k, delta), s) == RowSum(rows, s) + (if Covers(s, k) then delta else 0)
  {
    if HasRow(rows, k) {
      BumpedSum(rows, k, delta, s);
    } else {
      RowSumConcat(rows, [Row(k, delta)], s);
    }
  }

  lemma {:induction false} IncrementRows(rows: seq<Row>, k: Key, delta: int)
    requires UniqueKeys(rows)
    ensures UniqueKeys(Increment(rows, k, delta))
    ensures HasRow(Increment(rows, k, delta), k)
    ensures forall k' :: HasRow(rows, k') ==> HasRow(Increment(rows, k, delta), k')
    ensures forall k' :: HasRow(Increment(rows, k, delta), k') ==> k' == k || HasRow(rows, k')
  {
    var r := Increment(rows, k, delta);
    if HasRow(rows, k) {
      forall k' | HasRow(rows, k')
        ensures HasRow(r, k')
      {
        var i :| 0 <= i < |rows| && rows[i].key == k';
        assert r[i].key == k';
      }
    } else {
      assert r[|rows|].key == k;
      forall k' | HasRow(rows, k')
        ensures HasRow(r, k')
      {
        var i :| 0 <= i < |rows| && rows[i].key == k';
        assert r[i].key == k';
      }
    }
  }

  lemma {:induction false} NoRowNoSum(rows: seq<Row>, k: Key)
    requires !HasRow(rows, k)
    ensures RowSum(rows, AtKey(k)) == 0
  {
    if rows != [] {
      assert rows[0].key != k;
      forall i | 0 <= i < |rows[1..]|
        ensures rows[1..][i].key != k
      {
        assert rows[1..][i] == rows[i + 1];
      }
      NoRowNoSum(rows[1..], k);
    }
  }

  /** With one row a key, a balance is that row's quantity. */
  lemma {:induction false} RowIsSum(rows: seq<Row>, i: nat)
    requires UniqueKeys(rows) && i < |rows|
    ensures RowSum(rows, AtKey(rows[i].key)) == rows[i].quantity
  {
    if i == 0 {
      NoRowNoSum(rows[1..], rows[0].key);
    } else {
      RowIsSum(rows[1..], i - 1);
    }
  }

  // -- Writing a movement -----------------------------------------------------

  /** A movement, and its balance moved with it. */
  function Post(b: Books, m: Movement): Books {
    b.(movements := b.movements + [m], balances := Increment(b.balances, m.key, m.quantity))
  }

  function PostAll(b: Books, ms: seq<Movement>): Books
    decreases ms
  {
    if ms == [] then b else PostAll(Post(b, ms[0]), ms[1..])
  }

  lemma {:induction false} PostAllConcat(b: Books, x: seq<Movement>, y: seq<Movement>)
    ensures PostAll(b, x + y) == PostAll(PostAll(b, x), y)
    decreases x
  {
    if x == [] {
      assert x + y == y;
    } else {
      assert (x + y)[1..] == x[1..] + y;
      PostAllConcat(Post(b, x[0]), x[1..], y);
    }
  }

  lemma {:induction false} PostTwo(b: Books, x: Movement, y: Movement)
    ensures PostAll(b, [x, y]) == Post(Post(b, x), y)
  {
    assert [x, y][1..] == [y] && [y][1..] == [];
    assert PostAll(Post(b, x), [y]) == Post(Post(b, x), y);
  }

  lemma {:induction false} PostAllWrites(b: Books, ms: seq<Movement>)
    requires UniqueKeys(b.balances)
    ensures PostAll(b, ms).movements == b.movements + ms
    ensures PostAll(b, ms).lots == b.lots && PostAll(b, ms).options == b.options
    ensures UniqueKeys(PostAll(b, ms).balances)
    decreases ms
  {
    if ms != [] {
      IncrementRows(b.balances, ms[0].key, ms[0].quantity);
      PostAllWrites(Post(b, ms[0]), ms[1..]);
      assert [ms[0]] + ms[1..] == ms;
    }
  }

  /** Whatever is asked, the balances move by exactly what was posted. */
  lemma {:induction false} PostAllSum(b: Books, ms: seq<Movement>, s: Scope)
    requires UniqueKeys(b.balances)
    ensures RowSum(PostAll(b, ms).balances, s) == RowSum(b.balances, s) + MoveSum(ms, s)
    decreases ms
  {
    if ms != [] {
      IncrementRows(b.balances, ms[0].key, ms[0].quantity);
      IncrementSum(b.balances, ms[0].key, ms[0].quantity, s);
      PostAllSum(Post(b, ms[0]), ms[1..], s);
    }
  }

  lemma {:induction false} PostAllRows(b: Books, ms: seq<Movement>, k: Key)
    requires UniqueKeys(b.balances)
    ensures HasRow(PostAll(b, ms).balances, k) <==> HasRow(b.balances, k) || HasMove(ms, k)
    decreases ms
  {
    if ms != [] {
      IncrementRows(b.balances, ms[0].key, ms[0].quantity);
      PostAllRows(Post(b, ms[0]), ms[1..], k);
      assert HasMove(ms, k) <==> ms[0].key == k || HasMove(ms[1..], k) by {
        if HasMove(ms, k) && ms[0].key != k {
          var i :| 0 <= i < |ms| && ms[i].key == k;
          assert ms[1..][i - 1].key == k;
        }
      }
    }
  }

  predicate HasMove(ms: seq<Movement>, k: Key) {
    exists i :: 0 <= i < |ms| && ms[i].key == k
  }

  // -- What every operation keeps ---------------------------------------------

  /** The cache and the ledger give the same answer to every question. */
  ghost predicate Agrees(rows: seq<Row>, ms: seq<Movement>) {
    && UniqueKeys(rows)
    && (forall s: Scope :: RowSum(rows, s) == MoveSum(ms, s))
  }

  /** Rows exist exactly where something has moved, and only on lots that exist. */
  ghost predicate Sound(b: Books) {
    && Agrees(b.balances, b.movements)
    && (forall k: Key :: HasRow(b.balances, k) <==> HasMove(b.movements, k))
    && (forall i :: 0 <= i < |b.movements| ==> b.movements[i].key.lot in b.lots)
  }

  /** A movement that accounts for a negative balance at `k`. */
  predicate Explains(m: Movement, k: Key) {
    && m.forced && !Blank(m.forcedReason)
    && m.key.product == k.product && m.key.location == k.location && m.key.lot == k.lot
  }

  ghost predicate Explained(ms: seq<Movement>, k: Key) {
    exists i :: 0 <= i < |ms| && Explains(ms[i], k)
  }

  /** Nothing is negative that somebody with the authority did not force, saying why. */
  ghost predicate Accounted(b: Books) {
    forall k: Key :: RowSum(b.balances, AtKey(k)) < 0 ==> Explained(b.movements, k)
  }

  /** Lots may be added, never changed. */
  predicate LotsKept(before: map<Id, Lot>, after: map<Id, Lot>) {
    forall lot :: lot in before ==> lot in after && after[lot] == before[lot]
  }

  /** None of these movements belongs to a delivery. */
  predicate NoDelivery(ms: seq<Movement>) {
    forall i :: 0 <= i < |ms| ==> ms[i].reference.None? || !ms[i].reference.value.Delivery?
  }

  /** Lot ids in `ms` all exist. */
  predicate OnLots(ms: seq<Movement>, lots: map<Id, Lot>) {
    forall i :: 0 <= i < |ms| ==> ms[i].key.lot in lots
  }

  lemma {:induction false} PostAllSound(b: Books, ms: seq<Movement>)
    requires Sound(b) && OnLots(ms, b.lots)
    ensures Sound(PostAll(b, ms))
  {
    var b' := PostAll(b, ms);
    PostAllWrites(b, ms);
    forall s: Scope
      ensures RowSum(b'.balances, s) == MoveSum(b'.movements, s)
    {
      PostAllSum(b, ms, s);
      MoveSumConcat(b.movements, ms, s);
    }
    forall k: Key
      ensures HasRow(b'.balances, k) <==> HasMove(b'.movements, k)
    {
      PostAllRows(b, ms, k);
      HasMoveConcat(b.movements, ms, k);
    }
  }

  lemma {:induction false} HasMoveConcat(x: seq<Movement>, y: seq<Movement>, k: Key)
    ensures HasMove(x + y, k) <==> HasMove(x, k) || HasMove(y, k)
  {
    var z := x + y;
    if HasMove(x, k) {
      var i :| 0 <= i < |x| && x[i].key == k;
      assert z[i].key == k;
    }
    if HasMove(y, k) {
      var i :| 0 <= i < |y| && y[i].key == k;
      assert z[|x| + i].key == k;
    }
  }

  lemma {:induction false} ExplainedLater(x: seq<Movement>, y: seq<Movement>, k: Key)
    requires Explained(x, k)
    ensures Explained(x + y, k)
  {
    var i :| 0 <= i < |x| && Explains(x[i], k);
    assert (x + y)[i] == x[i];
  }

  /** A run in which nobody forced anything has nothing negative. */
  lemma {:induction false} NothingForcedNothingNegative(b: Books, k: Key)
    requires Accounted(b)
    requires forall i :: 0 <= i < |b.movements| ==> !b.movements[i].forced
    ensures RowSum(b.balances, AtKey(k)) >= 0
  {
    assert RowSum(b.balances, AtKey(k)) < 0 ==> Explained(b.movements, k);
  }

  /** Units on hand of one item at one location, over all its lots. */
  function OnHand(b: Books, product: Id, option: Option<Id>, location: Id): int {
    RowSum(b.balances, OfItem(product, option, location))
  }

  // -- Options ----------------------------------------------------------------

  function OptionsOf(b: Books, product: Id): seq<KnownVariant> {
    if product in b.options then b.options[product] else []
  }

  /** `checkVariant`: whether this option may be named on a movement of the product. */
  predicate VariantAllowed(variants: seq<KnownVariant>, option: Option<Id>, allowRetired: bool) {
    if variants == [] then option.None?
    else
      && option.Some?
      && (exists i :: 0 <= i < |variants| && variants[i].id == option.value)
      && (allowRetired || ActiveFirst(variants, option.value))
  }

  /** The first option with this id is active (`find`). */
  predicate ActiveFirst(variants: seq<KnownVariant>, id: Id) {
    variants != [] && if variants[0].id == id then variants[0].isActive else ActiveFirst(variants[1..], id)
  }

  /** Only a receipt or a sale is refused for a retired option. */
  predicate AllowsRetired(kind: Kind) {
    kind != Receipt && kind != Sale
  }
}
