/**
 * Rebuilding the cached balances from the ledger
 * (src/modules/inventory/stock-level.service.ts:267-345).
 */
module StockLevels {
  import opened Common
  import opened Ledger

  /** A balance found wrong: what it was and what it should have been. */
  datatype Drift = Drift(key: Key, was: int, now: int)

  /** `groupBy … _sum`: one row for every key that ever moved. */
  function Summed(ms: seq<Movement>): seq<Row>
    decreases |ms|
  {
    if ms == [] then []
    else
      var m := ms[|ms| - 1];
      Increment(Summed(ms[..|ms| - 1]), m.key, m.quantity)
  }

  lemma {:induction false} SummedFacts(ms: seq<Movement>)
    ensures Agrees(Summed(ms), ms)
    ensures forall k: Key :: HasRow(Summed(ms), k) <==> HasMove(ms, k)
    decreases |ms|
  {
    if ms != [] {
      var n := |ms| - 1;
      var before, m := ms[..n], ms[n];
      assert ms == before + [m];
      SummedFacts(before);
      IncrementRows(Summed(before), m.key, m.quantity);
      forall s: Scope
        ensures RowSum(Summed(ms), s) == MoveSum(ms, s)
      {
        IncrementSum(Summed(before), m.key, m.quantity, s);
        MoveSumConcat(before, [m], s);
      }
      forall k: Key
        ensures HasRow(Summed(ms), k) <==> HasMove(ms, k)
      {
        HasMoveConcat(before, [m], k);
        assert HasMove([m], k) <==> [m][0].key == k;
      }
    }
  }

  /** The sum a key has in the truth, zero when it has none. */
  function Expected(truth: seq<Row>, k: Key): int {
    if truth == [] then 0 else if truth[0].key == k then truth[0].quantity else Expected(truth[1..], k)
  }

  function Without(truth: seq<Row>, k: Key): seq<Row> {
    if truth == [] then []
    else if truth[0].key == k then Without(truth[1..], k)
    else [truth[0]] + Without(truth[1..], k)
  }

  /** Whatever the ledger knows about and the cache does not. */
  function Missing(truth: seq<Row>): seq<Drift> {
    if truth == [] then [] else [Drift(truth[0].key, 0, truth[0].quantity)] + Missing(truth[1..])
  }

  function DriftOf(cached: seq<Row>, truth: seq<Row>): seq<Drift>
    decreases cached
  {
    if cached == [] then Missing(truth)
    else
      var row := cached[0];
      var expected := Expected(truth, row.key);
      (if expected != row.quantity then [Drift(row.key, row.quantity, expected)] else [])
      + DriftOf(cached[1..], Without(truth, row.key))
  }

  datatype Rebuilt = Rebuilt(books: Books, drifted: seq<Drift>)

  /** `rebuild`: replaces every balance when any has drifted, and says which had. */
  function Rebuild(b: Books): Rebuilt {
    var drifted := DriftOf(b.balances, Summed(b.movements));
    Rebuilt(if drifted == [] then b else b.(balances := Summed(b.movements)), drifted)
  }

  lemma {:induction false} WithoutFacts(truth: seq<Row>, k: Key)
    requires UniqueKeys(truth)
    ensures UniqueKeys(Without(truth, k))
    ensures forall k' :: HasRow(Without(truth, k), k') <==> k' != k && HasRow(truth, k')
  {
    if truth != [] {
      WithoutFacts(truth[1..], k);
      forall k'
        ensures HasRow(Without(truth, k), k') <==> k' != k && HasRow(truth, k')
      {
        HasRowCons(truth, k');
        if truth[0].key != k {
          HasRowCons([truth[0]] + Without(truth[1..], k), k');
          assert ([truth[0]] + Without(truth[1..], k))[1..] == Without(truth[1..], k);
        }
      }
      forall i | 0 <= i < |Without(truth[1..], k)|
        ensures Without(truth[1..], k)[i].key != truth[0].key
      {
        assert HasRow(Without(truth[1..], k), Without(truth[1..], k)[i].key);
        var j :| 0 <= j < |truth[1..]| && truth[1..][j].key == Without(truth[1..], k)[i].key;
        assert truth[j + 1].key != truth[0].key;
      }
    }
  }

  lemma {:induction false} HasRowCons(rows: seq<Row>, k: Key)
    requires rows != []
    ensures HasRow(rows, k) <==> rows[0].key == k || HasRow(rows[1..], k)
  {
    if HasRow(rows, k) && rows[0].key != k {
      var i :| 0 <= i < |rows| && rows[i].key == k;
      assert rows[1..][i - 1].key == k;
    }
    if HasRow(rows[1..], k) {
      var i :| 0 <= i < |rows[1..]| && rows[1..][i].key == k;
      assert rows[i + 1].key == k;
    }
  }

  lemma {:induction false} ExpectedIsSum(truth: seq<Row>, k: Key)
    requires UniqueKeys(truth)
    ensures Expected(truth, k) == RowSum(truth, AtKey(k))
  {
    if truth != [] {
      if truth[0].key == k {
        NoRowNoSum(truth[1..], k);
      } else {
        ExpectedIsSum(truth[1..], k);
      }
    }
  }

  lemma {:induction false} WithoutSum(truth: seq<Row>, k: Key, s: Scope)
    requires UniqueKeys(truth)
    ensures RowSum(truth, s) == RowSum(Without(truth, k), s) + (if Covers(s, k) then Expected(truth, k) else 0)
  {
    if truth != [] {
      WithoutSum(truth[1..], k, s);
      if truth[0].key == k {
        NoRowNoSum(truth[1..], k);
        ExpectedIsSum(truth[1..], k);
      } else {
        assert ([truth[0]] + Without(truth[1..], k))[1..] == Without(truth[1..], k);
      }
    }
  }

  lemma {:induction false} WithoutExpected(truth: seq<Row>, k: Key, other: Key)
    requires other != k
    ensures Expected(Without(truth, k), other) == Expected(truth, other)
  {
    if truth != [] {
      WithoutExpected(truth[1..], k, other);
      assert truth[0].key != k ==> ([truth[0]] + Without(truth[1..], k))[1..] == Without(truth[1..], k);
    }
  }

  /** An empty report means the cache answers every question as the ledger does, whatever state it was in. */
  lemma {:induction false} NoDriftMeansAgreement(cached: seq<Row>, truth: seq<Row>, s: Scope)
    requires UniqueKeys(truth) && DriftOf(cached, truth) == []
    ensures RowSum(cached, s) == RowSum(truth, s)
    decreases cached
  {
    if cached == [] {
      assert truth == [];
    } else {
      var row := cached[0];
      WithoutFacts(truth, row.key);
      assert DriftOf(cached[1..], Without(truth, row.key)) == [];
      assert Expected(truth, row.key) == row.quantity;
      NoDriftMeansAgreement(cached[1..], Without(truth, row.key), s);
      WithoutSum(truth, row.key, s);
    }
  }

  lemma {:induction false} UniqueRest(rows: seq<Row>)
    requires UniqueKeys(rows) && rows != []
    ensures UniqueKeys(rows[1..])
  {
  }

  lemma {:induction false} QuantitiesOfRest(cached: seq<Row>, truth: seq<Row>)
    requires UniqueKeys(truth) && UniqueKeys(cached) && cached != []
    ensures (forall i :: 0 <= i < |cached| ==> cached[i].quantity == Expected(truth, cached[i].key))
      <==> (cached[0].quantity == Expected(truth, cached[0].key)
            && forall i :: 0 <= i < |cached[1..]| ==>
                 cached[1..][i].quantity == Expected(Without(truth, cached[0].key), cached[1..][i].key))
  {
    hide Expected, Without;
    var row, rest := cached[0], cached[1..];
    forall i | 0 <= i < |rest|
      ensures Expected(Without(truth, row.key), rest[i].key) == Expected(truth, rest[i].key)
    {
      assert rest[i] == cached[i + 1];
      WithoutExpected(truth, row.key, rest[i].key);
    }
    assert forall i :: 0 < i < |cached| ==> rest[i - 1] == cached[i];
  }

  lemma {:induction false} RowsOfRest(cached: seq<Row>, truth: seq<Row>)
    requires UniqueKeys(truth) && UniqueKeys(cached) && cached != []
    ensures (forall k: Key :: HasRow(truth, k) ==> HasRow(cached, k))
      <==> (forall k: Key :: HasRow(Without(truth, cached[0].key), k) ==> HasRow(cached[1..], k))
  {
    hide HasRow, Without, UniqueKeys;
    WithoutFacts(truth, cached[0].key);
    forall k: Key
      ensures (HasRow(truth, k) ==> HasRow(cached, k))
        <==> (HasRow(Without(truth, cached[0].key), k) ==> HasRow(cached[1..], k))
    {
      HasRowCons(cached, k);
    }
  }

  /** With one row a key, the report is empty exactly when every row is right and no moved key lacks one. */
  lemma {:induction false} DriftIsExact(cached: seq<Row>, truth: seq<Row>)
    requires UniqueKeys(truth) && UniqueKeys(cached)
    ensures DriftOf(cached, truth) == [] <==>
      && (forall i :: 0 <= i < |cached| ==> cached[i].quantity == Expected(truth, cached[i].key))
      && (forall k: Key :: HasRow(truth, k) ==> HasRow(cached, k))
    decreases cached
  {
    if cached == [] {
      if truth != [] {
        assert HasRow(truth, truth[0].key);
        assert !HasRow(cached, truth[0].key);
      }
    } else {
      hide Expected, HasRow, UniqueKeys, Without;
      var row, rest := cached[0], cached[1..];
      var truth' := Without(truth, row.key);
      WithoutFacts(truth, row.key);
      UniqueRest(cached);
      DriftIsExact(rest, truth');
      QuantitiesOfRest(cached, truth);
      RowsOfRest(cached, truth);
    }
  }

  /** Whatever the cache had become, after a rebuild it answers every question as the ledger does. */
  lemma {:induction false} RebuildRestoresAgreement(b: Books, s: Scope)
    ensures RowSum(Rebuild(b).books.balances, s) == MoveSum(b.movements, s)
    ensures Rebuild(b).books.movements == b.movements
  {
    SummedFacts(b.movements);
    if Rebuild(b).drifted == [] {
      NoDriftMeansAgreement(b.balances, Summed(b.movements), s);
    }
  }

  /** Running it again reports nothing and changes nothing. */
  lemma {:induction false} RebuildTwiceIsOnce(b: Books)
    ensures Rebuild(Rebuild(b).books).drifted == []
    ensures Rebuild(Rebuild(b).books).books == Rebuild(b).books
  {
    SummedFacts(b.movements);
    var truth := Summed(b.movements);
    if Rebuild(b).drifted != [] {
      forall i | 0 <= i < |truth|
        ensures truth[i].quantity == Expected(truth, truth[i].key)
      {
        ExpectedIsSum(truth, truth[i].key);
        RowIsSum(truth, i);
      }
      DriftIsExact(truth, truth);
    }
  }

  /** On a sound ledger the report is empty. */
  lemma {:induction false} RebuildFindsNothingOnSound(b: Books)
    requires Sound(b)
    ensures Rebuild(b).drifted == [] && Rebuild(b).books == b
  {
    SummedFacts(b.movements);
    var truth := Summed(b.movements);
    forall i | 0 <= i < |b.balances|
      ensures b.balances[i].quantity == Expected(truth, b.balances[i].key)
    {
      RowIsSum(b.balances, i);
      ExpectedIsSum(truth, b.balances[i].key);
    }
    DriftIsExact(b.balances, truth);
  }

  /** A cache with its one row a key, however wrong, is a sound ledger again afterwards. */
  lemma {:induction false} RebuildMakesSound(b: Books)
    requires UniqueKeys(b.balances)
    requires forall i :: 0 <= i < |b.movements| ==> b.movements[i].key.lot in b.lots
    requires Rebuild(b).drifted != []
    ensures Sound(Rebuild(b).books)
  {
    SummedFacts(b.movements);
  }
}
