/**
 * What makes two request bodies the same one: key order does not, anything else
 * does (src/common/idempotency/idempotency.interceptor.ts:266-295).
 */
module RequestBody {
  import opened Common

  /** A body as it was sent: an object keeps the order its keys came in. `text` stands for a number, a string, true, false or null. */
  datatype Json = Leaf(text: Id) | List(items: seq<Json>) | Object(fields: seq<Field>)

  datatype Field = Field(key: string, value: Json)

  /** What the body says: an object is a table. */
  datatype Meaning = Plain(text: Id) | Listed(members: seq<Meaning>) | Table(entries: map<string, Meaning>)

  function Means(v: Json): Meaning {
    match v
    case Leaf(text) => Plain(text)
    case List(items) => Listed(MeansEach(items))
    case Object(fields) => Table(MeansFields(fields))
  }

  function MeansEach(items: seq<Json>): (r: seq<Meaning>)
    ensures |r| == |items|
    ensures forall i :: 0 <= i < |r| ==> r[i] == Means(items[i])
  {
    if items == [] then [] else [Means(items[0])] + MeansEach(items[1..])
  }

  function MeansFields(fields: seq<Field>): map<string, Meaning> {
    if fields == [] then map[] else MeansFields(fields[1..])[fields[0].key := Means(fields[0].value)]
  }

  predicate KeysApart(fields: seq<Field>) {
    forall i, j :: 0 <= i < j < |fields| ==> fields[i].key != fields[j].key
  }

  /** No object has a key twice. */
  predicate WellFormed(v: Json) {
    match v
    case Leaf(_) => true
    case List(items) => forall i :: 0 <= i < |items| ==> WellFormed(items[i])
    case Object(fields) => KeysApart(fields) && forall i :: 0 <= i < |fields| ==> WellFormed(fields[i].value)
  }

  // -- Sorting ----------------------------------------------------------------

  /** The order of `sort`, by character code. */
  predicate Before(a: string, b: string) {
    if b == "" then false
    else if a == "" then true
    else a[0] < b[0] || (a[0] == b[0] && Before(a[1..], b[1..]))
  }

  function Insert(f: Field, fields: seq<Field>): seq<Field> {
    if fields == [] then [f]
    else if Before(f.key, fields[0].key) then [f] + fields
    else [fields[0]] + Insert(f, fields[1..])
  }

  /** `sortKeys`. */
  function SortKeys(v: Json): Json {
    match v
    case Leaf(_) => v
    case List(items) => List(SortEach(items))
    case Object(fields) => Object(SortFields(fields))
  }

  function SortEach(items: seq<Json>): (r: seq<Json>)
    ensures |r| == |items|
    ensures forall i :: 0 <= i < |r| ==> r[i] == SortKeys(items[i])
  {
    if items == [] then [] else [SortKeys(items[0])] + SortEach(items[1..])
  }

  function SortFields(fields: seq<Field>): seq<Field> {
    if fields == [] then [] else Insert(Field(fields[0].key, SortKeys(fields[0].value)), SortFields(fields[1..]))
  }

  predicate Sorted(fields: seq<Field>) {
    forall i, j :: 0 <= i < j < |fields| ==> Before(fields[i].key, fields[j].key)
  }

  lemma {:induction false} BeforeIsStrict(a: string, b: string)
    ensures Before(a, b) ==> a != b && !Before(b, a)
    ensures Before(a, b) || a == b || Before(b, a)
  {
    if a != "" && b != "" {
      BeforeIsStrict(a[1..], b[1..]);
      assert a == [a[0]] + a[1..] && b == [b[0]] + b[1..];
    }
  }

  lemma {:induction false} BeforeGoesOn(a: string, b: string, c: string)
    requires Before(a, b) && Before(b, c)
    ensures Before(a, c)
  {
    if a != "" && a[0] == b[0] && b[0] == c[0] {
      BeforeGoesOn(a[1..], b[1..], c[1..]);
    }
  }

  predicate HasKey(fields: seq<Field>, key: string) {
    exists i :: 0 <= i < |fields| && fields[i].key == key
  }

  lemma {:induction false} InsertMembers(f: Field, fields: seq<Field>, x: Field)
    ensures x in Insert(f, fields) <==> x == f || x in fields
  {
    if fields != [] && !Before(f.key, fields[0].key) {
      InsertMembers(f, fields[1..], x);
      assert fields == [fields[0]] + fields[1..];
    }
  }

  lemma {:induction false} InsertSorts(f: Field, fields: seq<Field>)
    requires Sorted(fields) && !HasKey(fields, f.key)
    ensures Sorted(Insert(f, fields))
  {
    if fields == [] {
    } else if Before(f.key, fields[0].key) {
      FirstOfAll(f, fields);
    } else {
      var rest := Insert(f, fields[1..]);
      BeforeIsStrict(f.key, fields[0].key);
      KeyOfRest(fields, f.key);
      InsertSorts(f, fields[1..]);
      forall i | 0 <= i < |rest|
        ensures Before(fields[0].key, rest[i].key)
      {
        InsertMembers(f, fields[1..], rest[i]);
        MemberAfter(fields, f, rest[i]);
      }
    }
  }

  lemma {:induction false} FirstOfAll(f: Field, fields: seq<Field>)
    requires Sorted(fields) && fields != [] && Before(f.key, fields[0].key)
    ensures Sorted([f] + fields)
  {
    var all := [f] + fields;
    forall i, j | 0 <= i < j < |all|
      ensures Before(all[i].key, all[j].key)
    {
      if i == 0 && j > 1 {
        BeforeGoesOn(f.key, fields[0].key, fields[j - 1].key);
      }
    }
  }

  lemma {:induction false} KeyOfRest(fields: seq<Field>, key: string)
    requires fields != [] && !HasKey(fields, key)
    ensures fields[0].key != key && !HasKey(fields[1..], key)
  {
    assert forall i :: 0 <= i < |fields[1..]| ==> fields[1..][i] == fields[i + 1];
  }

  lemma {:induction false} MemberAfter(fields: seq<Field>, f: Field, x: Field)
    requires Sorted(fields) && fields != [] && (x in fields[1..] || (x == f && Before(fields[0].key, f.key)))
    ensures Before(fields[0].key, x.key)
  {
    if x in fields[1..] {
      var i :| 0 <= i < |fields[1..]| && fields[1..][i] == x;
      assert fields[i + 1] == x;
    }
  }

  /** A sorted object holds each field sorted, and no other. */
  lemma {:induction false} SortFieldsFacts(fields: seq<Field>)
    requires KeysApart(fields)
    ensures Sorted(SortFields(fields))
    ensures forall x :: x in SortFields(fields) ==> HasField(fields, x)
    ensures forall i :: 0 <= i < |fields| ==> Field(fields[i].key, SortKeys(fields[i].value)) in SortFields(fields)
  {
    if fields != [] {
      var f, rest := Field(fields[0].key, SortKeys(fields[0].value)), SortFields(fields[1..]);
      SortFieldsFacts(fields[1..]);
      forall x | x in rest
        ensures HasField(fields, x) && x.key != f.key
      {
        assert HasField(fields[1..], x);
        var i :| 0 <= i < |fields[1..]| && SortsTo(fields[1..][i], x);
        assert SortsTo(fields[i + 1], x);
      }
      NewKey(rest, f.key);
      InsertSorts(f, rest);
      forall x | x in SortFields(fields)
        ensures HasField(fields, x)
      {
        InsertMembers(f, rest, x);
        assert SortsTo(fields[0], f);
      }
      forall i | 0 <= i < |fields|
        ensures Field(fields[i].key, SortKeys(fields[i].value)) in SortFields(fields)
      {
        var x := Field(fields[i].key, SortKeys(fields[i].value));
        InsertMembers(f, rest, x);
        if i > 0 {
          assert fields[1..][i - 1] == fields[i];
        }
      }
    }
  }

  lemma {:induction false} NewKey(fields: seq<Field>, key: string)
    requires forall x :: x in fields ==> x.key != key
    ensures !HasKey(fields, key)
  {
    forall i | 0 <= i < |fields|
      ensures fields[i].key != key
    {
      assert fields[i] in fields;
    }
  }

  predicate SortsTo(f: Field, x: Field) {
    x == Field(f.key, SortKeys(f.value))
  }

  predicate HasField(fields: seq<Field>, x: Field) {
    exists i :: 0 <= i < |fields| && SortsTo(fields[i], x)
  }

  /** Sorted objects with the same fields are the same object. */
  lemma {:induction false} SortedIsUnique(x: seq<Field>, y: seq<Field>)
    requires Sorted(x) && Sorted(y) && forall f :: f in x <==> f in y
    ensures x == y
    decreases |x|
  {
    if x == [] {
      assert forall i :: 0 <= i < |y| ==> y[i] in y;
    } else {
      assert x[0] in x;
      SameFirst(x, y);
      var x', y' := x[1..], y[1..];
      assert x == [x[0]] + x' && y == [y[0]] + y';
      forall f
        ensures f in x' <==> f in y'
      {
        NotFirst(x, f);
        NotFirst(y, f);
      }
      SortedIsUnique(x', y');
    }
  }

  lemma {:induction false} NotFirst(x: seq<Field>, f: Field)
    requires Sorted(x) && x != []
    ensures f in x[1..] <==> f in x && f != x[0]
  {
    assert x == [x[0]] + x[1..];
    BeforeIsStrict(x[0].key, x[0].key);
    if x[0] in x[1..] {
      MemberAfter(x, x[0], x[0]);
    }
  }

  lemma {:induction false} SameFirst(x: seq<Field>, y: seq<Field>)
    requires Sorted(x) && Sorted(y) && x != [] && y != [] && x[0] in y && y[0] in x
    ensures x[0] == y[0]
  {
    NotFirst(x, y[0]);
    NotFirst(y, x[0]);
    if x[0] != y[0] {
      MemberAfter(x, y[0], y[0]);
      MemberAfter(y, x[0], x[0]);
      BeforeIsStrict(x[0].key, y[0].key);
    }
  }

  // -- What the sorted body keeps ---------------------------------------------

  lemma {:induction false} MeansAt(fields: seq<Field>, i: nat)
    requires KeysApart(fields) && i < |fields|
    ensures fields[i].key in MeansFields(fields) && MeansFields(fields)[fields[i].key] == Means(fields[i].value)
  {
    if i > 0 {
      assert fields[1..][i - 1] == fields[i];
      MeansAt(fields[1..], i - 1);
    }
  }

  lemma {:induction false} MeantByOne(fields: seq<Field>, key: string)
    requires key in MeansFields(fields)
    ensures HasKey(fields, key)
  {
    if fields[0].key != key {
      MeantByOne(fields[1..], key);
      var i :| 0 <= i < |fields[1..]| && fields[1..][i].key == key;
      assert fields[i + 1].key == key;
    }
  }

  /** Bodies that say the same sort to the same text, whatever order their keys came in. */
  lemma {:induction false} SameMeaningSameText(v: Json, w: Json)
    requires WellFormed(v) && WellFormed(w) && Means(v) == Means(w)
    ensures SortKeys(v) == SortKeys(w)
    decreases v
  {
    match v
    case Leaf(_) =>
    case List(items) =>
      forall i | 0 <= i < |items|
        ensures SortKeys(items[i]) == SortKeys(w.items[i])
      {
        assert MeansEach(items)[i] == MeansEach(w.items)[i];
        SameMeaningSameText(items[i], w.items[i]);
      }
      assert SortEach(items) == SortEach(w.items);
    case Object(fields) =>
      forall i | 0 <= i < |fields|
        ensures Field(fields[i].key, SortKeys(fields[i].value)) in SortFields(w.fields)
      {
        var j := SameKey(fields, w.fields, i);
        SameMeaningSameText(fields[i].value, w.fields[j].value);
        SortFieldsFacts(w.fields);
      }
      forall j | 0 <= j < |w.fields|
        ensures Field(w.fields[j].key, SortKeys(w.fields[j].value)) in SortFields(fields)
      {
        var i := SameKey(w.fields, fields, j);
        SameMeaningSameText(fields[i].value, w.fields[j].value);
        SortFieldsFacts(fields);
      }
      SameFields(fields, w.fields);
  }

  lemma {:induction false} SameKey(x: seq<Field>, y: seq<Field>, i: nat) returns (j: nat)
    requires KeysApart(x) && KeysApart(y) && MeansFields(x) == MeansFields(y) && i < |x|
    ensures j < |y| && y[j].key == x[i].key && Means(y[j].value) == Means(x[i].value)
  {
    MeansAt(x, i);
    MeantByOne(y, x[i].key);
    j :| 0 <= j < |y| && y[j].key == x[i].key;
    MeansAt(y, j);
  }

  lemma {:induction false} SameFields(x: seq<Field>, y: seq<Field>)
    requires KeysApart(x) && KeysApart(y)
    requires forall i :: 0 <= i < |x| ==> Field(x[i].key, SortKeys(x[i].value)) in SortFields(y)
    requires forall j :: 0 <= j < |y| ==> Field(y[j].key, SortKeys(y[j].value)) in SortFields(x)
    ensures SortFields(x) == SortFields(y)
  {
    SortFieldsFacts(x);
    SortFieldsFacts(y);
    forall f
      ensures f in SortFields(x) <==> f in SortFields(y)
    {
      if f in SortFields(x) {
        assert HasField(x, f);
      }
      if f in SortFields(y) {
        assert HasField(y, f);
      }
    }
    SortedIsUnique(SortFields(x), SortFields(y));
  }

  lemma {:induction false} InsertMeans(f: Field, fields: seq<Field>)
    requires !HasKey(fields, f.key)
    ensures MeansFields(Insert(f, fields)) == MeansFields(fields)[f.key := Means(f.value)]
  {
    if fields != [] && !Before(f.key, fields[0].key) {
      KeyOfRest(fields, f.key);
      InsertMeans(f, fields[1..]);
      assert ([fields[0]] + Insert(f, fields[1..]))[1..] == Insert(f, fields[1..]);
    } else {
      assert ([f] + fields)[1..] == fields;
    }
  }

  lemma {:induction false} FieldsKeepMeaning(fields: seq<Field>)
    requires KeysApart(fields)
    requires forall i :: 0 <= i < |fields| ==> Means(SortKeys(fields[i].value)) == Means(fields[i].value)
    ensures MeansFields(SortFields(fields)) == MeansFields(fields)
  {
    if fields != [] {
      var f, rest := Field(fields[0].key, SortKeys(fields[0].value)), SortFields(fields[1..]);
      FieldsKeepMeaning(fields[1..]);
      SortFieldsFacts(fields[1..]);
      forall x | x in rest
        ensures x.key != f.key
      {
        assert HasField(fields[1..], x);
        var i :| 0 <= i < |fields[1..]| && SortsTo(fields[1..][i], x);
        assert fields[i + 1].key != fields[0].key;
      }
      NewKey(rest, f.key);
      InsertMeans(f, rest);
    }
  }

  /** Sorting changes nothing a body says. */
  lemma {:induction false} SortingKeepsMeaning(v: Json)
    requires WellFormed(v)
    ensures Means(SortKeys(v)) == Means(v)
    decreases v
  {
    match v
    case Leaf(_) =>
    case List(items) =>
      forall i | 0 <= i < |items|
        ensures Means(SortKeys(items[i])) == Means(items[i])
      {
        SortingKeepsMeaning(items[i]);
      }
      assert MeansEach(SortEach(items)) == MeansEach(items);
    case Object(fields) =>
      forall i | 0 <= i < |fields|
        ensures Means(SortKeys(fields[i].value)) == Means(fields[i].value)
      {
        SortingKeepsMeaning(fields[i].value);
      }
      FieldsKeepMeaning(fields);
  }

  /** Two bodies come to the text that is hashed exactly when they say the same. */
  lemma {:induction false} SameTextExactly(v: Json, w: Json)
    requires WellFormed(v) && WellFormed(w)
    ensures SortKeys(v) == SortKeys(w) <==> Means(v) == Means(w)
  {
    SortingKeepsMeaning(v);
    SortingKeepsMeaning(w);
    if Means(v) == Means(w) {
      SameMeaningSameText(v, w);
    }
  }
}
