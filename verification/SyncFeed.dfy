/**
 * The sync feed: writers whose rows appear only when they commit, and a client
 * that pages forward behind the clock, in any interleaving
 * (src/common/pagination/keyset-cursor.ts:45-147,
 * src/modules/inventory/sync.service.ts:68-115,
 * src/modules/payments/payment.service.ts:282-345).
 *
 * `stamp` is the column the feed is ordered by: `createdAt` where a row is
 * written once, `updatedAt` where it may be written again.
 */
module SyncFeed {
  import opened Common

  const SYNC_LAG_MS: Time := 1000

  /** A row as it stands after one write. */
  datatype Version = Version(id: Id, stamp: Time, body: Id)

  /** Where a client reads on from: the start, a cursor, or a time it is synced through. */
  datatype Position =
    | Beginning
    | After(at: Time, id: Id)
    | Since(through: Time)

  /** A key at or before the position: the client will not be told of it again. */
  predicate Passed(p: Position, v: Version) {
    match p
    case Beginning => false
    case After(at, id) => v.stamp < at || (v.stamp == at && v.id <= id)
    case Since(through) => v.stamp <= through
  }

  // -- One page ---------------------------------------------------------------

  predicate Before(v: Version, w: Version) {
    v.stamp < w.stamp || (v.stamp == w.stamp && v.id < w.id)
  }

  predicate Eligible(v: Version, window: Time, p: Position) {
    v.stamp <= window && !Passed(p, v)
  }

  /** The `where` clause. */
  function Where(rows: seq<Version>, window: Time, p: Position): seq<Version> {
    if rows == [] then []
    else (if Eligible(rows[0], window, p) then [rows[0]] else []) + Where(rows[1..], window, p)
  }

  function Place(v: Version, sorted: seq<Version>): seq<Version> {
    if sorted == [] then [v]
    else if Before(v, sorted[0]) then [v] + sorted
    else [sorted[0]] + Place(v, sorted[1..])
  }

  /** The `orderBy` clause: by stamp, then by id. */
  function OrderBy(rows: seq<Version>): seq<Version> {
    if rows == [] then [] else Place(rows[0], OrderBy(rows[1..]))
  }

  function Take(rows: seq<Version>, limit: nat): seq<Version> {
    if |rows| <= limit then rows else rows[..limit]
  }

  function Page(rows: seq<Version>, window: Time, p: Position, limit: nat): seq<Version> {
    Take(OrderBy(Where(rows, window, p)), limit)
  }

  predicate UniqueIds(rows: seq<Version>) {
    forall i, j :: 0 <= i < j < |rows| ==> rows[i].id != rows[j].id
  }

  predicate Sorted(rows: seq<Version>) {
    forall i, j :: 0 <= i < j < |rows| ==> Before(rows[i], rows[j])
  }

  lemma {:induction false} WhereFacts(rows: seq<Version>, window: Time, p: Position)
    ensures forall v :: v in Where(rows, window, p) <==> v in rows && Eligible(v, window, p)
    ensures UniqueIds(rows) ==> UniqueIds(Where(rows, window, p))
  {
    if rows != [] {
      WhereFacts(rows[1..], window, p);
      assert rows == [rows[0]] + rows[1..];
      if UniqueIds(rows) {
        var rest := Where(rows[1..], window, p);
        forall i | 0 <= i < |rest|
          ensures rest[i].id != rows[0].id
        {
          assert rest[i] in rest;
          var j :| 0 <= j < |rows[1..]| && rows[1..][j] == rest[i];
          assert rows[j + 1] == rest[i];
        }
      }
    }
  }

  lemma {:induction false} PlaceFacts(v: Version, sorted: seq<Version>)
    requires Sorted(sorted) && forall w :: w in sorted ==> w.id != v.id
    ensures Sorted(Place(v, sorted)) && |Place(v, sorted)| == |sorted| + 1
    ensures forall w :: w in Place(v, sorted) <==> w == v || w in sorted
  {
    if sorted != [] && !Before(v, sorted[0]) {
      assert sorted == [sorted[0]] + sorted[1..];
      PlaceFacts(v, sorted[1..]);
      var r := Place(v, sorted[1..]);
      forall i | 0 <= i < |r|
        ensures Before(sorted[0], r[i])
      {
        assert r[i] in r;
        if r[i] != v {
          var j :| 0 <= j < |sorted[1..]| && sorted[1..][j] == r[i];
          assert Before(sorted[0], sorted[j + 1]);
        }
      }
    } else if sorted != [] {
      var r := [v] + sorted;
      forall i, j | 0 <= i < j < |r|
        ensures Before(r[i], r[j])
      {
        if i == 0 && j > 1 {
          assert Before(sorted[0], sorted[j - 1]);
        }
      }
    }
  }

  lemma {:induction false} OrderByFacts(rows: seq<Version>)
    requires UniqueIds(rows)
    ensures Sorted(OrderBy(rows)) && |OrderBy(rows)| == |rows|
    ensures forall v :: v in OrderBy(rows) <==> v in rows
  {
    if rows != [] {
      OrderByFacts(rows[1..]);
      assert rows == [rows[0]] + rows[1..];
      forall w | w in OrderBy(rows[1..])
        ensures w.id != rows[0].id
      {
        var j :| 0 <= j < |rows[1..]| && rows[1..][j] == w;
        assert rows[j + 1] == w;
      }
      PlaceFacts(rows[0], OrderBy(rows[1..]));
    }
  }

  lemma {:induction false} TakenFirst(all: seq<Version>, limit: nat, j: nat)
    requires j < |all|
    ensures j < limit ==> all[j] in Take(all, limit)
  {
    if j < limit {
      assert Take(all, limit)[j] == all[j];
    }
  }

  /**
   * A page is the first rows, in order, of those past the position and inside the
   * window: whatever it leaves out comes after all of it, and only when it is full.
   */
  lemma {:induction false} PageIsTheFirst(rows: seq<Version>, window: Time, p: Position, limit: nat)
    requires UniqueIds(rows)
    ensures var page := Page(rows, window, p, limit);
      && Sorted(page) && |page| <= limit
      && (forall v :: v in page ==> v in rows && Eligible(v, window, p))
      && (forall v :: v in rows && Eligible(v, window, p) && v !in page ==>
            |page| == limit && forall w :: w in page ==> Before(w, v))
  {
    var all := OrderBy(Where(rows, window, p));
    WhereFacts(rows, window, p);
    OrderByFacts(Where(rows, window, p));
    var page := Page(rows, window, p, limit);
    forall v, w | v in rows && Eligible(v, window, p) && v !in page && w in page
      ensures |page| == limit && Before(w, v)
    {
      assert v in all;
      var j :| 0 <= j < |all| && all[j] == v;
      var i :| 0 <= i < |page| && page[i] == w;
      assert all[i] == w;
      TakenFirst(all, limit, j);
    }
    forall v | v in rows && Eligible(v, window, p) && v !in page
      ensures |page| == limit
    {
      assert v in all;
    }
  }

  // -- The feed ---------------------------------------------------------------

  /** What a client holds, where it reads on from, and the time it takes itself to be caught up to. */
  datatype Client = Client(held: map<Id, Version>, at: Position, syncedThrough: Option<Time>)

  /** `pending` are the writes under way: their stamps are taken, and nobody sees them until they commit. */
  datatype State = State(clock: Time, rows: seq<Version>, pending: seq<Version>, client: Client)

  const START := State(0, [], [], Client(map[], Beginning, None))

  datatype Step =
    | Tick(ms: nat)
    | Write(id: Id, body: Id)
    | Commit(i: nat)
    | Abandon(i: nat)
    | Read(limit: nat)

  /** The committed row, new or written over. */
  function Put(rows: seq<Version>, v: Version): (r: seq<Version>)
    ensures forall w :: w in r <==> w == v || (w in rows && w.id != v.id)
    ensures forall i :: 0 <= i < |r| ==> r[i] == v || r[i].id != v.id
    decreases rows
  {
    if rows == [] then [v]
    else if rows[0].id == v.id then [v] + Others(rows[1..], v.id)
    else [rows[0]] + Put(rows[1..], v)
  }

  function Others(rows: seq<Version>, id: Id): (r: seq<Version>)
    ensures forall w :: w in r <==> w in rows && w.id != id
  {
    if rows == [] then [] else (if rows[0].id == id then [] else [rows[0]]) + Others(rows[1..], id)
  }

  /** The client writes over by id what it is sent. */
  function Upsert(held: map<Id, Version>, page: seq<Version>): map<Id, Version>
    decreases page
  {
    if page == [] then held else Upsert(held[page[0].id := page[0]], page[1..])
  }

  /** The next call: the cursor of a full page, or the time a short one was synced through. */
  function NextPosition(page: seq<Version>, limit: nat, window: Time): Position {
    if |page| == limit && page != [] then After(page[|page| - 1].stamp, page[|page| - 1].id) else Since(window)
  }

  function ReadPage(s: State, limit: nat): State {
    var window := s.clock - SYNC_LAG_MS;
    var page := Page(s.rows, window, s.client.at, limit);
    s.(client := Client(Upsert(s.client.held, page), NextPosition(page, limit, window),
                        if NextPosition(page, limit, window).Since? then Some(window) else s.client.syncedThrough))
  }

  function Dropped(vs: seq<Version>, i: nat): seq<Version>
    requires i < |vs|
  {
    vs[..i] + vs[i + 1..]
  }

  function Next(s: State, step: Step): State {
    match step
    case Tick(ms) => s.(clock := s.clock + ms)
    case Write(id, body) => s.(pending := s.pending + [Version(id, s.clock, body)])
    case Commit(i) =>
      if i < |s.pending| then s.(rows := Put(s.rows, s.pending[i]), pending := Dropped(s.pending, i)) else s
    case Abandon(i) => if i < |s.pending| then s.(pending := Dropped(s.pending, i)) else s
    case Read(limit) => ReadPage(s, limit)
  }

  function Run(s: State, steps: seq<Step>): State
    decreases steps
  {
    if steps == [] then s else Run(Next(s, steps[0]), steps[1..])
  }

  // -- Nothing is skipped -----------------------------------------------------

  predicate Holds(c: Client, v: Version) {
    v.id in c.held && c.held[v.id] == v
  }

  /** Nothing at or before the position can be later than this. */
  predicate Within(p: Position, horizon: Time) {
    match p
    case Beginning => true
    case After(at, _) => at <= horizon
    case Since(through) => through <= horizon
  }

  /** Everything up to `through` is behind the position. */
  predicate Covers(p: Position, through: Time) {
    match p
    case Beginning => false
    case After(at, _) => through < at
    case Since(t) => through <= t
  }

  /** Rows are known by id, the position is behind the lag, and the client holds nothing it has not passed. */
  ghost predicate FeedOk(s: State) {
    && UniqueIds(s.rows)
    && Within(s.client.at, s.clock - SYNC_LAG_MS)
    && (s.client.syncedThrough.Some? ==> Covers(s.client.at, s.client.syncedThrough.value))
    && (forall v :: Holds(s.client, v) ==> Passed(s.client.at, v))
  }

  /** What the client has passed it has, of the rows committed and of the writes under way. */
  ghost predicate NothingMissed(s: State) {
    && (forall v :: v in s.rows && Passed(s.client.at, v) ==> Holds(s.client, v))
    && (forall v :: v in s.pending && Passed(s.client.at, v) ==> Holds(s.client, v))
  }

  /** Every write under way began less than the lag ago. */
  predicate Prompt(s: State) {
    forall v :: v in s.pending ==> s.clock - SYNC_LAG_MS < v.stamp
  }

  /** Whenever the client reads, it asks for something and every write under way is younger than the lag. */
  predicate PromptRun(s: State, steps: seq<Step>)
    decreases steps
  {
    steps == [] || ((steps[0].Read? ==> steps[0].limit > 0 && Prompt(s)) && PromptRun(Next(s, steps[0]), steps[1..]))
  }

  /** The read cannot get to this key: too young, or a whole page to be sent before it. */
  predicate OutOfReach(s: State, v: Version, limit: nat) {
    s.clock - SYNC_LAG_MS < v.stamp || (limit > 0 && limit <= |Ahead(s, v)|)
  }

  /** The rows to be sent before this key. */
  function Ahead(s: State, v: Version): seq<Version> {
    EarlierThan(OrderBy(Where(s.rows, s.clock - SYNC_LAG_MS, s.client.at)), v)
  }

  function EarlierThan(rows: seq<Version>, v: Version): seq<Version> {
    if rows == [] then [] else (if Before(rows[0], v) then [rows[0]] else []) + EarlierThan(rows[1..], v)
  }

  /** The write under way only says again what the table says, or what the client has and this read leaves standing. */
  predicate SaidAlready(s: State, v: Version, limit: nat) {
    v in s.rows || (Holds(s.client, v) && forall w :: w in s.rows && w.id == v.id ==> OutOfReach(s, w, limit))
  }

  /**
   * What may be asked of the feed now: a page of one or more, or of none when there
   * is none to be sent; and no write under way within its reach with news in it.
   */
  predicate SafeRead(s: State, limit: nat) {
    && (limit > 0 || forall v :: v in s.rows ==> s.clock - SYNC_LAG_MS < v.stamp || Passed(s.client.at, v))
    && (forall v :: v in s.pending ==> OutOfReach(s, v, limit) || SaidAlready(s, v, limit))
  }

  predicate Safe(s: State, step: Step) {
    step.Read? ==> SafeRead(s, step.limit)
  }

  predicate AllSafe(s: State, steps: seq<Step>)
    decreases steps
  {
    steps == [] || (Safe(s, steps[0]) && AllSafe(Next(s, steps[0]), steps[1..]))
  }

  lemma {:induction false} UpsertFacts(held: map<Id, Version>, page: seq<Version>)
    requires UniqueIds(page)
    ensures forall v :: v in page ==> v.id in Upsert(held, page) && Upsert(held, page)[v.id] == v
    ensures forall id :: (forall v :: v in page ==> v.id != id) ==>
      (id in Upsert(held, page) <==> id in held) && (id in held ==> Upsert(held, page)[id] == held[id])
    decreases page
  {
    if page != [] {
      assert page == [page[0]] + page[1..];
      UpsertFacts(held[page[0].id := page[0]], page[1..]);
      forall v | v in page[1..]
        ensures v.id != page[0].id
      {
        var j :| 0 <= j < |page[1..]| && page[1..][j] == v;
        assert page[j + 1] == v;
      }
    }
  }

  lemma {:induction false} PageIds(rows: seq<Version>, window: Time, p: Position, limit: nat)
    requires UniqueIds(rows)
    ensures UniqueIds(Page(rows, window, p, limit))
  {
    PageIsTheFirst(rows, window, p, limit);
    var page := Page(rows, window, p, limit);
    forall i, j | 0 <= i < j < |page|
      ensures page[i].id != page[j].id
    {
      assert page[i] in rows && page[j] in rows && Before(page[i], page[j]);
    }
  }

  /** A position only moves forward. */
  lemma {:induction false} PassedStays(s: State, limit: nat, v: Version)
    requires FeedOk(s) && Passed(s.client.at, v)
    ensures Passed(ReadPage(s, limit).client.at, v)
  {
    hide Page;
    var window := s.clock - SYNC_LAG_MS;
    var page := Page(s.rows, window, s.client.at, limit);
    PageIsTheFirst(s.rows, window, s.client.at, limit);
    assert page != [] ==> page[|page| - 1] in page;
  }

  /** After a read the client has what the page brought, and what it had of rows the page brought nothing of. */
  lemma {:induction false} Brought(s: State, limit: nat, v: Version)
    requires FeedOk(s)
    ensures var page := Page(s.rows, s.clock - SYNC_LAG_MS, s.client.at, limit);
      Holds(ReadPage(s, limit).client, v) <==> v in page || (Holds(s.client, v) && forall w :: w in page ==> w.id != v.id)
  {
    hide Page;
    var window, p := s.clock - SYNC_LAG_MS, s.client.at;
    var page := Page(s.rows, window, p, limit);
    PageIds(s.rows, window, p, limit);
    UpsertFacts(s.client.held, page);
  }

  /** What a full or short page moves past it brought, or was past already. */
  lemma {:induction false} PassedIsBrought(s: State, limit: nat, v: Version)
    requires FeedOk(s) && limit > 0 && v in s.rows && Passed(ReadPage(s, limit).client.at, v)
    ensures Passed(s.client.at, v) || v in Page(s.rows, s.clock - SYNC_LAG_MS, s.client.at, limit)
  {
    hide Page;
    var window, p := s.clock - SYNC_LAG_MS, s.client.at;
    var page := Page(s.rows, window, p, limit);
    PageIsTheFirst(s.rows, window, p, limit);
    assert page != [] ==> page[|page| - 1] in page;
    assert v.stamp <= window || Passed(p, v);
  }

  lemma {:induction false} PutIds(rows: seq<Version>, v: Version)
    requires UniqueIds(rows)
    ensures UniqueIds(Put(rows, v))
  {
    if rows != [] {
      if rows[0].id == v.id {
        OthersIds(rows[1..], v.id);
      } else {
        PutIds(rows[1..], v);
        var rest := Put(rows[1..], v);
        forall i | 0 <= i < |rest|
          ensures rest[i].id != rows[0].id
        {
          NotAmong(rows, rest[i]);
          assert rest[i] in rest;
        }
      }
    }
  }

  lemma {:induction false} NotAmong(rows: seq<Version>, w: Version)
    requires UniqueIds(rows) && rows != []
    ensures w in rows[1..] ==> w.id != rows[0].id
  {
    if w in rows[1..] {
      var j :| 0 <= j < |rows[1..]| && rows[1..][j] == w;
      assert rows[j + 1] == w;
    }
  }

  lemma {:induction false} OthersIds(rows: seq<Version>, id: Id)
    requires UniqueIds(rows)
    ensures UniqueIds(Others(rows, id))
    ensures forall i :: 0 <= i < |Others(rows, id)| ==> Others(rows, id)[i].id != id
  {
    if rows != [] {
      OthersIds(rows[1..], id);
      var rest := Others(rows[1..], id);
      forall i | 0 <= i < |rest|
        ensures rest[i].id != rows[0].id
      {
        NotAmong(rows, rest[i]);
        assert rest[i] in rest;
      }
    }
  }

  lemma {:induction false} ReadOk(s: State, limit: nat)
    requires FeedOk(s)
    ensures FeedOk(ReadPage(s, limit))
  {
    hide Page;
    var window := s.clock - SYNC_LAG_MS;
    var page := Page(s.rows, window, s.client.at, limit);
    PageIsTheFirst(s.rows, window, s.client.at, limit);
    assert page != [] ==> page[|page| - 1] in page;
    var s1 := ReadPage(s, limit);
    forall v | Holds(s1.client, v)
      ensures Passed(s1.client.at, v)
    {
      Brought(s, limit, v);
      if v in page {
        BroughtIsPassed(s, limit, v);
      } else {
        PassedStays(s, limit, v);
      }
    }
  }

  lemma {:induction false} BroughtIsPassed(s: State, limit: nat, v: Version)
    requires UniqueIds(s.rows) && v in Page(s.rows, s.clock - SYNC_LAG_MS, s.client.at, limit)
    ensures Passed(ReadPage(s, limit).client.at, v)
  {
    hide Page;
    var page := Page(s.rows, s.clock - SYNC_LAG_MS, s.client.at, limit);
    PageIsTheFirst(s.rows, s.clock - SYNC_LAG_MS, s.client.at, limit);
    var i :| 0 <= i < |page| && page[i] == v;
    assert i < |page| - 1 ==> Before(page[i], page[|page| - 1]);
  }

  lemma {:induction false} NextOk(s: State, step: Step)
    requires FeedOk(s)
    ensures FeedOk(Next(s, step))
  {
    match step
    case Read(limit) => ReadOk(s, limit);
    case Commit(i) =>
      if i < |s.pending| {
        PutIds(s.rows, s.pending[i]);
      }
    case _ =>
  }

  lemma {:induction false} ReadOnly(s: State, limit: nat)
    ensures ReadPage(s, limit) == s.(client := ReadPage(s, limit).client)
    ensures Next(s, Read(limit)) == ReadPage(s, limit)
  {
  }

  lemma {:induction false} EarlierFacts(rows: seq<Version>, v: Version, k: nat)
    requires Sorted(rows) && k <= |rows|
    requires forall i :: 0 <= i < |rows| ==> (Before(rows[i], v) <==> i < k)
    ensures |EarlierThan(rows, v)| == k
  {
    if rows != [] {
      EarlierFacts(rows[1..], v, if k == 0 then 0 else k - 1);
    }
  }

  /** In order, those before a key come first. */
  lemma {:induction false} EarlierCount(rows: seq<Version>, v: Version) returns (k: nat)
    requires Sorted(rows)
    ensures k == |EarlierThan(rows, v)| <= |rows|
    ensures forall i :: 0 <= i < |rows| ==> (Before(rows[i], v) <==> i < k)
  {
    k := 0;
    while k < |rows| && Before(rows[k], v)
      invariant k <= |rows| && forall i :: 0 <= i < k ==> Before(rows[i], v)
    {
      k := k + 1;
    }
    forall i | k <= i < |rows|
      ensures !Before(rows[i], v)
    {
      assert i > k ==> Before(rows[k], rows[i]);
    }
    EarlierFacts(rows, v, k);
  }

  /** The rows to be sent, in order, and how many of them come before a key. */
  lemma {:induction false} ToSend(s: State, v: Version) returns (all: seq<Version>, k: nat)
    requires FeedOk(s)
    ensures all == OrderBy(Where(s.rows, s.clock - SYNC_LAG_MS, s.client.at))
    ensures forall i :: 0 <= i < |all| ==> Eligible(all[i], s.clock - SYNC_LAG_MS, s.client.at)
    ensures k == |Ahead(s, v)| <= |all|
    ensures forall i :: 0 <= i < |all| ==> (Before(all[i], v) <==> i < k)
  {
    all := OrderBy(Where(s.rows, s.clock - SYNC_LAG_MS, s.client.at));
    InOrder(s.rows, s.clock - SYNC_LAG_MS, s.client.at);
    k := EarlierCount(all, v);
  }

  lemma {:induction false} InOrder(rows: seq<Version>, window: Time, p: Position)
    requires UniqueIds(rows)
    ensures var all := OrderBy(Where(rows, window, p));
      Sorted(all) && forall i :: 0 <= i < |all| ==> Eligible(all[i], window, p)
  {
    hide Eligible, Before, Sorted;
    WhereFacts(rows, window, p);
    OrderByFacts(Where(rows, window, p));
    var all := OrderBy(Where(rows, window, p));
    forall i | 0 <= i < |all|
      ensures Eligible(all[i], window, p)
    {
      assert all[i] in all;
    }
  }

  /** A read gets past a key not passed yet exactly when the key is within its reach. */
  lemma {:induction false} ReachExactly(s: State, limit: nat, v: Version)
    requires FeedOk(s)
    ensures !Passed(s.client.at, v) ==> (Passed(ReadPage(s, limit).client.at, v) <==> !OutOfReach(s, v, limit))
  {
    hide FeedOk, OrderBy, Where, Ahead;
    var all, k := ToSend(s, v);
    assert ReadPage(s, limit).client.at == NextPosition(Take(all, limit), limit, s.clock - SYNC_LAG_MS);
  }

  /** What a page brings is within its reach, and all that is within its reach it brings. */
  lemma {:induction false} BroughtExactly(s: State, limit: nat, v: Version)
    requires FeedOk(s) && limit > 0
    ensures v in Page(s.rows, s.clock - SYNC_LAG_MS, s.client.at, limit) <==>
      v in s.rows && !Passed(s.client.at, v) && !OutOfReach(s, v, limit)
  {
    hide Page, ReadPage, OutOfReach;
    ReachExactly(s, limit, v);
    PageIsTheFirst(s.rows, s.clock - SYNC_LAG_MS, s.client.at, limit);
    if v in Page(s.rows, s.clock - SYNC_LAG_MS, s.client.at, limit) {
      BroughtIsPassed(s, limit, v);
    } else if v in s.rows && Passed(ReadPage(s, limit).client.at, v) {
      PassedIsBrought(s, limit, v);
    }
  }

  /** A page of none brings nothing and moves past everything in the window. */
  lemma {:induction false} PageOfNone(s: State, v: Version)
    ensures Page(s.rows, s.clock - SYNC_LAG_MS, s.client.at, 0) == []
    ensures Passed(ReadPage(s, 0).client.at, v) <==> v.stamp <= s.clock - SYNC_LAG_MS
  {
  }

  /** The one version of a row in reach is the one the page brings. */
  lemma {:induction false} BroughtOf(s: State, limit: nat, v: Version)
    requires FeedOk(s) && NothingMissed(s) && limit > 0 && v !in s.rows && Holds(s.client, v)
    ensures var page := Page(s.rows, s.clock - SYNC_LAG_MS, s.client.at, limit);
      (forall w :: w in page ==> w.id != v.id) <==> forall w :: w in s.rows && w.id == v.id ==> OutOfReach(s, w, limit)
  {
    hide Page, ReadPage, OutOfReach;
    var page := Page(s.rows, s.clock - SYNC_LAG_MS, s.client.at, limit);
    forall w | w in page || w in s.rows
      ensures w in page <==> w in s.rows && !Passed(s.client.at, w) && !OutOfReach(s, w, limit)
    {
      BroughtExactly(s, limit, w);
    }
  }

  /** A committed row the read gets past, the client has after it. */
  lemma {:induction false} RowsAreBrought(s: State, limit: nat, v: Version)
    requires FeedOk(s) && NothingMissed(s) && limit > 0 && v in s.rows && Passed(ReadPage(s, limit).client.at, v)
    ensures Holds(ReadPage(s, limit).client, v)
  {
    hide Page, ReadPage, UniqueIds;
    Brought(s, limit, v);
    PassedIsBrought(s, limit, v);
    OnlyItself(s, limit, v);
  }

  lemma {:induction false} OnlyItself(s: State, limit: nat, v: Version)
    requires FeedOk(s) && v in s.rows
    ensures forall w :: w in Page(s.rows, s.clock - SYNC_LAG_MS, s.client.at, limit) && w.id == v.id ==> w == v
  {
    hide Page;
    PageIsTheFirst(s.rows, s.clock - SYNC_LAG_MS, s.client.at, limit);
  }

  /** Of a write under way: what the client has after the read, if the read gets past it. */
  lemma {:induction false} PendingExactly(s: State, limit: nat, v: Version)
    requires FeedOk(s) && NothingMissed(s) && limit > 0 && v in s.pending && v !in s.rows
    ensures (Passed(ReadPage(s, limit).client.at, v) ==> Holds(ReadPage(s, limit).client, v))
       <==> (OutOfReach(s, v, limit) || SaidAlready(s, v, limit))
  {
    hide Page, ReadPage, UniqueIds, OutOfReach;
    ReachExactly(s, limit, v);
    BroughtExactly(s, limit, v);
    Brought(s, limit, v);
    if Passed(s.client.at, v) {
      BroughtOf(s, limit, v);
      PassedStays(s, limit, v);
      PassedIsInReach(s, limit, v);
    }
  }

  lemma {:induction false} PassedIsInReach(s: State, limit: nat, v: Version)
    requires FeedOk(s) && Passed(s.client.at, v)
    ensures !OutOfReach(s, v, limit)
  {
    var all, k := ToSend(s, v);
    assert forall i :: 0 <= i < |all| ==> !Before(all[i], v);
  }

  /** The exact condition of one read: it leaves nothing missed when, and only when, it is a safe one to ask for. */
  lemma {:induction false} ReadIsSafeExactly(s: State, limit: nat)
    requires FeedOk(s) && NothingMissed(s)
    ensures NothingMissed(ReadPage(s, limit)) <==> SafeRead(s, limit)
  {
    hide Page, ReadPage, UniqueIds, OutOfReach, SaidAlready;
    ReadOnly(s, limit);
    if limit == 0 {
      NoneIsSafeExactly(s);
    } else {
      var s1 := ReadPage(s, limit);
      forall v | v in s.rows && Passed(s1.client.at, v)
        ensures Holds(s1.client, v)
      {
        RowsAreBrought(s, limit, v);
      }
      forall v | v in s.pending
        ensures (Passed(s1.client.at, v) ==> Holds(s1.client, v)) <==> OutOfReach(s, v, limit) || SaidAlready(s, v, limit)
      {
        if v in s.rows {
          SaidInTable(s, v, limit);
          if Passed(s1.client.at, v) {
            RowsAreBrought(s, limit, v);
          }
        } else {
          PendingExactly(s, limit, v);
        }
      }
    }
  }

  lemma {:induction false} SaidInTable(s: State, v: Version, limit: nat)
    requires v in s.rows
    ensures SaidAlready(s, v, limit)
  {
  }

  lemma {:induction false} NoneIsSafeExactly(s: State)
    requires FeedOk(s) && NothingMissed(s)
    ensures NothingMissed(ReadPage(s, 0)) <==> SafeRead(s, 0)
  {
    hide Page, ReadPage, UniqueIds;
    ReadOnly(s, 0);
    var s1 := ReadPage(s, 0);
    forall v: Version
      ensures Holds(s1.client, v) <==> Holds(s.client, v)
      ensures Passed(s1.client.at, v) <==> v.stamp <= s.clock - SYNC_LAG_MS
    {
      PageOfNone(s, v);
      Brought(s, 0, v);
    }
  }

  lemma {:induction false} NextMissesNothing(s: State, step: Step)
    requires FeedOk(s) && NothingMissed(s) && Safe(s, step)
    ensures NothingMissed(Next(s, step))
  {
    hide ReadPage, SafeRead;
    var s1 := Next(s, step);
    match step
    case Read(limit) => ReadIsSafeExactly(s, limit);
    case Commit(i) =>
      if i < |s.pending| {
        assert s.pending[i] in s.pending;
      }
    case _ =>
  }

  lemma {:induction false} SafeRunMissesNothing(s: State, steps: seq<Step>)
    requires FeedOk(s) && NothingMissed(s) && AllSafe(s, steps)
    ensures FeedOk(Run(s, steps)) && NothingMissed(Run(s, steps))
    decreases steps
  {
    hide FeedOk, NothingMissed, Next, Safe;
    if steps != [] {
      NextOk(s, steps[0]);
      NextMissesNothing(s, steps[0]);
      SafeRunMissesNothing(Next(s, steps[0]), steps[1..]);
    }
  }

  lemma {:induction false} PromptRunIsSafe(s: State, steps: seq<Step>)
    requires PromptRun(s, steps)
    ensures AllSafe(s, steps)
    decreases steps
  {
    hide Next, SaidAlready, Ahead;
    if steps != [] {
      PromptRunIsSafe(Next(s, steps[0]), steps[1..]);
    }
  }

  /**
   * Sync never skips. Whatever the order of writes, commits and reads: if every
   * write under way at a read is younger than the lag, a client that follows the
   * cursors, writes over by id and resumes from where it was synced through holds
   * the current version of every row stamped at or before that time.
   */
  lemma {:induction false} NothingIsSkipped(steps: seq<Step>, v: Version)
    requires PromptRun(START, steps)
    ensures var s := Run(START, steps);
      s.client.syncedThrough.Some? && v in s.rows && v.stamp <= s.client.syncedThrough.value ==> Holds(s.client, v)
  {
    hide Run, PromptRun, AllSafe;
    PromptRunIsSafe(START, steps);
    SafeRunMissesNothing(START, steps);
    CoveredIsPassed(Run(START, steps), v);
  }

  lemma {:induction false} CoveredIsPassed(s: State, v: Version)
    requires FeedOk(s)
    ensures s.client.syncedThrough.Some? && v.stamp <= s.client.syncedThrough.value ==> Passed(s.client.at, v)
  {
  }

  // -- What is passed is gone -------------------------------------------------

  /** The client has moved past a version it does not hold. */
  predicate Lost(s: State, v: Version) {
    Passed(s.client.at, v) && !Holds(s.client, v)
  }

  lemma {:induction false} LostStaysLost(s: State, step: Step, v: Version)
    requires FeedOk(s) && Lost(s, v)
    ensures Lost(Next(s, step), v)
  {
    hide Page, ReadPage, UniqueIds;
    if step.Read? {
      PassedStays(s, step.limit, v);
      Brought(s, step.limit, v);
      OnlyNews(s, step.limit, v);
    }
  }

  lemma {:induction false} OnlyNews(s: State, limit: nat, v: Version)
    requires FeedOk(s)
    ensures v in Page(s.rows, s.clock - SYNC_LAG_MS, s.client.at, limit) ==> !Passed(s.client.at, v)
  {
    hide Page;
    PageIsTheFirst(s.rows, s.clock - SYNC_LAG_MS, s.client.at, limit);
  }

  /** Skipping is permanent: no continuation, however prompt, ever brings a version passed over. */
  lemma {:induction false} SkippedForever(s: State, steps: seq<Step>, v: Version)
    requires FeedOk(s) && Lost(s, v)
    ensures Lost(Run(s, steps), v)
    decreases steps
  {
    hide FeedOk, Lost, Next;
    if steps != [] {
      NextOk(s, steps[0]);
      LostStaysLost(s, steps[0], v);
      SkippedForever(Next(s, steps[0]), steps[1..], v);
    }
  }

  // -- When nothing can be lost -----------------------------------------------

  /** Every committed row the client has moved past, it has. */
  ghost predicate Complete(s: State) {
    forall v :: v in s.rows ==> !Lost(s, v)
  }

  predicate Unread(steps: seq<Step>) {
    forall i :: 0 <= i < |steps| ==> !steps[i].Read?
  }

  /** However the writes under way end and whatever is written next, no committed row is lost before the client asks again. */
  ghost predicate NothingToLose(s: State) {
    forall later :: Unread(later) ==> Complete(Run(s, later))
  }

  lemma {:induction false} UnreadIsSafe(s: State, steps: seq<Step>)
    requires Unread(steps)
    ensures AllSafe(s, steps)
    decreases steps
  {
    hide Next, SafeRead;
    if steps != [] {
      UnreadIsSafe(Next(s, steps[0]), steps[1..]);
    }
  }

  /** A write under way that the client is past without having it is lost by committing: nothing after that ever brings it. */
  lemma {:induction false} PassedIsLostByCommitting(s: State, i: nat, later: seq<Step>)
    requires FeedOk(s) && i < |s.pending| && Lost(s, s.pending[i])
    ensures s.pending[i] in Next(s, Commit(i)).rows
    ensures Lost(Run(Next(s, Commit(i)), later), s.pending[i])
  {
    NextOk(s, Commit(i));
    SkippedForever(Next(s, Commit(i)), later, s.pending[i]);
  }

  lemma {:induction false} CommittingTells(s: State, i: nat)
    requires FeedOk(s) && i < |s.pending| && Complete(Next(s, Commit(i)))
    ensures !Lost(s, s.pending[i])
  {
    if Lost(s, s.pending[i]) {
      PassedIsLostByCommitting(s, i, []);
    }
  }

  /** Nothing is missed, of rows and of writes under way, exactly when nothing can be lost. */
  lemma {:induction false} NothingToLoseExactly(s: State)
    requires FeedOk(s)
    ensures NothingToLose(s) <==> NothingMissed(s)
  {
    hide FeedOk, Next, Lost;
    if NothingMissed(s) {
      forall later | Unread(later)
        ensures Complete(Run(s, later))
      {
        UnreadIsSafe(s, later);
        SafeRunMissesNothing(s, later);
        MissedIsLost(Run(s, later));
      }
    }
    if NothingToLose(s) {
      assert Unread([]) && Run(s, []) == s;
      assert Complete(s);
      forall i: nat | i < |s.pending|
        ensures !Lost(s, s.pending[i])
      {
        var one := [Commit(i)];
        assert Unread(one) && one[1..] == [];
        assert Run(s, one) == Run(Next(s, one[0]), []) == Next(s, Commit(i));
        assert Complete(Run(s, one));
        CommittingTells(s, i);
      }
      MissedIsLost(s);
    }
  }

  lemma {:induction false} MissedIsLost(s: State)
    ensures NothingMissed(s) <==> Complete(s) && forall i :: 0 <= i < |s.pending| ==> !Lost(s, s.pending[i])
  {
  }

  ghost predicate NeverAnythingToLose(s: State, steps: seq<Step>)
    decreases steps
  {
    NothingToLose(s) && (steps == [] || NeverAnythingToLose(Next(s, steps[0]), steps[1..]))
  }

  /**
   * The exact condition, over any run: there is never a committed row to lose,
   * then or as the writes under way end, when and only when every read was safe to
   * ask for, judged before it.
   */
  lemma {:induction false} NeverMissesExactly(s: State, steps: seq<Step>)
    requires FeedOk(s) && NothingToLose(s)
    ensures NeverAnythingToLose(s, steps) <==> AllSafe(s, steps)
    decreases steps
  {
    hide FeedOk, NothingToLose, Next, SafeRead, NothingMissed;
    if steps != [] {
      var s1 := Next(s, steps[0]);
      NextOk(s, steps[0]);
      NothingToLoseExactly(s);
      NothingToLoseExactly(s1);
      if steps[0].Read? {
        ReadOnly(s, steps[0].limit);
        ReadIsSafeExactly(s, steps[0].limit);
      } else {
        NextMissesNothing(s, steps[0]);
      }
      if NothingToLose(s1) {
        NeverMissesExactly(s1, steps[1..]);
      }
    }
  }

  /** No more rows are to be sent before a key than there are. */
  lemma {:induction false} AheadIsFew(s: State, v: Version)
    requires FeedOk(s)
    ensures |Ahead(s, v)| <= |s.rows|
  {
    WhereIsFew(s.rows, s.clock - SYNC_LAG_MS, s.client.at);
    WhereFacts(s.rows, s.clock - SYNC_LAG_MS, s.client.at);
    OrderByFacts(Where(s.rows, s.clock - SYNC_LAG_MS, s.client.at));
    var all, k := ToSend(s, v);
  }

  lemma {:induction false} WhereIsFew(rows: seq<Version>, window: Time, p: Position)
    ensures |Where(rows, window, p)| <= |rows|
  {
    if rows != [] {
      WhereIsFew(rows[1..], window, p);
    }
  }

  /** Every write under way is younger than the lag, or says again what the table says or what the client has. */
  predicate Covered(s: State) {
    forall v :: v in s.pending ==>
      || s.clock - SYNC_LAG_MS < v.stamp
      || v in s.rows
      || (Holds(s.client, v) && forall w :: w in s.rows && w.id == v.id ==> s.clock - SYNC_LAG_MS < w.stamp)
  }

  /**
   * Exactly what the lag covers: whatever size of page is asked for, a read leaves
   * nothing to lose, when and only when every write under way is younger than the
   * lag or has no news in it.
   */
  lemma {:induction false} LagCoversExactly(s: State)
    requires FeedOk(s) && NothingToLose(s)
    ensures (forall limit: nat :: limit > 0 ==> NothingToLose(ReadPage(s, limit))) <==> Covered(s)
  {
    hide FeedOk, NothingToLose, ReadPage, NothingMissed, Ahead;
    NothingToLoseExactly(s);
    forall limit: nat | limit > 0
      ensures NothingToLose(ReadPage(s, limit)) <==> SafeRead(s, limit)
    {
      ReadOk(s, limit);
      NothingToLoseExactly(ReadPage(s, limit));
      ReadIsSafeExactly(s, limit);
    }
    var all := |s.rows| + 1;
    forall v: Version
      ensures OutOfReach(s, v, all) <==> s.clock - SYNC_LAG_MS < v.stamp
    {
      AheadIsFew(s, v);
    }
    if forall limit: nat :: limit > 0 ==> NothingToLose(ReadPage(s, limit)) {
      assert NothingToLose(ReadPage(s, all));
      assert SafeRead(s, all);
    }
    if Covered(s) {
      forall limit: nat | limit > 0
        ensures SafeRead(s, limit)
      {
      }
    }
  }

  // -- Catching up ------------------------------------------------------------

  lemma {:induction false} WhereShrinks(rows: seq<Version>, window: Time, p: Position, q: Position)
    requires forall v :: v in rows && Passed(p, v) ==> Passed(q, v)
    ensures |Where(rows, window, q)| <= |Where(rows, window, p)|
    ensures (exists v :: v in rows && Eligible(v, window, p) && Passed(q, v)) ==>
      |Where(rows, window, q)| < |Where(rows, window, p)|
  {
    if rows != [] {
      assert rows == [rows[0]] + rows[1..];
      WhereShrinks(rows[1..], window, p, q);
    }
  }

  /** A full page leaves less to read; a short one leaves nothing. */
  lemma {:induction false} LessIsLeft(s: State, limit: nat)
    requires FeedOk(s) && limit > 0
    ensures var s1 := ReadPage(s, limit);
      var left := |Where(s.rows, s.clock - SYNC_LAG_MS, s1.client.at)|;
      if s1.client.at.Since? then left == 0 && s1.client.syncedThrough == Some(s.clock - SYNC_LAG_MS)
      else left < |Where(s.rows, s.clock - SYNC_LAG_MS, s.client.at)|
  {
    hide Page;
    var window := s.clock - SYNC_LAG_MS;
    var page := Page(s.rows, window, s.client.at, limit);
    var s1 := ReadPage(s, limit);
    if s1.client.at.Since? {
      NoneLeft(s.rows, window);
    } else {
      PageIsTheFirst(s.rows, window, s.client.at, limit);
      assert page[|page| - 1] in page;
      forall v | v in s.rows && Passed(s.client.at, v)
        ensures Passed(s1.client.at, v)
      {
        PassedStays(s, limit, v);
      }
      WhereShrinks(s.rows, window, s.client.at, s1.client.at);
    }
  }

  lemma {:induction false} NoneLeft(rows: seq<Version>, window: Time)
    ensures Where(rows, window, Since(window)) == []
  {
    if rows != [] {
      NoneLeft(rows[1..], window);
    }
  }

  function Reads(limit: nat, n: nat): seq<Step> {
    if n == 0 then [] else [Read(limit)] + Reads(limit, n - 1)
  }

  /** Reading on, whatever the size of the page, catches up: one read more than there are rows to send is enough. */
  lemma {:induction false} ReadingCatchesUp(s: State, limit: nat, n: nat)
    requires FeedOk(s) && limit > 0
    requires n > |Where(s.rows, s.clock - SYNC_LAG_MS, s.client.at)|
    ensures Run(s, Reads(limit, n)).client.syncedThrough == Some(s.clock - SYNC_LAG_MS)
    decreases n
  {
    hide FeedOk, ReadPage, Where;
    var s1 := ReadPage(s, limit);
    LessIsLeft(s, limit);
    ReadOk(s, limit);
    ReadOnly(s, limit);
    assert Reads(limit, n)[1..] == Reads(limit, n - 1);
    assert Next(s, Reads(limit, n)[0]) == s1;
    if n > 1 {
      ReadingCatchesUp(s1, limit, n - 1);
    } else {
      assert Run(s1, []) == s1;
    }
  }

  // -- What the lag does not cover --------------------------------------------

  /** A write still open two seconds after its stamp, with a read in between. */
  const SLOW_SAVE: seq<Step> := [Write(1, 7), Tick(2000), Read(200), Commit(0)]

  /**
   * Transactions may run for thirty seconds, thirty times the lag: a client reads
   * while one two seconds old is open, takes itself to be caught up past its
   * stamp, and never hears of the row in any continuation.
   */
  lemma {:induction false} ASlowSaveIsSkipped(later: seq<Step>)
    ensures var s := Run(START, SLOW_SAVE);
      s.rows == [Version(1, 0, 7)] && s.client.syncedThrough == Some(1000)
    ensures Lost(Run(Run(START, SLOW_SAVE), later), Version(1, 0, 7))
  {
    var v := Version(1, 0, 7);
    var s2 := State(2000, [], [v], Client(map[], Beginning, None));
    var s3 := State(2000, [], [v], Client(map[], Since(1000), Some(1000)));
    var s4 := State(2000, [v], [], Client(map[], Since(1000), Some(1000)));
    assert Run(START, SLOW_SAVE) == Run(s2, SLOW_SAVE[2..]);
    assert Next(s2, Read(200)) == s3;
    assert Next(s3, Commit(0)) == s4;
    assert Run(s4, SLOW_SAVE[4..]) == s4;
    assert Run(s2, SLOW_SAVE[2..]) == Run(s3, SLOW_SAVE[3..]);
    SkippedForever(s4, later, v);
  }

  /** A page of no rows ends the walk as a short one does: a row that was there is passed over for good. */
  lemma {:induction false} AskingForNothingSkips(s: State, v: Version, later: seq<Step>)
    requires FeedOk(s) && v in s.rows && Eligible(v, s.clock - SYNC_LAG_MS, s.client.at)
    ensures Lost(Run(ReadPage(s, 0), later), v)
  {
    ReadOk(s, 0);
    SkippedForever(ReadPage(s, 0), later, v);
  }
}
