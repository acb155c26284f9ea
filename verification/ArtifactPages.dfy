/**
 Space artifact listing. A page shows the latest version of every family among the rows dated
 at or before `asOf`, newest first; the cursor carries the position and freezes `asOf`.
 */
module ArtifactPages {
  import opened Common

  // createdAt in milliseconds; ids ordered as the database orders them
  datatype Artifact = Artifact(id: nat, root: Option<nat>, space: nat, user: nat, bot: Option<nat>, version: nat, createdAt: int)

  datatype Scope = Scope(space: nat, user: nat, bot: Option<nat>)

  datatype Cursor = Cursor(createdAt: int, id: nat, bot: Option<nat>, asOf: int)

  datatype Item = Item(family: nat, latest: Artifact, versions: nat)

  datatype Page = Page(items: seq<Item>, next: Option<Cursor>)

  datatype CursorError = InvalidCursor

  function Family(row: Artifact): nat {
    if row.root.Some? then row.root.value else row.id
  }

  predicate Older(a: Artifact, createdAt: int, id: nat) {
    a.createdAt < createdAt || (a.createdAt == createdAt && a.id < id)
  }

  predicate Before(a: Artifact, b: Artifact) {
    Older(a, b.createdAt, b.id)
  }

  predicate Scoped(row: Artifact, scope: Scope, asOf: int) {
    row.space == scope.space && row.user == scope.user && (scope.bot.Some? ==> row.bot == scope.bot) && row.createdAt <= asOf
  }

  // Primary key, and the unique index on (family, version).
  ghost predicate Keyed(db: set<Artifact>) {
    && (forall a, b :: a in db && b in db && a.id == b.id ==> a == b)
    && (forall a, b :: a in db && b in db && Family(a) == Family(b) && a.version == b.version ==> a == b)
  }

  // SELECT DISTINCT ON (family) ... ORDER BY family, version DESC
  function Latest(db: set<Artifact>, scope: Scope, asOf: int): set<Artifact> {
    set row | row in db && Scoped(row, scope, asOf)
              && forall other :: other in db && Scoped(other, scope, asOf) && Family(other) == Family(row) ==> other.version <= row.version
  }

  function VersionCount(db: set<Artifact>, scope: Scope, asOf: int, family: nat): nat {
    |set row | row in db && Scoped(row, scope, asOf) && Family(row) == family|
  }

  function Below(rows: set<Artifact>, createdAt: int, id: nat): set<Artifact> {
    set row | row in rows && Older(row, createdAt, id)
  }

  ghost predicate DistinctIds(rows: set<Artifact>) {
    forall a, b :: a in rows && b in rows && a.id == b.id ==> a == b
  }

  predicate IsNewest(rows: set<Artifact>, row: Artifact) {
    row in rows && forall other :: other in rows && other != row ==> Before(other, row)
  }

  lemma {:induction false} NewestExists(rows: set<Artifact>)
    requires rows != {} && DistinctIds(rows)
    ensures exists row :: IsNewest(rows, row)
  {
    var row :| row in rows;
    if rows == {row} {
      assert IsNewest(rows, row);
    } else {
      var rest := rows - {row};
      assert rest != {} by {
        assert rows == rest + {row};
      }
      NewestExists(rest);
      var newest :| IsNewest(rest, newest);
      assert IsNewest(rows, newest) || IsNewest(rows, row) by {
        assert newest.id != row.id;
        if Before(newest, row) {
          forall other | other in rows && other != row
            ensures Before(other, row)
          {
            assert other == newest || Before(other, newest);
          }
        }
      }
    }
  }

  // ORDER BY createdAt DESC, id DESC
  function Sorted(rows: set<Artifact>): seq<Artifact>
    decreases rows
  {
    if exists row :: row in rows && IsNewest(rows, row) then
      var newest :| newest in rows && IsNewest(rows, newest);
      [newest] + Sorted(rows - {newest})
    else []
  }

  function Take(limit: Option<int>): nat {
    var wanted := if limit.Some? then limit.value else 30;
    if wanted < 1 then 1 else if 60 < wanted then 60 else wanted
  }

  function Shown(db: set<Artifact>, scope: Scope, asOf: int, rows: seq<Artifact>): seq<Item> {
    seq(|rows|, i requires 0 <= i < |rows| => Item(Family(rows[i]), rows[i], VersionCount(db, scope, asOf, Family(rows[i]))))
  }

  // The cursor after the first n rows of a listing.
  function CursorAfter(rows: seq<Artifact>, n: nat, scope: Scope, asOf: int): Option<Cursor>
    requires n <= |rows|
  {
    if n == 0 then None else Some(Cursor(rows[n - 1].createdAt, rows[n - 1].id, scope.bot, asOf))
  }

  function Matching(db: set<Artifact>, scope: Scope, cursor: Option<Cursor>, asOf: int): seq<Artifact> {
    var latest := Latest(db, scope, asOf);
    Sorted(if cursor.Some? then Below(latest, cursor.value.createdAt, cursor.value.id) else latest)
  }

  // listSpaceArtifacts; `now` is read only for a first page
  function List(db: set<Artifact>, scope: Scope, cursor: Option<Cursor>, limit: Option<int>, now: int): Result<Page, CursorError> {
    if cursor.Some? && cursor.value.bot != scope.bot then Err(InvalidCursor)
    else
      var asOf := if cursor.Some? then cursor.value.asOf else now;
      var rows, take := Matching(db, scope, cursor, asOf), Take(limit);
      if |rows| > take then Ok(Page(Shown(db, scope, asOf, rows[..take]), CursorAfter(rows, take, scope, asOf)))
      else Ok(Page(Shown(db, scope, asOf, rows), None))
  }

  // ---------------------------------------------------------------- sorting

  ghost predicate Descending(rows: seq<Artifact>) {
    forall i, j :: 0 <= i < j < |rows| ==> Before(rows[j], rows[i])
  }

  lemma {:induction false} SortedHead(rows: set<Artifact>) returns (newest: Artifact)
    requires rows != {} && DistinctIds(rows)
    ensures IsNewest(rows, newest) && Sorted(rows) == [newest] + Sorted(rows - {newest})
  {
    NewestExists(rows);
    newest :| newest in rows && IsNewest(rows, newest);
    assert forall row :: IsNewest(rows, row) ==> row == newest;
  }

  lemma {:induction false} SortedIs(rows: set<Artifact>)
    requires DistinctIds(rows)
    ensures |Sorted(rows)| == |rows|
    ensures forall row :: row in Sorted(rows) <==> row in rows
    ensures Descending(Sorted(rows))
    decreases rows
  {
    if rows != {} {
      var newest := SortedHead(rows);
      var rest := Sorted(rows - {newest});
      SortedIs(rows - {newest});
      forall j | 0 <= j < |rest|
        ensures Before(rest[j], newest)
      {
        assert rest[j] in rest;
      }
    }
  }

  // What is older than the n-th row, sorted, is what follows it.
  lemma {:induction false} NewestNotBelow(rows: set<Artifact>, newest: Artifact, n: nat)
    requires DistinctIds(rows) && IsNewest(rows, newest) && 1 < n <= |Sorted(rows)| && Sorted(rows) == [newest] + Sorted(rows - {newest})
    ensures
      var last := Sorted(rows)[n - 1];
      Below(rows, last.createdAt, last.id) == Below(rows - {newest}, last.createdAt, last.id)
  {
    var rest := rows - {newest};
    SortedIs(rest);
    var last := Sorted(rest)[n - 2];
    assert last in Sorted(rest);
    assert Before(last, newest);
  }

  lemma {:induction false} SortedBelow(rows: set<Artifact>, n: nat)
    requires DistinctIds(rows) && 0 < n <= |Sorted(rows)|
    ensures
      var last := Sorted(rows)[n - 1];
      Sorted(Below(rows, last.createdAt, last.id)) == Sorted(rows)[n..]
    decreases rows
  {
    var newest := SortedHead(rows);
    var rest := rows - {newest};
    var last := Sorted(rows)[n - 1];
    if n == 1 {
      assert Below(rows, last.createdAt, last.id) == rest;
    } else {
      SortedBelow(rest, n - 1);
      assert last == Sorted(rest)[n - 2];
      NewestNotBelow(rows, newest, n);
    }
  }

  // ---------------------------------------------------------------- one page

  // The two databases hold the same rows dated at or before asOf.
  ghost predicate Frozen(db: set<Artifact>, db': set<Artifact>, asOf: int) {
    forall row: Artifact :: row.createdAt <= asOf ==> (row in db <==> row in db')
  }

  lemma {:induction false} FrozenLatest(db: set<Artifact>, db': set<Artifact>, scope: Scope, asOf: int)
    requires Frozen(db, db', asOf)
    ensures Latest(db', scope, asOf) == Latest(db, scope, asOf)
  {
  }

  lemma {:induction false} FrozenShown(db: set<Artifact>, db': set<Artifact>, scope: Scope, asOf: int, rows: seq<Artifact>)
    requires Frozen(db, db', asOf)
    ensures Shown(db', scope, asOf, rows) == Shown(db, scope, asOf, rows)
  {
    forall family
      ensures VersionCount(db', scope, asOf, family) == VersionCount(db, scope, asOf, family)
    {
      assert (set row | row in db && Scoped(row, scope, asOf) && Family(row) == family)
          == (set row | row in db' && Scoped(row, scope, asOf) && Family(row) == family);
    }
  }

  function Frozens(base: set<Artifact>, scope: Scope, asOf: int): seq<Artifact> {
    Sorted(Latest(base, scope, asOf))
  }

  function PageEnd(total: nat, n: nat, limit: Option<int>): nat
    requires n <= total
  {
    if total - n > Take(limit) then n + Take(limit) else total
  }

  lemma {:induction false} MatchingIs(base: set<Artifact>, db: set<Artifact>, scope: Scope, asOf: int, n: nat)
    requires Keyed(base) && Frozen(base, db, asOf) && n <= |Frozens(base, scope, asOf)|
    ensures Matching(db, scope, CursorAfter(Frozens(base, scope, asOf), n, scope, asOf), asOf) == Frozens(base, scope, asOf)[n..]
  {
    FrozenLatest(base, db, scope, asOf);
    if n > 0 {
      SortedBelow(Latest(base, scope, asOf), n);
    }
  }

  lemma {:induction false} PageIs(base: set<Artifact>, db: set<Artifact>, scope: Scope, limit: Option<int>, asOf: int, n: nat)
    requires Keyed(base) && Frozen(base, db, asOf) && n <= |Frozens(base, scope, asOf)|
    ensures
      var rows := Frozens(base, scope, asOf);
      var end := PageEnd(|rows|, n, limit);
      List(db, scope, CursorAfter(rows, n, scope, asOf), limit, asOf)
      == Ok(Page(Shown(base, scope, asOf, rows[n..end]), if end < |rows| then CursorAfter(rows, end, scope, asOf) else None))
  {
    var rows := Frozens(base, scope, asOf);
    var end := PageEnd(|rows|, n, limit);
    MatchingIs(base, db, scope, asOf, n);
    FrozenShown(base, db, scope, asOf, rows[n..end]);
    assert rows[n..][..end - n] == rows[n..end];
    assert end == |rows| ==> rows[n..end] == rows[n..];
  }

  // ---------------------------------------------------------------- following the cursor

  // One page read from each database in turn until there is no cursor, and the cursor left.
  function Follow(dbs: seq<set<Artifact>>, scope: Scope, cursor: Option<Cursor>, limit: Option<int>, now: int): (seq<Item>, Option<Cursor>)
    decreases |dbs|
  {
    if dbs == [] then ([], cursor)
    else
      var page := List(dbs[0], scope, cursor, limit, now);
      if page.Err? then ([], cursor)
      else if page.value.next.None? then (page.value.items, None)
      else
        var (rest, left) := Follow(dbs[1..], scope, page.value.next, limit, now);
        (page.value.items + rest, left)
  }

  lemma {:induction false} FollowFrozen(base: set<Artifact>, dbs: seq<set<Artifact>>, scope: Scope, limit: Option<int>, asOf: int, n: nat)
    requires Keyed(base) && forall db :: db in dbs ==> Frozen(base, db, asOf)
    requires n <= |Frozens(base, scope, asOf)| < n + |dbs|
    ensures
      var rows := Frozens(base, scope, asOf);
      Follow(dbs, scope, CursorAfter(rows, n, scope, asOf), limit, asOf) == (Shown(base, scope, asOf, rows[n..]), None)
    decreases |dbs|
  {
    var rows := Frozens(base, scope, asOf);
    var end := PageEnd(|rows|, n, limit);
    PageIs(base, dbs[0], scope, limit, asOf, n);
    if end < |rows| {
      FollowFrozen(base, dbs[1..], scope, limit, asOf, end);
      ShownJoins(base, scope, asOf, rows, n, end);
    } else {
      assert rows[n..end] == rows[n..];
    }
  }

  lemma {:induction false} ShownJoins(base: set<Artifact>, scope: Scope, asOf: int, rows: seq<Artifact>, n: nat, end: nat)
    requires n <= end <= |rows|
    ensures Shown(base, scope, asOf, rows[n..end]) + Shown(base, scope, asOf, rows[end..]) == Shown(base, scope, asOf, rows[n..])
  {
  }

  // Every family with a visible row has exactly one latest row.
  lemma {:induction false} LatestPerFamily(db: set<Artifact>, scope: Scope, asOf: int, row: Artifact) returns (latest: Artifact)
    requires row in db && Scoped(row, scope, asOf)
    ensures latest in Latest(db, scope, asOf) && Family(latest) == Family(row)
  {
    var members := set other | other in db && Scoped(other, scope, asOf) && Family(other) == Family(row);
    assert row in members;
    latest := HighestVersion(members);
  }

  lemma {:induction false} HighestVersion(rows: set<Artifact>) returns (highest: Artifact)
    requires rows != {}
    ensures highest in rows && forall row :: row in rows ==> row.version <= highest.version
    decreases rows
  {
    var row :| row in rows;
    highest := row;
    if rows != {row} {
      var rest := rows - {row};
      assert rows == rest + {row};
      var other := HighestVersion(rest);
      highest := if row.version <= other.version then other else row;
    }
  }

  lemma {:induction false} OneLatest(db: set<Artifact>, scope: Scope, asOf: int, a: Artifact, b: Artifact)
    requires Keyed(db) && a in Latest(db, scope, asOf) && b in Latest(db, scope, asOf)
    ensures Family(a) == Family(b) ==> a == b
  {
  }

  // Every visible family has an item.
  ghost predicate Covers(base: set<Artifact>, scope: Scope, asOf: int, items: seq<Item>) {
    forall row :: row in base && Scoped(row, scope, asOf) ==> exists i :: 0 <= i < |items| && items[i].family == Family(row)
  }

  // Every item is a family's latest row with its count.
  ghost predicate Sound(base: set<Artifact>, scope: Scope, asOf: int, items: seq<Item>) {
    forall i :: 0 <= i < |items| ==>
      && items[i].latest in Latest(base, scope, asOf)
      && items[i].family == Family(items[i].latest)
      && items[i].versions == VersionCount(base, scope, asOf, items[i].family)
  }

  ghost predicate OncePerFamily(items: seq<Item>) {
    forall i, j :: 0 <= i < j < |items| ==> items[i].family != items[j].family
  }

  ghost predicate Complete(base: set<Artifact>, scope: Scope, asOf: int, items: seq<Item>) {
    Ordered(items) && OncePerFamily(items) && Sound(base, scope, asOf, items) && Covers(base, scope, asOf, items)
  }

  lemma {:induction false} ShownCovers(base: set<Artifact>, scope: Scope, asOf: int)
    requires Keyed(base)
    ensures Covers(base, scope, asOf, Shown(base, scope, asOf, Frozens(base, scope, asOf)))
  {
    var rows := Frozens(base, scope, asOf);
    var items := Shown(base, scope, asOf, rows);
    SortedIs(Latest(base, scope, asOf));
    forall row | row in base && Scoped(row, scope, asOf)
      ensures exists i :: 0 <= i < |items| && items[i].family == Family(row)
    {
      var of := LatestPerFamily(base, scope, asOf, row);
      assert of in rows;
      var i :| 0 <= i < |rows| && rows[i] == of;
      assert items[i].family == Family(row);
    }
  }

  lemma {:induction false} ListedIsLatest(base: set<Artifact>, scope: Scope, asOf: int, i: nat)
    requires Keyed(base) && i < |Frozens(base, scope, asOf)|
    ensures Frozens(base, scope, asOf)[i] in Latest(base, scope, asOf)
  {
    SortedIs(Latest(base, scope, asOf));
    assert Frozens(base, scope, asOf)[i] in Frozens(base, scope, asOf);
  }

  lemma {:induction false} ListedOnce(base: set<Artifact>, scope: Scope, asOf: int, i: nat, j: nat)
    requires Keyed(base) && i < j < |Frozens(base, scope, asOf)|
    ensures Before(Frozens(base, scope, asOf)[j], Frozens(base, scope, asOf)[i])
    ensures Family(Frozens(base, scope, asOf)[i]) != Family(Frozens(base, scope, asOf)[j])
  {
    var rows := Frozens(base, scope, asOf);
    SortedIs(Latest(base, scope, asOf));
    ListedIsLatest(base, scope, asOf, i);
    ListedIsLatest(base, scope, asOf, j);
    OneLatest(base, scope, asOf, rows[i], rows[j]);
  }

  lemma {:induction false} ShownComplete(base: set<Artifact>, scope: Scope, asOf: int)
    requires Keyed(base)
    ensures Complete(base, scope, asOf, Shown(base, scope, asOf, Frozens(base, scope, asOf)))
  {
    var rows := Frozens(base, scope, asOf);
    forall i | 0 <= i < |rows|
      ensures rows[i] in Latest(base, scope, asOf)
    {
      ListedIsLatest(base, scope, asOf, i);
    }
    forall i, j | 0 <= i < j < |rows|
      ensures Before(rows[j], rows[i]) && Family(rows[i]) != Family(rows[j])
    {
      ListedOnce(base, scope, asOf, i, j);
    }
    ShownCovers(base, scope, asOf);
  }

  /**
   Following the cursor from a first page read at `asOf`, while rows dated after `asOf` come and
   go between pages, ends within one page more than there are families, and yields every family
   visible at `asOf` once, by its latest version then, with its version count, newest first.
   */
  lemma {:induction false} FrozenPaging(base: set<Artifact>, dbs: seq<set<Artifact>>, scope: Scope, limit: Option<int>, asOf: int)
    requires Keyed(base) && forall db :: db in dbs ==> Frozen(base, db, asOf)
    requires |Latest(base, scope, asOf)| < |dbs|
    ensures Follow(dbs, scope, None, limit, asOf).1.None?
    ensures Complete(base, scope, asOf, Follow(dbs, scope, None, limit, asOf).0)
  {
    SortedIs(Latest(base, scope, asOf));
    FollowFrozen(base, dbs, scope, limit, asOf, 0);
    ShownComplete(base, scope, asOf);
    assert Frozens(base, scope, asOf)[0..] == Frozens(base, scope, asOf);
  }

  // ---------------------------------------------------------------- any table history

  ghost predicate Ordered(items: seq<Item>) {
    forall i, j :: 0 <= i < j < |items| ==> Before(items[j].latest, items[i].latest)
  }

  ghost predicate AllOlder(items: seq<Item>, cursor: Option<Cursor>) {
    cursor.Some? ==> forall i :: 0 <= i < |items| ==> Older(items[i].latest, cursor.value.createdAt, cursor.value.id)
  }

  predicate EndsAt(items: seq<Item>, cursor: Cursor) {
    items != [] && items[|items| - 1].latest.createdAt == cursor.createdAt && items[|items| - 1].latest.id == cursor.id
  }

  lemma {:induction false} OrderedJoins(items: seq<Item>, rest: seq<Item>, cursor: Option<Cursor>, next: Cursor)
    requires Ordered(items) && Ordered(rest) && EndsAt(items, next) && AllOlder(rest, Some(next)) && AllOlder(items, cursor)
    ensures Ordered(items + rest) && AllOlder(items + rest, cursor)
  {
  }

  lemma {:induction false} MatchingOrdered(db: set<Artifact>, scope: Scope, cursor: Option<Cursor>, asOf: int)
    requires Keyed(db)
    ensures
      var rows := Matching(db, scope, cursor, asOf);
      Descending(rows) && forall i :: 0 <= i < |rows| && cursor.Some? ==> Older(rows[i], cursor.value.createdAt, cursor.value.id)
  {
    var latest := Latest(db, scope, asOf);
    var matching := if cursor.Some? then Below(latest, cursor.value.createdAt, cursor.value.id) else latest;
    SortedIs(matching);
    assert forall i :: 0 <= i < |Sorted(matching)| ==> Sorted(matching)[i] in Sorted(matching);
  }

  lemma {:induction false} ShownOrdered(db: set<Artifact>, scope: Scope, asOf: int, rows: seq<Artifact>, cursor: Option<Cursor>)
    requires Descending(rows)
    requires forall i :: 0 <= i < |rows| && cursor.Some? ==> Older(rows[i], cursor.value.createdAt, cursor.value.id)
    ensures Ordered(Shown(db, scope, asOf, rows)) && AllOlder(Shown(db, scope, asOf, rows), cursor)
  {
  }

  lemma {:induction false} ListOrdered(db: set<Artifact>, scope: Scope, cursor: Option<Cursor>, limit: Option<int>, now: int)
    requires Keyed(db) && List(db, scope, cursor, limit, now).Ok?
    ensures
      var page := List(db, scope, cursor, limit, now).value;
      Ordered(page.items) && AllOlder(page.items, cursor) && (page.next.Some? ==> EndsAt(page.items, page.next.value))
  {
    var asOf := if cursor.Some? then cursor.value.asOf else now;
    var rows, take := Matching(db, scope, cursor, asOf), Take(limit);
    MatchingOrdered(db, scope, cursor, asOf);
    ShownOrdered(db, scope, asOf, if |rows| > take then rows[..take] else rows, cursor);
  }

  /** Whatever happens to the table between pages, the order never turns, so no row is shown twice. */
  lemma {:induction false} PagingNeverTurns(dbs: seq<set<Artifact>>, scope: Scope, cursor: Option<Cursor>, limit: Option<int>, now: int)
    requires forall db :: db in dbs ==> Keyed(db)
    ensures Ordered(Follow(dbs, scope, cursor, limit, now).0) && AllOlder(Follow(dbs, scope, cursor, limit, now).0, cursor)
    decreases |dbs|
  {
    if dbs != [] {
      var page := List(dbs[0], scope, cursor, limit, now);
      if page.Ok? {
        ListOrdered(dbs[0], scope, cursor, limit, now);
        if page.value.next.Some? {
          PagingNeverTurns(dbs[1..], scope, page.value.next, limit, now);
          OrderedJoins(page.value.items, Follow(dbs[1..], scope, page.value.next, limit, now).0, cursor, page.value.next.value);
        }
      }
    }
  }

  // ---------------------------------------------------------------- deletions between the pages

  // The family's rows dated at or before asOf are the same.
  ghost predicate FamilyKept(base: set<Artifact>, db: set<Artifact>, family: nat, asOf: int) {
    forall row: Artifact :: row.createdAt <= asOf && Family(row) == family ==> (row in db <==> row in base)
  }

  // The cursor belongs to this listing, and the row is still to come.
  predicate Awaited(latest: Artifact, scope: Scope, cursor: Option<Cursor>, asOf: int) {
    OfListing(scope, cursor, asOf) && (cursor.Some? ==> Older(latest, cursor.value.createdAt, cursor.value.id))
  }

  predicate OfListing(scope: Scope, cursor: Option<Cursor>, asOf: int) {
    cursor.Some? ==> cursor.value.bot == scope.bot && cursor.value.asOf == asOf
  }

  function ItemOf(base: set<Artifact>, scope: Scope, asOf: int, latest: Artifact): Item {
    Item(Family(latest), latest, VersionCount(base, scope, asOf, Family(latest)))
  }

  lemma {:induction false} KeptLatest(base: set<Artifact>, db: set<Artifact>, scope: Scope, asOf: int, latest: Artifact)
    requires latest in Latest(base, scope, asOf) && FamilyKept(base, db, Family(latest), asOf)
    ensures latest in Latest(db, scope, asOf)
    ensures ItemOf(db, scope, asOf, latest) == ItemOf(base, scope, asOf, latest)
  {
    assert (set row | row in db && Scoped(row, scope, asOf) && Family(row) == Family(latest))
        == (set row | row in base && Scoped(row, scope, asOf) && Family(row) == Family(latest));
  }

  lemma {:induction false} MatchingHas(db: set<Artifact>, scope: Scope, cursor: Option<Cursor>, asOf: int, row: Artifact)
    requires Keyed(db)
    ensures row in Matching(db, scope, cursor, asOf)
            <==> row in Latest(db, scope, asOf) && (cursor.Some? ==> Older(row, cursor.value.createdAt, cursor.value.id))
  {
    var latest := Latest(db, scope, asOf);
    SortedIs(if cursor.Some? then Below(latest, cursor.value.createdAt, cursor.value.id) else latest);
  }

  // A page shows a row still to come, or ends before it.
  lemma {:induction false} ListFinds(db: set<Artifact>, scope: Scope, cursor: Option<Cursor>, limit: Option<int>, asOf: int, latest: Artifact)
    requires Keyed(db) && latest in Latest(db, scope, asOf) && Awaited(latest, scope, cursor, asOf)
    ensures List(db, scope, cursor, limit, asOf).Ok?
    ensures
      var page := List(db, scope, cursor, limit, asOf).value;
      ItemOf(db, scope, asOf, latest) in page.items || (page.next.Some? && Awaited(latest, scope, page.next, asOf))
  {
    var rows, take := Matching(db, scope, cursor, asOf), Take(limit);
    MatchingHas(db, scope, cursor, asOf, latest);
    MatchingOrdered(db, scope, cursor, asOf);
    var k :| 0 <= k < |rows| && rows[k] == latest;
    var shown := if |rows| > take then rows[..take] else rows;
    if k < |shown| {
      assert Shown(db, scope, asOf, shown)[k] == ItemOf(db, scope, asOf, latest);
    } else {
      assert Before(rows[k], rows[take - 1]);
    }
  }

  // Every item of a page is its family's.
  lemma {:induction false} ListItems(db: set<Artifact>, scope: Scope, cursor: Option<Cursor>, limit: Option<int>, asOf: int, latest: Artifact)
    requires Keyed(db) && latest in Latest(db, scope, asOf) && OfListing(scope, cursor, asOf)
    ensures List(db, scope, cursor, limit, asOf).Ok?
    ensures
      var page := List(db, scope, cursor, limit, asOf).value;
      && OfListing(scope, page.next, asOf)
      && forall item :: item in page.items && item.family == Family(latest) ==> item == ItemOf(db, scope, asOf, latest)
  {
    var rows, take := Matching(db, scope, cursor, asOf), Take(limit);
    var page := List(db, scope, cursor, limit, asOf).value;
    var shown := if |rows| > take then rows[..take] else rows;
    forall item | item in page.items && item.family == Family(latest)
      ensures item == ItemOf(db, scope, asOf, latest)
    {
      var i :| 0 <= i < |page.items| && page.items[i] == item;
      assert item == ItemOf(db, scope, asOf, shown[i]) && shown[i] in rows;
      MatchingHas(db, scope, cursor, asOf, shown[i]);
      OneLatest(db, scope, asOf, shown[i], latest);
    }
  }

  ghost predicate AllKept(base: set<Artifact>, dbs: seq<set<Artifact>>, family: nat, asOf: int) {
    forall db :: db in dbs ==> Keyed(db) && FamilyKept(base, db, family, asOf)
  }

  lemma {:induction false} FollowItems(base: set<Artifact>, dbs: seq<set<Artifact>>, scope: Scope, cursor: Option<Cursor>, limit: Option<int>,
                                       asOf: int, latest: Artifact)
    requires latest in Latest(base, scope, asOf) && AllKept(base, dbs, Family(latest), asOf) && OfListing(scope, cursor, asOf)
    ensures forall item :: item in Follow(dbs, scope, cursor, limit, asOf).0 && item.family == Family(latest) ==>
              item == ItemOf(base, scope, asOf, latest)
    decreases |dbs|
  {
    if dbs != [] {
      KeptLatest(base, dbs[0], scope, asOf, latest);
      ListItems(dbs[0], scope, cursor, limit, asOf, latest);
      var page := List(dbs[0], scope, cursor, limit, asOf).value;
      if page.next.Some? {
        FollowItems(base, dbs[1..], scope, page.next, limit, asOf, latest);
      }
    }
  }

  lemma {:induction false} FollowFinds(base: set<Artifact>, dbs: seq<set<Artifact>>, scope: Scope, cursor: Option<Cursor>, limit: Option<int>,
                                       asOf: int, latest: Artifact)
    requires latest in Latest(base, scope, asOf) && AllKept(base, dbs, Family(latest), asOf) && Awaited(latest, scope, cursor, asOf)
    requires dbs != [] && Follow(dbs, scope, cursor, limit, asOf).1.None?
    ensures ItemOf(base, scope, asOf, latest) in Follow(dbs, scope, cursor, limit, asOf).0
    decreases |dbs|
  {
    KeptLatest(base, dbs[0], scope, asOf, latest);
    ListFinds(dbs[0], scope, cursor, limit, asOf, latest);
    var page := List(dbs[0], scope, cursor, limit, asOf).value;
    if ItemOf(base, scope, asOf, latest) !in page.items {
      FollowFinds(base, dbs[1..], scope, page.next, limit, asOf, latest);
    }
  }

  /**
   Whatever else is deleted or inserted between the pages, a family whose own rows dated at or
   before `asOf` are left alone is yielded exactly once by a reader who reaches the end.
   */
  lemma {:induction false} UntouchedFamilyOnce(base: set<Artifact>, dbs: seq<set<Artifact>>, scope: Scope, limit: Option<int>, asOf: int,
                                               latest: Artifact)
    requires latest in Latest(base, scope, asOf) && AllKept(base, dbs, Family(latest), asOf)
    requires dbs != [] && Follow(dbs, scope, None, limit, asOf).1.None?
    ensures
      var items := Follow(dbs, scope, None, limit, asOf).0;
      exists i :: 0 <= i < |items| && items[i] == ItemOf(base, scope, asOf, latest)
        && forall j :: 0 <= j < |items| && items[j].family == Family(latest) ==> j == i
  {
    FollowItems(base, dbs, scope, None, limit, asOf, latest);
    FollowFinds(base, dbs, scope, None, limit, asOf, latest);
    PagingNeverTurns(dbs, scope, None, limit, asOf);
    var items, item := Follow(dbs, scope, None, limit, asOf).0, ItemOf(base, scope, asOf, latest);
    var i :| 0 <= i < |items| && items[i] == item;
    forall j | 0 <= j < |items| && items[j].family == Family(latest)
      ensures j == i
    {
      assert items[j] in items && items[j] == item;
    }
  }

  // The visible rows a listing can still reach.
  function Reachable(base: set<Artifact>, scope: Scope, cursor: Option<Cursor>, asOf: int): set<Artifact> {
    set row | row in base && Scoped(row, scope, asOf) && (cursor.Some? ==> Older(row, cursor.value.createdAt, cursor.value.id))
  }

  // Rows dated at or before asOf are only ever deleted.
  ghost predicate OnlyDeleted(base: set<Artifact>, db: set<Artifact>, asOf: int) {
    Keyed(db) && forall row :: row in db && row.createdAt <= asOf ==> row in base
  }

  // A page with a cursor has moved past a reachable row.
  lemma {:induction false} ListMoves(base: set<Artifact>, db: set<Artifact>, scope: Scope, cursor: Option<Cursor>, limit: Option<int>, asOf: int)
    requires OnlyDeleted(base, db, asOf) && OfListing(scope, cursor, asOf)
    requires List(db, scope, cursor, limit, asOf).Ok? && List(db, scope, cursor, limit, asOf).value.next.Some?
    ensures
      var next := List(db, scope, cursor, limit, asOf).value.next;
      OfListing(scope, next, asOf) && |Reachable(base, scope, next, asOf)| < |Reachable(base, scope, cursor, asOf)|
  {
    var rows, take := Matching(db, scope, cursor, asOf), Take(limit);
    var last := rows[take - 1];
    MatchingHas(db, scope, cursor, asOf, last);
    var next := List(db, scope, cursor, limit, asOf).value.next;
    var before, after := Reachable(base, scope, cursor, asOf), Reachable(base, scope, next, asOf);
    assert last in before && last !in after && after <= before - {last};
    SubsetSize(after, before - {last});
  }

  /** While rows are only deleted, following the cursor ends. */
  lemma {:induction false} DeletionsEnd(base: set<Artifact>, dbs: seq<set<Artifact>>, scope: Scope, cursor: Option<Cursor>, limit: Option<int>, asOf: int)
    requires forall db :: db in dbs ==> OnlyDeleted(base, db, asOf)
    requires OfListing(scope, cursor, asOf) && |Reachable(base, scope, cursor, asOf)| < |dbs|
    ensures Follow(dbs, scope, cursor, limit, asOf).1.None?
    decreases |dbs|
  {
    var page := List(dbs[0], scope, cursor, limit, asOf);
    assert page.Ok?;
    if page.value.next.Some? {
      ListMoves(base, dbs[0], scope, cursor, limit, asOf);
      DeletionsEnd(base, dbs[1..], scope, page.value.next, limit, asOf);
    }
  }

  // ---------------------------------------------------------------- one page in its own terms

  /**
   A page holds at most sixty items, thirty when no limit is given, and is full if there is a
   cursor. Each item is the highest version, among the rows of the actor's own (and of the bot asked
   for) dated at or before the listing's time, of a family it counts the versions of.
   */
  lemma {:induction false} PageMeans(db: set<Artifact>, scope: Scope, cursor: Option<Cursor>, limit: Option<int>, now: int)
    requires Keyed(db) && List(db, scope, cursor, limit, now).Ok?
    ensures
      var page := List(db, scope, cursor, limit, now).value;
      var asOf := if cursor.Some? then cursor.value.asOf else now;
      && |page.items| <= 60 && (limit.None? ==> |page.items| <= 30) && (limit.Some? && 1 <= limit.value ==> |page.items| <= limit.value)
      && (page.next.Some? ==> page.items != [] && (limit.None? ==> |page.items| == 30)
                              && (limit.Some? && 1 <= limit.value <= 60 ==> |page.items| == limit.value))
      && forall item :: item in page.items ==> ItemMeans(db, scope, asOf, item)
  {
    var asOf := if cursor.Some? then cursor.value.asOf else now;
    var rows, take := Matching(db, scope, cursor, asOf), Take(limit);
    var shown := if |rows| > take then rows[..take] else rows;
    var page := List(db, scope, cursor, limit, now).value;
    forall item | item in page.items
      ensures ItemMeans(db, scope, asOf, item)
    {
      var i :| 0 <= i < |page.items| && page.items[i] == item;
      assert item == ItemOf(db, scope, asOf, shown[i]) && shown[i] in rows;
      MatchingHas(db, scope, cursor, asOf, shown[i]);
      VersionsMean(db, scope, asOf, shown[i]);
    }
  }

  ghost predicate Own(row: Artifact, scope: Scope, asOf: int) {
    row.space == scope.space && row.user == scope.user && (scope.bot == None || row.bot == scope.bot) && row.createdAt <= asOf
  }

  ghost predicate ItemMeans(db: set<Artifact>, scope: Scope, asOf: int, item: Item) {
    var latest := item.latest;
    && latest in db && Own(latest, scope, asOf)
    && item.family == (if latest.root.Some? then latest.root.value else latest.id)
    && (forall row :: row in db && Own(row, scope, asOf) && Family(row) == item.family ==> row.version <= latest.version)
    && item.versions == |set row | row in db && Own(row, scope, asOf) && Family(row) == item.family|
  }

  lemma {:induction false} VersionsMean(db: set<Artifact>, scope: Scope, asOf: int, latest: Artifact)
    requires latest in Latest(db, scope, asOf)
    ensures ItemMeans(db, scope, asOf, ItemOf(db, scope, asOf, latest))
  {
    assert (set row | row in db && Scoped(row, scope, asOf) && Family(row) == Family(latest))
        == (set row | row in db && Own(row, scope, asOf) && Family(row) == Family(latest));
  }
}
