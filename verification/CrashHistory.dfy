/**
 Keyset pagination of a player's round history
 (apps/api/src/crash/crash-history.service.ts).  Rows are ordered newest first by
 creation time and then by identifier; `id` is the identifier's place in the
 database's text order.  The table may gain and lose rows between two requests.
 */
module CrashHistory {
  import opened Support

  datatype Key = Key(createdAt: int, id: int)

  predicate Before(a: Key, b: Key) {
    a.createdAt < b.createdAt || (a.createdAt == b.createdAt && a.id < b.id)
  }

  /** A player's rows as the query orders them: strictly descending. */
  ghost predicate Descending(rows: seq<Key>) {
    forall i, j :: 0 <= i < j < |rows| ==> Before(rows[j], rows[i])
  }

  predicate Admits(cursor: Option<Key>, key: Key) {
    cursor.None? || Before(key, cursor.value)
  }

  /** The rows past the cursor, in order. */
  function Past(rows: seq<Key>, cursor: Option<Key>): seq<Key> {
    if rows == [] then []
    else (if Admits(cursor, rows[0]) then [rows[0]] else []) + Past(rows[1..], cursor)
  }

  datatype Page = Page(visible: seq<Key>, hasMore: bool, next: Option<Key>)

  function Take(rows: seq<Key>, n: nat): seq<Key> {
    if |rows| <= n then rows else rows[..n]
  }

  /** One row more than asked for is fetched; it only tells whether there is a next page. */
  function PageOf(rows: seq<Key>, cursor: Option<Key>, limit: nat): (page: Page)
    requires limit > 0
    ensures page.visible == Take(Past(rows, cursor), limit)
    ensures page.hasMore <==> |Past(rows, cursor)| > limit
    ensures page.next == if page.hasMore then Some(Past(rows, cursor)[limit - 1]) else None
  {
    var fetched := Take(Past(rows, cursor), limit + 1);
    var visible := Take(fetched, limit);
    var more := |fetched| > limit;
    Page(visible, more, if more then Some(visible[|visible| - 1]) else None)
  }

  lemma {:induction false} PastIsFilter(rows: seq<Key>, cursor: Option<Key>, key: Key)
    ensures key in Past(rows, cursor) <==> key in rows && Admits(cursor, key)
  {
    if rows != [] {
      PastIsFilter(rows[1..], cursor, key);
      assert rows == [rows[0]] + rows[1..];
    }
  }

  lemma {:induction false} PastDescends(rows: seq<Key>, cursor: Option<Key>)
    requires Descending(rows)
    ensures Descending(Past(rows, cursor))
  {
    if rows != [] {
      PastDescends(rows[1..], cursor);
      var past := Past(rows[1..], cursor);
      forall j | 0 <= j < |past| ensures Before(past[j], rows[0]) {
        PastIsFilter(rows[1..], cursor, past[j]);
        var i :| 0 <= i < |rows[1..]| && rows[1..][i] == past[j];
        assert rows[i + 1] == past[j];
      }
    }
  }

  /** What a client sees that follows cursors, the `k`-th request finding the `k`-th table. */
  function Walk(tables: seq<seq<Key>>, cursor: Option<Key>, limit: nat): seq<Key>
    requires limit > 0
  {
    if tables == [] then []
    else
      var page := PageOf(tables[0], cursor, limit);
      page.visible + (if page.hasMore then Walk(tables[1..], page.next, limit) else [])
  }

  /** The walk reached a page with no next cursor. */
  predicate Finished(tables: seq<seq<Key>>, cursor: Option<Key>, limit: nat)
    requires limit > 0
  {
    tables != [] && (
      var page := PageOf(tables[0], cursor, limit);
      page.hasMore ==> Finished(tables[1..], page.next, limit))
  }

  /** No row is shown twice and the order never breaks, whatever happens to the table between requests. */
  lemma {:induction false} WalkDescends(tables: seq<seq<Key>>, cursor: Option<Key>, limit: nat)
    requires limit > 0 && forall k :: 0 <= k < |tables| ==> Descending(tables[k])
    ensures Descending(Walk(tables, cursor, limit))
    ensures forall j :: 0 <= j < |Walk(tables, cursor, limit)| ==> Admits(cursor, Walk(tables, cursor, limit)[j])
  {
    if tables != [] {
      var page := PageOf(tables[0], cursor, limit);
      PastDescends(tables[0], cursor);
      forall j | 0 <= j < |page.visible| ensures Admits(cursor, page.visible[j]) {
        PastIsFilter(tables[0], cursor, page.visible[j]);
      }
      if page.hasMore {
        WalkDescends(tables[1..], page.next, limit);
        JoinDescends(page.visible, Walk(tables[1..], page.next, limit), cursor);
      }
    }
  }

  lemma JoinDescends(a: seq<Key>, b: seq<Key>, cursor: Option<Key>)
    requires a != [] && Descending(a) && Descending(b)
    requires forall j :: 0 <= j < |b| ==> Before(b[j], a[|a| - 1])
    requires forall j :: 0 <= j < |a| ==> Admits(cursor, a[j])
    ensures Descending(a + b) && forall j :: 0 <= j < |a + b| ==> Admits(cursor, (a + b)[j])
  {
    assert forall i :: 0 <= i < |a| - 1 ==> Before(a[|a| - 1], a[i]);
  }

  /** A row past the cursor is on the page, or past the page's own cursor. */
  lemma PageCovers(rows: seq<Key>, cursor: Option<Key>, limit: nat, key: Key)
    requires limit > 0 && Descending(rows) && key in rows && Admits(cursor, key)
    ensures var page := PageOf(rows, cursor, limit);
            key in page.visible || (page.hasMore && Admits(page.next, key))
  {
    var page, past := PageOf(rows, cursor, limit), Past(rows, cursor);
    PastDescends(rows, cursor);
    PastIsFilter(rows, cursor, key);
    var j :| 0 <= j < |past| && past[j] == key;
    if j < |page.visible| {
      assert page.visible[j] == key;
    }
  }

  /** A finished walk shows every row that was there throughout. */
  lemma {:induction false} WalkIsComplete(tables: seq<seq<Key>>, cursor: Option<Key>, limit: nat, key: Key)
    requires limit > 0 && forall k :: 0 <= k < |tables| ==> Descending(tables[k]) && key in tables[k]
    requires Admits(cursor, key) && Finished(tables, cursor, limit)
    ensures key in Walk(tables, cursor, limit)
  {
    hide Descending, PageOf;
    PageCovers(tables[0], cursor, limit, key);
    if key !in PageOf(tables[0], cursor, limit).visible {
      WalkIsComplete(tables[1..], PageOf(tables[0], cursor, limit).next, limit, key);
    }
  }

  lemma DescendingDistinct(rows: seq<Key>, i: nat, j: nat)
    requires Descending(rows) && i < |rows| && j < |rows| && rows[i] == rows[j]
    ensures i == j
  {
  }

  ghost predicate ShownOnce(walk: seq<Key>, key: Key) {
    exists i :: 0 <= i < |walk| && walk[i] == key && forall j :: 0 <= j < |walk| && walk[j] == key ==> j == i
  }

  /** Followed to its end, the history shows every row that was there throughout exactly once. */
  lemma EveryRowExactlyOnce(tables: seq<seq<Key>>, limit: nat, key: Key)
    requires limit > 0 && forall k :: 0 <= k < |tables| ==> Descending(tables[k]) && key in tables[k]
    requires Finished(tables, None, limit)
    ensures ShownOnce(Walk(tables, None, limit), key)
  {
    WalkDescends(tables, None, limit);
    WalkIsComplete(tables, None, limit, key);
    hide Walk, Finished;
    var walk := Walk(tables, None, limit);
    var i :| 0 <= i < |walk| && walk[i] == key;
    forall j | 0 <= j < |walk| && walk[j] == key ensures j == i {
      DescendingDistinct(walk, i, j);
    }
  }

  /** On an unchanging table the concatenated pages are the sorted table itself. */
  lemma {:induction false} UnchangedWalkIsTable(rows: seq<Key>, pages: nat, cursor: Option<Key>, limit: nat)
    requires limit > 0 && Descending(rows) && |Past(rows, cursor)| <= pages * limit && pages > 0
    ensures Walk(seq(pages, _ => rows), cursor, limit) == Past(rows, cursor)
    decreases pages
  {
    hide Walk, Past, Descending;
    var page, past := PageOf(rows, cursor, limit), Past(rows, cursor);
    WalkTurns(rows, pages, cursor, limit);
    if page.hasMore {
      FewerPages(|past|, pages, limit);
      PastTwice(rows, cursor, limit);
      UnchangedWalkIsTable(rows, pages - 1, page.next, limit);
      assert past == past[..limit] + past[limit..];
    }
  }

  lemma WalkTurns(rows: seq<Key>, pages: nat, cursor: Option<Key>, limit: nat)
    requires limit > 0 && pages > 0
    ensures var page := PageOf(rows, cursor, limit);
            Walk(seq(pages, _ => rows), cursor, limit)
            == page.visible + (if page.hasMore then Walk(seq(pages - 1, _ => rows), page.next, limit) else [])
  {
    hide PageOf;
    var tables := seq(pages, _ => rows);
    assert tables[0] == rows && tables[1..] == seq(pages - 1, _ => rows);
  }

  lemma FewerPages(n: nat, pages: nat, limit: nat)
    requires limit < n <= pages * limit
    ensures pages > 1 && n - limit <= (pages - 1) * limit
  {
  }

  /** What lies past the page's last row is the rest of what lay past the cursor. */
  lemma PastTwice(rows: seq<Key>, cursor: Option<Key>, limit: nat)
    requires limit > 0 && Descending(rows) && |Past(rows, cursor)| > limit
    ensures Past(rows, PageOf(rows, cursor, limit).next) == Past(rows, cursor)[limit..]
  {
    var past := Past(rows, cursor);
    PastDescends(rows, cursor);
    var next := Some(past[limit - 1]);
    var again := Past(rows, next);
    PastDescends(rows, next);
    forall key ensures key in again <==> key in past[limit..] {
      PastIsFilter(rows, cursor, key);
      PastIsFilter(rows, next, key);
      InTail(past, limit, key);
      PastIsFilter(rows, cursor, past[limit - 1]);
    }
    SameDescending(again, past[limit..]);
  }

  lemma InTail(past: seq<Key>, limit: nat, key: Key)
    requires 0 < limit < |past| && Descending(past)
    ensures key in past[limit..] <==> key in past && Before(key, past[limit - 1])
  {
    if key in past[limit..] {
      var j :| 0 <= j < |past[limit..]| && past[limit..][j] == key;
      assert past[limit + j] == key;
    }
    if key in past && Before(key, past[limit - 1]) {
      var j :| 0 <= j < |past| && past[j] == key;
      assert j < limit - 1 ==> Before(past[limit - 1], past[j]);
      assert j >= limit;
      assert past[limit..][j - limit] == key;
    }
  }

  lemma {:induction false} SameDescending(a: seq<Key>, b: seq<Key>)
    requires Descending(a) && Descending(b) && forall key :: key in a <==> key in b
    ensures a == b
  {
    HeadIn(a);
    HeadIn(b);
    if a != [] && b != [] {
      assert a[0] in b && b[0] in a;
      assert a[0] == b[0];
      forall key ensures key in a[1..] <==> key in b[1..] {
        TailMembers(a, key);
        TailMembers(b, key);
      }
      SameDescending(a[1..], b[1..]);
    }
  }

  lemma HeadIn(rows: seq<Key>)
    ensures rows != [] ==> rows[0] in rows
  {
  }

  lemma TailMembers(rows: seq<Key>, key: Key)
    requires rows != [] && Descending(rows)
    ensures key in rows[1..] <==> key in rows && key != rows[0]
  {
    assert rows == [rows[0]] + rows[1..];
    forall j | 0 <= j < |rows[1..]| ensures rows[1..][j] != rows[0] {
      assert Before(rows[j + 1], rows[0]);
    }
  }
}
