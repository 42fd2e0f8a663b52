/** The admin listing: cursor paging by descending id, with one row fetched beyond the page. */
module Admin {
  import opened Common
  import opened Notifications

  // ---------------------------------------------------------------- ORDER BY id DESC

  predicate IsLargest(x: Id, s: set<Id>) {
    x in s && forall y :: y in s ==> y <= x
  }

  lemma {:induction false} LargestExists(s: set<Id>)
    requires s != {}
    ensures exists x :: IsLargest(x, s)
    decreases |s|
  {
    var x :| x in s;
    if s - {x} == {} {
      assert s == {x};
      assert IsLargest(x, s);
    } else {
      LargestExists(s - {x});
      var z :| IsLargest(z, s - {x});
      LargestOfTwo(x, z, s);
    }
  }

  lemma LargestOfTwo(x: Id, z: Id, s: set<Id>)
    requires x in s && IsLargest(z, s - {x})
    ensures IsLargest(if z < x then x else z, s)
  {
    forall y | y in s ensures y <= x || y <= z {
      if y != x { assert y in s - {x}; }
    }
  }

  function Largest(s: set<Id>): (x: Id)
    requires s != {}
    ensures IsLargest(x, s)
  {
    LargestExists(s);
    var x :| IsLargest(x, s);
    x
  }

  function Descending(s: set<Id>): seq<Id>
    decreases |s|
  {
    if s == {} then [] else [Largest(s)] + Descending(s - {Largest(s)})
  }

  predicate StrictlyDescending(ids: seq<Id>) {
    forall i, j :: 0 <= i < j < |ids| ==> ids[i] > ids[j]
  }

  lemma {:induction false} DescendingIsSorted(s: set<Id>)
    ensures StrictlyDescending(Descending(s))
    ensures forall id :: id in Descending(s) <==> id in s
    ensures |Descending(s)| == |s|
    decreases |s|
  {
    if s != {} {
      var m := Largest(s);
      DescendingIsSorted(s - {m});
      Prepend(m, Descending(s - {m}), s);
    }
  }

  lemma Prepend(m: Id, rest: seq<Id>, s: set<Id>)
    requires m in s && (forall y :: y in s ==> y <= m)
    requires StrictlyDescending(rest) && (forall id :: id in rest <==> id in s - {m}) && |rest| == |s - {m}|
    ensures StrictlyDescending([m] + rest)
    ensures forall id :: id in [m] + rest <==> id in s
    ensures |[m] + rest| == |s|
  {
    forall j | 0 <= j < |rest| ensures rest[j] < m {
      assert rest[j] in rest;
    }
  }

  /** A strictly descending sequence is determined by its members. */
  lemma {:induction false} DescendingUnique(ids: seq<Id>, s: set<Id>)
    requires StrictlyDescending(ids) && HasMembers(ids, s)
    ensures ids == Descending(s)
    decreases |ids|
  {
    if ids == [] {
      assert s == {};
    } else {
      Behead(ids, s);
      DescendingUnique(ids[1..], s - {ids[0]});
    }
  }

  ghost predicate HasMembers(ids: seq<Id>, s: set<Id>) {
    forall id :: id in ids <==> id in s
  }

  lemma Behead(ids: seq<Id>, s: set<Id>)
    requires StrictlyDescending(ids) && HasMembers(ids, s) && ids != []
    ensures s != {} && ids[0] == Largest(s)
    ensures StrictlyDescending(ids[1..]) && HasMembers(ids[1..], s - {ids[0]})
  {
    assert ids[0] in s;
    var m := Largest(s);
    assert IsLargest(m, s) && m in ids;
    forall id ensures id in ids[1..] <==> id in s - {ids[0]} {
      if id in ids[1..] {
        var i :| 1 <= i < |ids| && ids[i] == id;
        assert id in ids;
      }
      if id in s - {ids[0]} {
        assert id in ids;
        var i :| 0 <= i < |ids| && ids[i] == id;
        assert ids[1..][i - 1] == id;
      }
    }
  }

  // ---------------------------------------------------------------- one page

  predicate HasStatus(r: Row, status: Option<Status>) {
    status.None? || r.status == status.value
  }

  predicate Before(id: Id, cursor: Option<Id>) {
    cursor.None? || id < cursor.value
  }

  function Matching(rows: map<Id, Row>, status: Option<Status>, cursor: Option<Id>): set<Id> {
    set id | id in rows && HasStatus(rows[id], status) && Before(id, cursor)
  }

  /** The repository's query, on what the replica shows. */
  function Fetch(rows: map<Id, Row>, status: Option<Status>, cursor: Option<Id>, limit: nat): seq<Id> {
    var all := Descending(Matching(rows, status, cursor));
    if |all| <= limit then all else all[..limit]
  }

  datatype Page = Page(items: seq<Id>, nextCursor: Option<Id>)

  function List(rows: map<Id, Row>, status: Option<Status>, limit: nat, cursor: Option<Id>): Page
    requires limit >= 1
  {
    var fetched := Fetch(rows, status, cursor, limit + 1);
    var hasMore := |fetched| > limit;
    var items := if hasMore then fetched[..limit] else fetched;
    Page(items, if hasMore then Some(items[|items| - 1]) else None)
  }

  /** A page lists the largest matching ids below the cursor; a next cursor is its last id and means more remain. */
  lemma PageIsPrefix(rows: map<Id, Row>, status: Option<Status>, limit: nat, cursor: Option<Id>)
    requires limit >= 1
    ensures var p := List(rows, status, limit, cursor);
            var all := Descending(Matching(rows, status, cursor));
            && |p.items| <= |all| && p.items == all[..|p.items|]
            && (p.nextCursor.None? ==> p.items == all)
            && (p.nextCursor.Some? ==> |p.items| == limit < |all| && p.nextCursor.value == p.items[limit - 1])
  {
  }

  /** What a page shows and what it leaves for the next one. */
  lemma PageSplits(rows: map<Id, Row>, status: Option<Status>, limit: nat, cursor: Option<Id>)
    requires limit >= 1
    ensures var p := List(rows, status, limit, cursor);
            && StrictlyDescending(p.items)
            && (forall id :: id in p.items ==> id in Matching(rows, status, cursor))
            && (p.nextCursor.None? ==> forall id :: id in Matching(rows, status, cursor) ==> id in p.items)
            && (p.nextCursor.Some? ==>
                  && Before(p.nextCursor.value, cursor)
                  && (forall id :: id in p.items ==> id >= p.nextCursor.value)
                  && (forall id :: id in Matching(rows, status, cursor) ==> id in p.items || id < p.nextCursor.value))
  {
    var s := Matching(rows, status, cursor);
    var all := Descending(s);
    DescendingIsSorted(s);
    PageIsPrefix(rows, status, limit, cursor);
    assert forall id :: id in s ==> Before(id, cursor);
    hide List, Descending, Matching;
    PrefixSplits(all, |List(rows, status, limit, cursor).items|);
  }

  /** A proper non-empty prefix of a descending sequence is separated from the rest by its last element. */
  lemma PrefixSplits(all: seq<Id>, n: nat)
    requires StrictlyDescending(all) && n <= |all|
    ensures StrictlyDescending(all[..n])
    ensures forall id :: id in all[..n] ==> id in all
    ensures n > 0 ==> all[n - 1] in all
                      && (forall id :: id in all[..n] ==> id >= all[n - 1])
                      && (forall id :: id in all ==> id in all[..n] || id < all[n - 1])
  {
    if n > 0 {
      forall id | id in all ensures id in all[..n] || id < all[n - 1] {
        var i :| 0 <= i < |all| && all[i] == id;
        if i < n { assert all[..n][i] == id; }
      }
    }
  }

  /** Asked for: present, of the status if one is given, and below the cursor if one is given. */
  predicate Asked(rows: map<Id, Row>, status: Option<Status>, cursor: Option<Id>, id: Id) {
    && id in rows
    && (status.Some? ==> rows[id].status == status.value)
    && (cursor.Some? ==> id < cursor.value)
  }

  /** A page holds at most `limit` rows that were asked for, larger ids first, and none that was not; without a next
      cursor it holds all of them, with one it is full and more remain below. */
  lemma PageShows(rows: map<Id, Row>, status: Option<Status>, limit: nat, cursor: Option<Id>)
    requires limit >= 1
    ensures var p := List(rows, status, limit, cursor);
            && |p.items| <= limit
            && (forall i, j :: 0 <= i < j < |p.items| ==> p.items[i] > p.items[j])
            && (forall id :: id in p.items ==> Asked(rows, status, cursor, id))
            && (forall id: Id, left: Id :: id in p.items && Asked(rows, status, cursor, left) && left !in p.items ==>
                  left < id)
            && (p.nextCursor.None? ==> forall id :: Asked(rows, status, cursor, id) ==> id in p.items)
            && (p.nextCursor.Some? ==>
                  && |p.items| == limit && p.nextCursor.value == p.items[limit - 1]
                  && exists id :: Asked(rows, status, cursor, id) && id !in p.items)
  {
    var s := Matching(rows, status, cursor);
    assert forall id :: id in s <==> Asked(rows, status, cursor, id);
    DescendingIsSorted(s);
    PageIsPrefix(rows, status, limit, cursor);
    PageSplits(rows, status, limit, cursor);
    hide List, Descending, Matching, HasStatus, Before;
    var p, all := List(rows, status, limit, cursor), Descending(s);
    if p.nextCursor.Some? {
      assert all[limit] in all && all[limit] !in p.items;
    }
  }

  // ---------------------------------------------------------------- following the cursor

  /** Page k is served from snapshot k: rows may come, go or change status between pages. */
  function Crawl(snapshots: seq<map<Id, Row>>, status: Option<Status>, limit: nat, cursor: Option<Id>): seq<Id>
    requires limit >= 1
    decreases |snapshots|
  {
    if snapshots == [] then []
    else
      var p := List(snapshots[0], status, limit, cursor);
      p.items + (if p.nextCursor.Some? then Crawl(snapshots[1..], status, limit, p.nextCursor) else [])
  }

  /** The crawl reached a page without a next cursor. */
  predicate Completes(snapshots: seq<map<Id, Row>>, status: Option<Status>, limit: nat, cursor: Option<Id>)
    requires limit >= 1
    decreases |snapshots|
  {
    && snapshots != []
    && var p := List(snapshots[0], status, limit, cursor);
       p.nextCursor.Some? ==> Completes(snapshots[1..], status, limit, p.nextCursor)
  }

  /** However the table changes meanwhile, a crawl lists strictly descending ids: none is listed twice. */
  lemma {:induction false} CrawlNeverRepeats(snapshots: seq<map<Id, Row>>, status: Option<Status>, limit: nat,
                                             cursor: Option<Id>)
    requires limit >= 1
    ensures StrictlyDescending(Crawl(snapshots, status, limit, cursor))
    ensures forall id :: id in Crawl(snapshots, status, limit, cursor) ==>
              && Before(id, cursor)
              && exists k :: 0 <= k < |snapshots| && id in snapshots[k] && HasStatus(snapshots[k][id], status)
    decreases |snapshots|
  {
    if snapshots != [] {
      var p := List(snapshots[0], status, limit, cursor);
      PageSplits(snapshots[0], status, limit, cursor);
      var rest := if p.nextCursor.Some? then Crawl(snapshots[1..], status, limit, p.nextCursor) else [];
      if p.nextCursor.Some? {
        CrawlNeverRepeats(snapshots[1..], status, limit, p.nextCursor);
        forall i, j | 0 <= i < |p.items| && 0 <= j < |rest| ensures p.items[i] > rest[j] {
          assert rest[j] in rest && p.items[i] in p.items;
        }
      }
      forall id | id in p.items + rest
        ensures Before(id, cursor)
        ensures exists k :: 0 <= k < |snapshots| && id in snapshots[k] && HasStatus(snapshots[k][id], status)
      {
        if id in p.items {
          assert id in snapshots[0] && HasStatus(snapshots[0][id], status);
        } else {
          var k :| 0 <= k < |snapshots[1..]| && id in snapshots[1..][k] && HasStatus(snapshots[1..][k][id], status);
          assert snapshots[k + 1] == snapshots[1..][k];
        }
      }
    }
  }

  /** A row that is there with a fitting status throughout is listed, exactly once by the lemma above. */
  lemma {:induction false} CrawlMissesNoStableRow(snapshots: seq<map<Id, Row>>, status: Option<Status>, limit: nat,
                                                  cursor: Option<Id>, id: Id)
    requires limit >= 1 && Completes(snapshots, status, limit, cursor) && Before(id, cursor)
    requires forall k :: 0 <= k < |snapshots| ==> id in snapshots[k] && HasStatus(snapshots[k][id], status)
    ensures id in Crawl(snapshots, status, limit, cursor)
    decreases |snapshots|
  {
    var p := List(snapshots[0], status, limit, cursor);
    PageSplits(snapshots[0], status, limit, cursor);
    assert id in Matching(snapshots[0], status, cursor);
    if id !in p.items {
      forall k | 0 <= k < |snapshots[1..]| ensures id in snapshots[1..][k] && HasStatus(snapshots[1..][k][id], status) {
        assert snapshots[1..][k] == snapshots[k + 1];
      }
      CrawlMissesNoStableRow(snapshots[1..], status, limit, p.nextCursor, id);
    }
  }

  /** The cursor is a strictly decreasing id, so a crawl given one snapshot more than the cursor always completes. */
  lemma {:induction false} CrawlCompletes(snapshots: seq<map<Id, Row>>, status: Option<Status>, limit: nat, cursor: Id)
    requires limit >= 1 && |snapshots| > cursor
    ensures Completes(snapshots, status, limit, Some(cursor))
    decreases |snapshots|
  {
    var p := List(snapshots[0], status, limit, Some(cursor));
    PageSplits(snapshots[0], status, limit, Some(cursor));
    if p.nextCursor.Some? { CrawlCompletes(snapshots[1..], status, limit, p.nextCursor.value); }
  }

  /**
   The same from the first page on: `top` bounds the ids the first
   page sees, rows may be added above it at any time.
   */
  lemma CrawlCompletesFromTheTop(snapshots: seq<map<Id, Row>>, status: Option<Status>, limit: nat, top: Id)
    requires limit >= 1 && |snapshots| > top + 1
    requires forall id :: id in snapshots[0] ==> id <= top
    ensures Completes(snapshots, status, limit, None)
  {
    var p := List(snapshots[0], status, limit, None);
    PageIsPrefix(snapshots[0], status, limit, None);
    PageSplits(snapshots[0], status, limit, None);
    if p.nextCursor.Some? {
      assert p.nextCursor.value in p.items;
      CrawlCompletes(snapshots[1..], status, limit, p.nextCursor.value);
    }
  }

  /** On a table that does not change, the pages concatenate to the full filtered listing, whatever the page size. */
  lemma QuietCrawlIsFullListing(snapshots: seq<map<Id, Row>>, rows: map<Id, Row>, status: Option<Status>, limit: nat)
    requires limit >= 1 && Completes(snapshots, status, limit, None)
    requires forall k :: 0 <= k < |snapshots| ==> snapshots[k] == rows
    ensures Crawl(snapshots, status, limit, None) == Descending(Matching(rows, status, None))
  {
    var items := Crawl(snapshots, status, limit, None);
    CrawlNeverRepeats(snapshots, status, limit, None);
    forall id ensures id in items <==> id in Matching(rows, status, None) {
      if id in Matching(rows, status, None) { CrawlMissesNoStableRow(snapshots, status, limit, None, id); }
    }
    DescendingUnique(items, Matching(rows, status, None));
  }
}
