/** Keyset paging over creation time and identifier, newest first. A snapshot is the set of rows that
    satisfy the listing's filters when a page is read. */
module KeysetPaging {
  import opened Outcomes

  datatype Row = Row(createdAt: int, id: int)

  /** `a` is listed before `b`. */
  predicate Before(a: Row, b: Row) {
    a.createdAt > b.createdAt || (a.createdAt == b.createdAt && a.id > b.id)
  }

  ghost predicate IsFirst(row: Row, rows: set<Row>) {
    row in rows && forall other :: other in rows && other != row ==> Before(row, other)
  }

  lemma {:induction false} FirstExists(rows: set<Row>)
    requires rows != {}
    ensures exists row :: IsFirst(row, rows)
  {
    var some :| some in rows;
    var others := rows - {some};
    assert forall other :: other in rows ==> other == some || other in others;
    if others == {} {
      assert IsFirst(some, rows);
    } else {
      FirstExists(others);
      var first :| IsFirst(first, others);
      assert IsFirst(if Before(some, first) then some else first, rows);
    }
  }

  ghost function First(rows: set<Row>): (row: Row)
    requires rows != {}
    ensures IsFirst(row, rows)
  {
    FirstExists(rows);
    var row :| IsFirst(row, rows);
    row
  }

  /** The rows in listing order. */
  ghost function Listing(rows: set<Row>): seq<Row> {
    if rows == {} then [] else [First(rows)] + Listing(rows - {First(rows)})
  }

  /** What the cursor condition lets through. */
  ghost function Beyond(rows: set<Row>, cursor: Option<Row>): set<Row> {
    set row | row in rows && (cursor.Some? ==> Before(cursor.value, row))
  }

  /** One page, and whether there are more: one row more than the page holds is fetched to find out. */
  ghost function Page(rows: set<Row>, cursor: Option<Row>, limit: nat): (seq<Row>, bool) {
    var listed := Listing(Beyond(rows, cursor));
    var fetched := if |listed| > limit + 1 then listed[..limit + 1] else listed;
    if |fetched| > limit then (fetched[..limit], true) else (fetched, false)
  }

  // -------------------------------------------------------- the listing

  predicate Descending(rows: seq<Row>) {
    forall i, j :: 0 <= i < j < |rows| ==> Before(rows[i], rows[j])
  }

  ghost function Elements(rows: seq<Row>): set<Row> {
    set row | row in rows
  }

  lemma {:induction false} ListingLists(rows: set<Row>)
    ensures Descending(Listing(rows)) && Elements(Listing(rows)) == rows && |Listing(rows)| == |rows|
  {
    if rows != {} {
      var first := First(rows);
      var others := Listing(rows - {first});
      ListingLists(rows - {first});
      FirstThenOthers(first, others, rows);
    }
  }

  lemma FirstThenOthers(first: Row, others: seq<Row>, rows: set<Row>)
    requires IsFirst(first, rows) && Descending(others) && Elements(others) == rows - {first}
    ensures Descending([first] + others) && Elements([first] + others) == rows
  {
    forall j | 0 <= j < |others|
      ensures Before(first, others[j])
    {
      assert others[j] in Elements(others);
    }
    assert forall row :: row in [first] + others <==> row == first || row in others;
    assert forall row :: row in others <==> row in Elements(others);
  }

  lemma DescendingDistinct(rows: seq<Row>, row: Row)
    requires Descending(rows) && row in rows
    ensures multiset(rows)[row] == 1
  {
    var i :| 0 <= i < |rows| && rows[i] == row;
    assert row !in rows[..i] && row !in rows[i + 1..];
    assert rows == rows[..i] + [row] + rows[i + 1..];
  }

  /** Two descending listings of the same rows are the same. */
  lemma {:induction false} ListingUnique(a: seq<Row>, b: seq<Row>)
    requires Descending(a) && Descending(b) && Elements(a) == Elements(b)
    ensures a == b
  {
    NoElements(a);
    NoElements(b);
    if a != [] {
      assert a[0] in Elements(a) && b[0] in Elements(b);
      assert a[0] in Elements(b);
      assert b[0] in Elements(a);
      HeadsEqual(a, b);
      TailElements(a);
      TailElements(b);
      ListingUnique(a[1..], b[1..]);
      assert a == [a[0]] + a[1..] && b == [b[0]] + b[1..];
    }
  }

  lemma NoElements(rows: seq<Row>)
    ensures rows == [] <==> Elements(rows) == {}
  {
    if rows != [] {
      assert rows[0] in Elements(rows);
    }
  }

  lemma HeadsEqual(a: seq<Row>, b: seq<Row>)
    requires a != [] && b != [] && Descending(a) && Descending(b) && a[0] in b && b[0] in a
    ensures a[0] == b[0]
  {
  }

  lemma TailElements(a: seq<Row>)
    requires a != [] && Descending(a)
    ensures Elements(a[1..]) == Elements(a) - {a[0]}
  {
    assert forall row :: row in a <==> row == a[0] || row in a[1..];
  }

  // ------------------------------------------------------- one snapshot

  /** A page holds the first rows beyond the cursor; it says there are more exactly when some are left. */
  lemma PageShape(rows: set<Row>, cursor: Option<Row>, limit: nat)
    requires limit > 0
    ensures var (items, more) := Page(rows, cursor, limit);
      && items <= Listing(Beyond(rows, cursor)) && |items| <= limit
      && (more <==> |Beyond(rows, cursor)| > limit)
      && (more ==> |items| == limit)
      && (!more ==> items == Listing(Beyond(rows, cursor)))
  {
    ListingLists(Beyond(rows, cursor));
  }

  /** What lies beyond the last row of a page is what the page left over. */
  lemma LeftOver(rows: set<Row>, cursor: Option<Row>, k: nat)
    requires 0 < k <= |Listing(Beyond(rows, cursor))|
    ensures var listed := Listing(Beyond(rows, cursor));
      Listing(Beyond(rows, Some(listed[k - 1]))) == listed[k..]
  {
    var listed := Listing(Beyond(rows, cursor));
    var rest := Beyond(rows, Some(listed[k - 1]));
    ListingLists(Beyond(rows, cursor));
    ListingLists(rest);
    TailBeyond(rows, cursor, listed, k);
    ListingUnique(Listing(rest), listed[k..]);
  }

  lemma TailBeyond(rows: set<Row>, cursor: Option<Row>, listed: seq<Row>, k: nat)
    requires Descending(listed) && Elements(listed) == Beyond(rows, cursor) && 0 < k <= |listed|
    ensures Elements(listed[k..]) == Beyond(rows, Some(listed[k - 1]))
  {
    var last := listed[k - 1];
    assert last in Elements(listed);
    forall row | row in Elements(listed[k..])
      ensures row in Beyond(rows, Some(last))
    {
      var i :| 0 <= i < |listed| - k && listed[k..][i] == row;
      assert listed[k + i] in Elements(listed);
    }
    forall row | row in Beyond(rows, Some(last))
      ensures row in Elements(listed[k..])
    {
      assert row in Elements(listed);
      var i :| 0 <= i < |listed| && listed[i] == row;
      assert listed[k..][i - k] == row;
    }
  }

  lemma BeyondShrinks(rows: set<Row>, cursor: Option<Row>, last: Row)
    requires last in Beyond(rows, cursor)
    ensures |Beyond(rows, Some(last))| < |Beyond(rows, cursor)|
  {
    assert Beyond(rows, Some(last)) <= Beyond(rows, cursor) - {last};
    SubsetSize(Beyond(rows, Some(last)), Beyond(rows, cursor) - {last});
  }

  lemma {:induction false} SubsetSize(a: set<Row>, b: set<Row>)
    requires a <= b
    ensures |a| <= |b|
  {
    if a != {} {
      var x :| x in a;
      SubsetSize(a - {x}, b - {x});
    }
  }

  lemma LastOfPage(rows: set<Row>, cursor: Option<Row>, limit: nat)
    requires limit > 0 && Page(rows, cursor, limit).1
    ensures |Page(rows, cursor, limit).0| == limit
    ensures Page(rows, cursor, limit).0[limit - 1] in Beyond(rows, cursor)
  {
    PageShape(rows, cursor, limit);
    ListingLists(Beyond(rows, cursor));
    assert Page(rows, cursor, limit).0[limit - 1] in Elements(Listing(Beyond(rows, cursor)));
  }

  /** Follow the cursor of the last row returned until there are no more. The walk comes to an end
      because every page leaves fewer rows beyond its cursor. */
  ghost function Walk(rows: set<Row>, cursor: Option<Row>, limit: nat): seq<Row>
    requires limit > 0
    decreases |Beyond(rows, cursor)|
  {
    var (items, more) := Page(rows, cursor, limit);
    if !more then items
    else
      LastOfPage(rows, cursor, limit);
      BeyondShrinks(rows, cursor, items[limit - 1]);
      items + Walk(rows, Some(items[limit - 1]), limit)
  }

  /** Walking a table that does not change returns exactly its rows, newest first. */
  lemma {:induction false} WalkComplete(rows: set<Row>, cursor: Option<Row>, limit: nat)
    requires limit > 0
    ensures Walk(rows, cursor, limit) == Listing(Beyond(rows, cursor))
    decreases |Beyond(rows, cursor)|
  {
    var (items, more) := Page(rows, cursor, limit);
    PageShape(rows, cursor, limit);
    if more {
      LastOfPage(rows, cursor, limit);
      BeyondShrinks(rows, cursor, items[limit - 1]);
      WalkComplete(rows, Some(items[limit - 1]), limit);
      LeftOver(rows, cursor, limit);
    }
  }

  /** From the start, nothing is missed and nothing comes twice. */
  lemma WalkListsTable(rows: set<Row>, limit: nat)
    requires limit > 0
    ensures Descending(Walk(rows, None, limit)) && Elements(Walk(rows, None, limit)) == rows
    ensures forall row :: row in rows ==> multiset(Walk(rows, None, limit))[row] == 1
  {
    WalkComplete(rows, None, limit);
    assert Beyond(rows, None) == rows;
    ListingLists(rows);
    forall row | row in rows
      ensures multiset(Walk(rows, None, limit))[row] == 1
    {
      assert row in Elements(Listing(rows));
      DescendingDistinct(Listing(rows), row);
    }
  }

  // --------------------------------------------------- moving snapshots

  /** Each page is read from its own snapshot; the flag says whether the last page was reached. */
  ghost function WalkThrough(snapshots: seq<set<Row>>, cursor: Option<Row>, limit: nat): (seq<Row>, bool)
    requires limit > 0
  {
    if snapshots == [] then ([], false)
    else
      var (items, more) := Page(snapshots[0], cursor, limit);
      if !more then (items, true)
      else
        LastOfPage(snapshots[0], cursor, limit);
        var (others, ended) := WalkThrough(snapshots[1..], Some(items[limit - 1]), limit);
        (items + others, ended)
  }

  lemma PageBeyond(rows: set<Row>, cursor: Option<Row>, limit: nat)
    requires limit > 0
    ensures Descending(Page(rows, cursor, limit).0)
    ensures forall row :: row in Page(rows, cursor, limit).0 ==> row in Beyond(rows, cursor)
    ensures forall row :: row in Beyond(rows, cursor) && row !in Page(rows, cursor, limit).0 ==>
      && Page(rows, cursor, limit).1
      && forall i :: 0 <= i < |Page(rows, cursor, limit).0| ==> Before(Page(rows, cursor, limit).0[i], row)
  {
    var items, listed := Page(rows, cursor, limit).0, Listing(Beyond(rows, cursor));
    PageShape(rows, cursor, limit);
    ListingLists(Beyond(rows, cursor));
    assert forall row :: row in items ==> row in Elements(listed);
    forall row | row in Beyond(rows, cursor) && row !in items
      ensures Page(rows, cursor, limit).1 && forall i :: 0 <= i < |items| ==> Before(items[i], row)
    {
      assert row in Elements(listed);
      var j :| 0 <= j < |listed| && listed[j] == row;
      assert listed[j] !in listed[..|items|];
    }
  }

  /** Whatever is inserted or removed between pages: no row comes twice, the order is kept, and a walk that
      reached its last page has returned every row that was there throughout. */
  lemma {:induction false} WalkThroughExact(snapshots: seq<set<Row>>, cursor: Option<Row>, limit: nat)
    requires limit > 0
    ensures var (found, ended) := WalkThrough(snapshots, cursor, limit);
      && Descending(found)
      && (forall row :: row in found ==> cursor.Some? ==> Before(cursor.value, row))
      && (forall row :: row in found ==> exists k :: 0 <= k < |snapshots| && row in snapshots[k])
      && (ended ==>
            forall row :: (forall k :: 0 <= k < |snapshots| ==> row in Beyond(snapshots[k], cursor)) ==> row in found)
  {
    if snapshots != [] {
      var (items, more) := Page(snapshots[0], cursor, limit);
      PageBeyond(snapshots[0], cursor, limit);
      if more {
        LastOfPage(snapshots[0], cursor, limit);
        var last := items[limit - 1];
        WalkThroughExact(snapshots[1..], Some(last), limit);
        JoinPages(items, WalkThrough(snapshots[1..], Some(last), limit).0, last);
        StillThere(snapshots, cursor, limit);
      }
    }
  }

  lemma JoinPages(items: seq<Row>, others: seq<Row>, last: Row)
    requires items != [] && items[|items| - 1] == last && Descending(items) && Descending(others)
    requires forall row :: row in others ==> Before(last, row)
    ensures Descending(items + others)
  {
    forall i, j | 0 <= i < j < |items + others|
      ensures Before((items + others)[i], (items + others)[j])
    {
      if i < |items| <= j {
        assert others[j - |items|] in others;
      }
    }
  }

  /** A row that was there throughout is on the page, or beyond the next cursor in every later snapshot. */
  lemma StillThere(snapshots: seq<set<Row>>, cursor: Option<Row>, limit: nat)
    requires limit > 0 && snapshots != [] && Page(snapshots[0], cursor, limit).1
    ensures |Page(snapshots[0], cursor, limit).0| == limit
    ensures var items := Page(snapshots[0], cursor, limit).0;
      forall row :: (forall k :: 0 <= k < |snapshots| ==> row in Beyond(snapshots[k], cursor)) && row !in items ==>
        forall k :: 0 <= k < |snapshots| - 1 ==> row in Beyond(snapshots[1..][k], Some(items[limit - 1]))
  {
    PageBeyond(snapshots[0], cursor, limit);
    LastOfPage(snapshots[0], cursor, limit);
    var items := Page(snapshots[0], cursor, limit).0;
    forall row, k | (forall k :: 0 <= k < |snapshots| ==> row in Beyond(snapshots[k], cursor)) && row !in items
                    && 0 <= k < |snapshots| - 1
      ensures row in Beyond(snapshots[1..][k], Some(items[limit - 1]))
    {
      assert row in Beyond(snapshots[k + 1], cursor);
      assert row in Beyond(snapshots[0], cursor);
    }
  }

  /** What comes first is newer, or as old with the larger identifier. */
  lemma NewestFirst(rows: set<Row>, limit: nat, i: nat, j: nat)
    requires limit > 0 && i < j < |Walk(rows, None, limit)|
    ensures var a, b := Walk(rows, None, limit)[i], Walk(rows, None, limit)[j];
      a.createdAt >= b.createdAt && (a.createdAt == b.createdAt ==> a.id > b.id)
  {
    WalkListsTable(rows, limit);
  }
}
