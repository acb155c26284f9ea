/**
 Message paging. A thread is its rows in ascending sequence order; a page is the newest rows
 below a cursor. Peer-run output is filtered after the page was cut, so the pager rescans
 pages that turn out to hold nothing substantive.
 */
module ThreadPages {
  import opened Common

  datatype Block = Text | Ask | BotSent | BotReceived(reports: bool) | Other

  datatype Row = Row(seqNo: int, run: Option<nat>, blocks: seq<Block>)

  // A run as withoutPeerRunMessages reads it; `source` are the blocks of the message that started it.
  datatype Run = Run(botMessage: bool, source: seq<Block>)

  ghost predicate Ascending(rows: seq<Row>) {
    forall i, j :: 0 <= i < j < |rows| ==> rows[i].seqNo < rows[j].seqNo
  }

  predicate Under(cursor: Option<int>, row: Row) {
    cursor.None? || row.seqNo < cursor.value
  }

  function Below(rows: seq<Row>, cursor: Option<int>): seq<Row> {
    Filter(rows, (row: Row) => Under(cursor, row))
  }

  function Reversed<T>(xs: seq<T>): seq<T> {
    seq(|xs|, i requires 0 <= i < |xs| => xs[|xs| - 1 - i])
  }

  // findMany with orderBy seq desc and take
  function NewestFirst(rows: seq<Row>, cursor: Option<int>, take: nat): seq<Row> {
    var matching := Reversed(Below(rows, cursor));
    if take <= |matching| then matching[..take] else matching
  }

  predicate ReportsToUser(blocks: seq<Block>) {
    exists i :: 0 <= i < |blocks| && blocks[i].BotReceived? && blocks[i].reports
  }

  predicate IsReceipt(blocks: seq<Block>) {
    exists i :: 0 <= i < |blocks| && (blocks[i].BotSent? || blocks[i].BotReceived?)
  }

  predicate Presentable(blocks: seq<Block>) {
    exists i :: 0 <= i < |blocks| && !blocks[i].Other?
  }

  predicate PeerRun(runs: map<nat, Run>, id: nat) {
    id in runs && runs[id].botMessage && !ReportsToUser(runs[id].source)
  }

  predicate Visible(runs: map<nat, Run>, row: Row) {
    row.run.None? || !PeerRun(runs, row.run.value) || Presentable(row.blocks)
  }

  predicate Substantive(row: Row) {
    !IsReceipt(row.blocks)
  }

  /**
   A row is hidden exactly if a peer's message started its run, that message does not report to the
   user, and the row has neither text nor an ask nor a receipt; it counts as substantive exactly if
   it has no receipt.
   */
  lemma {:induction false} VisibleMeans(runs: map<nat, Run>, row: Row)
    ensures Visible(runs, row) <==>
            !(&& row.run.Some? && row.run.value in runs && runs[row.run.value].botMessage
              && (forall block :: block in runs[row.run.value].source ==> block != BotReceived(true))
              && forall block :: block in row.blocks ==> block == Other)
    ensures Substantive(row) <==> forall block :: block in row.blocks ==> block == Text || block == Ask || block == Other
  {
    if row.run.Some? && row.run.value in runs {
      var source := runs[row.run.value].source;
      assert forall i :: 0 <= i < |source| ==> source[i] in source;
    }
    assert forall i :: 0 <= i < |row.blocks| ==> row.blocks[i] in row.blocks;
  }

  function Sees(runs: map<nat, Run>): Row -> bool {
    (row: Row) => Visible(runs, row)
  }

  function Wants(runs: map<nat, Run>): Row -> bool {
    (row: Row) => Visible(runs, row) && Substantive(row)
  }

  // withoutPeerRunMessages: one query for the batch's run ids, then a filter over the batch
  function WithoutPeerRuns(runs: map<nat, Run>, rows: seq<Row>): seq<Row> {
    var runIds := set row | row in rows && row.run.Some? :: row.run.value;
    var peerRunIds := set id | id in runIds && PeerRun(runs, id);
    if runIds == {} then rows
    else Filter(rows, (row: Row) => row.run.None? || row.run.value !in peerRunIds || Presentable(row.blocks))
  }

  lemma {:induction false} FilterAll<T>(xs: seq<T>, keep: T -> bool)
    requires forall x :: x in xs ==> keep(x)
    ensures Filter(xs, keep) == xs
  {
    if xs != [] {
      FilterAll(xs[..|xs| - 1], keep);
    }
  }

  /** Which rows of a batch survive does not depend on the rest of the batch. */
  lemma {:induction false} WithoutPeerRunsIsPointwise(runs: map<nat, Run>, rows: seq<Row>)
    ensures WithoutPeerRuns(runs, rows) == Filter(rows, Sees(runs))
  {
    var runIds := set row | row in rows && row.run.Some? :: row.run.value;
    var peerRunIds := set id | id in runIds && PeerRun(runs, id);
    if runIds == {} {
      forall row | row in rows
        ensures Visible(runs, row)
      {
        assert forall id :: row.run == Some(id) ==> id in runIds;
      }
      FilterAll(rows, Sees(runs));
    } else {
      FilterSame(rows, (row: Row) => row.run.None? || row.run.value !in peerRunIds || Presentable(row.blocks), Sees(runs));
    }
  }

  function Shown(runs: map<nat, Run>, peers: bool, rows: seq<Row>): seq<Row> {
    if peers then rows else WithoutPeerRuns(runs, rows)
  }

  // The cursor before rows[end]: none past the newest row.
  ghost predicate CursorAt(rows: seq<Row>, cursor: Option<int>, end: nat) {
    end <= |rows| && Below(rows, cursor) == rows[..end]
  }

  lemma {:induction false} BelowRow(rows: seq<Row>, at: nat)
    requires Ascending(rows) && at < |rows|
    ensures CursorAt(rows, Some(rows[at].seqNo), at)
  {
    var keep := (row: Row) => Under(Some(rows[at].seqNo), row);
    assert rows == rows[..at] + rows[at..];
    FilterConcat(rows[..at], rows[at..], keep);
    FilterAll(rows[..at], keep);
    FilterNone(rows[at..], keep);
  }

  lemma {:induction false} CursorStart(rows: seq<Row>)
    ensures CursorAt(rows, None, |rows|)
  {
    FilterAll(rows, (row: Row) => Under(None, row));
  }

  function Start(end: nat, pageSize: nat): nat {
    if end <= pageSize then 0 else end - pageSize
  }

  // The rows a page query yields, oldest first, and whether any are left below it.
  lemma {:induction false} PageRows(rows: seq<Row>, cursor: Option<int>, end: nat, pageSize: nat)
    requires CursorAt(rows, cursor, end) && 1 <= pageSize
    ensures
      var found := NewestFirst(rows, cursor, pageSize + 1);
      && (|found| > pageSize <==> Start(end, pageSize) > 0)
      && Reversed(if |found| > pageSize then found[..pageSize] else found) == rows[Start(end, pageSize)..end]
  {
  }

  // A page without a substantive row left after filtering had none to begin with.
  lemma {:induction false} NothingWanted(rows: seq<Row>, runs: map<nat, Run>, lo: nat, hi: nat)
    requires lo <= hi <= |rows|
    requires forall row :: row in WithoutPeerRuns(runs, rows[lo..hi]) ==> !Substantive(row)
    ensures forall k :: lo <= k < hi ==> !(Visible(runs, rows[k]) && Substantive(rows[k]))
  {
    WithoutPeerRunsIsPointwise(runs, rows[lo..hi]);
    forall k | lo <= k < hi
      ensures !(Visible(runs, rows[k]) && Substantive(rows[k]))
    {
      assert rows[k] == rows[lo..hi][k - lo];
      FilterIn(rows[lo..hi], Sees(runs), rows[k]);
    }
  }

  /**
   loadMessagePage without `around`. The page is rows[lo..hi]; everything between it and the
   cursor was scanned and holds nothing visible and substantive.
   */
  method LoadPage(rows: seq<Row>, runs: map<nat, Run>, before: Option<int>, pageSize: nat, peers: bool, receipts: bool, ghost end: nat)
    returns (messages: seq<Row>, older: Option<int>, ghost lo: nat, ghost hi: nat)
    requires Ascending(rows) && 1 <= pageSize && CursorAt(rows, before, end)
    ensures lo <= hi <= end && (0 < end ==> lo < hi) && hi - lo <= pageSize && (0 < lo ==> hi - lo == pageSize)
    ensures messages == Shown(runs, peers, rows[lo..hi])
    ensures older == if 0 < lo then Some(rows[lo].seqNo) else None
    ensures peers || receipts ==> hi == end
    ensures forall k :: hi <= k < end ==> !(Visible(runs, rows[k]) && Substantive(rows[k]))
    ensures older.Some? && !peers && !receipts ==> exists row :: row in messages && Substantive(row)
  {
    var cursor := before;
    hi := end;
    while true
      invariant hi <= end && (0 < end ==> 0 < hi) && CursorAt(rows, cursor, hi)
      invariant peers || receipts ==> hi == end
      invariant forall k :: hi <= k < end ==> !(Visible(runs, rows[k]) && Substantive(rows[k]))
      decreases hi
    {
      var found := NewestFirst(rows, cursor, pageSize + 1);
      var hasOlder := |found| > pageSize;
      var pageRows := Reversed(if hasOlder then found[..pageSize] else found);
      PageRows(rows, cursor, hi, pageSize);
      lo := Start(hi, pageSize);
      var shown := Shown(runs, peers, pageRows);
      var substantive := exists row :: row in shown && Substantive(row);
      if substantive || receipts || !hasOlder || peers {
        return shown, if hasOlder then Some(pageRows[0].seqNo) else None, lo, hi;
      }
      NothingWanted(rows, runs, lo, hi);
      BelowRow(rows, lo);
      cursor := Some(pageRows[0].seqNo);
      hi := lo;
    }
  }

  lemma {:induction false} FlatReversedPush<T>(pages: seq<seq<T>>, page: seq<T>)
    ensures Flatten(Reversed(pages + [page])) == page + Flatten(Reversed(pages))
  {
    assert Reversed(pages + [page]) == [page] + Reversed(pages);
  }

  /** loadAllMessages: exactly the thread's history, oldest first. */
  method LoadAll(rows: seq<Row>, pageSize: nat) returns (all: seq<Row>)
    requires Ascending(rows) && 1 <= pageSize
    ensures all == rows
  {
    var pages: seq<seq<Row>> := [];
    var before: Option<int> := None;
    ghost var end: nat := |rows|;
    CursorStart(rows);
    while true
      invariant end <= |rows| && CursorAt(rows, before, end) && (before.Some? ==> 0 < end)
      invariant Flatten(Reversed(pages)) == rows[end..]
      decreases end, before.None?
    {
      ghost var lo, hi;
      var page;
      page, before, lo, hi := LoadPage(rows, map[], before, pageSize, true, false, end);
      FlatReversedPush(pages, page);
      pages := pages + [page];
      assert rows[lo..] == rows[lo..end] + rows[end..];
      if before.None? {
        return Flatten(Reversed(pages));
      }
      BelowRow(rows, lo);
      end := lo;
    }
  }

  /**
   A reader who follows olderCursor of the filtered pager to the end. What it collects is in
   thread order, all visible, and contains every visible substantive row.
   */
  method FollowOlder(rows: seq<Row>, runs: map<nat, Run>, pageSize: nat, receipts: bool) returns (all: seq<Row>)
    requires Ascending(rows) && 1 <= pageSize
    ensures Filter(all, Substantive) == Filter(rows, Wants(runs))
    ensures Ascending(all) && forall row :: row in all ==> row in rows && Visible(runs, row)
    ensures receipts ==> all == Filter(rows, Sees(runs))
  {
    all := [];
    var before: Option<int> := None;
    ghost var end: nat := |rows|;
    ghost var visible := Sees(runs);
    ghost var wanted := Wants(runs);
    CursorStart(rows);
    while true
      invariant end <= |rows| && CursorAt(rows, before, end) && (before.Some? ==> 0 < end)
      invariant Filter(all, Substantive) == Filter(rows[end..], wanted)
      invariant Collected(rows, runs, end, all)
      invariant receipts ==> all == Filter(rows[end..], visible)
      decreases end, before.None?
    {
      ghost var lo, hi;
      var page;
      page, before, lo, hi := LoadPage(rows, runs, before, pageSize, false, receipts, end);
      JoinWanted(rows, runs, lo, hi, end, page, all);
      JoinCollected(rows, runs, lo, hi, end, page, all);
      if receipts {
        JoinVisible(rows, runs, lo, end, page, all);
      }
      all := page + all;
      if before.None? {
        assert rows[0..] == rows;
        return;
      }
      BelowRow(rows, lo);
      end := lo;
    }
  }

  lemma {:induction false} FilterAscending(rows: seq<Row>, keep: Row -> bool)
    requires Ascending(rows)
    ensures Ascending(Filter(rows, keep))
  {
    if rows != [] {
      var front := rows[..|rows| - 1];
      FilterAscending(front, keep);
      forall row | row in Filter(front, keep)
        ensures row.seqNo < rows[|rows| - 1].seqNo
      {
        FilterIn(front, keep, row);
      }
    }
  }

  lemma {:induction false} PageWanted(runs: map<nat, Run>, cut: seq<Row>)
    ensures Filter(WithoutPeerRuns(runs, cut), Substantive) == Filter(cut, Wants(runs))
  {
    WithoutPeerRunsIsPointwise(runs, cut);
    FilterTwice(cut, Sees(runs), Substantive);
    FilterSame(cut, Wants(runs), Both(Sees(runs), Substantive));
  }

  lemma {:induction false} WantedBelow(rows: seq<Row>, runs: map<nat, Run>, lo: nat, hi: nat, end: nat)
    requires lo <= hi <= end <= |rows|
    requires forall k :: hi <= k < end ==> !(Visible(runs, rows[k]) && Substantive(rows[k]))
    ensures Filter(rows[lo..], Wants(runs)) == Filter(rows[lo..hi], Wants(runs)) + Filter(rows[end..], Wants(runs))
  {
    var cut, skipped := rows[lo..hi], rows[hi..end];
    assert rows[lo..] == (cut + skipped) + rows[end..];
    FilterConcat(cut + skipped, rows[end..], Wants(runs));
    FilterConcat(cut, skipped, Wants(runs));
    FilterNone(skipped, Wants(runs));
  }

  // One page put before what was collected.
  lemma {:induction false} JoinWanted(rows: seq<Row>, runs: map<nat, Run>, lo: nat, hi: nat, end: nat, page: seq<Row>, all: seq<Row>)
    requires lo <= hi <= end <= |rows| && page == WithoutPeerRuns(runs, rows[lo..hi])
    requires forall k :: hi <= k < end ==> !(Visible(runs, rows[k]) && Substantive(rows[k]))
    requires Filter(all, Substantive) == Filter(rows[end..], Wants(runs))
    ensures Filter(page + all, Substantive) == Filter(rows[lo..], Wants(runs))
  {
    PageWanted(runs, rows[lo..hi]);
    WantedBelow(rows, runs, lo, hi, end);
    FilterConcat(page, all, Substantive);
  }

  lemma {:induction false} JoinVisible(rows: seq<Row>, runs: map<nat, Run>, lo: nat, end: nat, page: seq<Row>, all: seq<Row>)
    requires lo <= end <= |rows| && page == WithoutPeerRuns(runs, rows[lo..end])
    requires all == Filter(rows[end..], Sees(runs))
    ensures page + all == Filter(rows[lo..], Sees(runs))
  {
    WithoutPeerRunsIsPointwise(runs, rows[lo..end]);
    assert rows[lo..] == rows[lo..end] + rows[end..];
    FilterConcat(rows[lo..end], rows[end..], Sees(runs));
  }

  // In thread order, visible, and no older than `from`.
  ghost predicate Collected(rows: seq<Row>, runs: map<nat, Run>, from: nat, all: seq<Row>)
    requires from <= |rows|
  {
    Ascending(all) && forall row :: row in all ==> row in rows[from..] && Visible(runs, row)
  }

  lemma {:induction false} PageCollected(rows: seq<Row>, runs: map<nat, Run>, lo: nat, hi: nat)
    requires Ascending(rows) && lo <= hi <= |rows|
    ensures
      var page := WithoutPeerRuns(runs, rows[lo..hi]);
      Ascending(page) && forall row :: row in page ==> row in rows[lo..hi] && Visible(runs, row)
  {
    var cut := rows[lo..hi];
    WithoutPeerRunsIsPointwise(runs, cut);
    FilterAscending(cut, Sees(runs));
    forall row | row in Filter(cut, Sees(runs))
      ensures row in cut && Visible(runs, row)
    {
      FilterIn(cut, Sees(runs), row);
    }
  }

  lemma {:induction false} InSlice(rows: seq<Row>, lo: nat, hi: nat, row: Row) returns (i: nat)
    requires lo <= hi <= |rows| && row in rows[lo..hi]
    ensures lo <= i < hi && rows[i] == row
  {
    var k :| 0 <= k < |rows[lo..hi]| && rows[lo..hi][k] == row;
    i := lo + k;
  }

  lemma {:induction false} SlicesAscend(rows: seq<Row>, lo: nat, hi: nat, end: nat, page: seq<Row>, all: seq<Row>)
    requires Ascending(rows) && lo <= hi <= end <= |rows|
    requires Ascending(page) && forall row :: row in page ==> row in rows[lo..hi]
    requires Ascending(all) && forall row :: row in all ==> row in rows[end..|rows|]
    ensures Ascending(page + all)
  {
    forall i, j | 0 <= i < |page| && 0 <= j < |all|
      ensures page[i].seqNo < all[j].seqNo
    {
      assert page[i] in page && all[j] in all;
      var a := InSlice(rows, lo, hi, page[i]);
      var b := InSlice(rows, end, |rows|, all[j]);
    }
  }

  lemma {:induction false} JoinCollected(rows: seq<Row>, runs: map<nat, Run>, lo: nat, hi: nat, end: nat, page: seq<Row>, all: seq<Row>)
    requires Ascending(rows) && lo <= hi <= end <= |rows| && page == WithoutPeerRuns(runs, rows[lo..hi])
    requires Collected(rows, runs, end, all)
    ensures Collected(rows, runs, lo, page + all)
  {
    PageCollected(rows, runs, lo, hi);
    assert rows[end..] == rows[end..|rows|];
    SlicesAscend(rows, lo, hi, end, page, all);
    assert rows[lo..] == rows[lo..hi] + rows[hi..end] + rows[end..];
  }
}
