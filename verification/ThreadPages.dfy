/** Thread history in pages: `loadMessagePage` and `loadAllMessages`. */
module ThreadPages {
  import opened Wrappers

  datatype Block = PeerSent | PeerReceived | Ask | Text | Other

  datatype Row = Row(id: nat, seqNo: nat, runId: Option<nat>, blocks: seq<Block>)

  /** The rows of one thread in ascending order, and the runs that peers triggered. */
  datatype Thread = Thread(rows: seq<Row>, peerRuns: set<nat>)

  predicate Ordered(rows: seq<Row>) { forall i, j :: 0 <= i < j < |rows| ==> rows[i].seqNo < rows[j].seqNo }

  /** `isPeerReceiptBlocks`. */
  predicate IsReceipt(row: Row) { PeerSent in row.blocks || PeerReceived in row.blocks }

  /** What `withoutPeerRunMessages` keeps. */
  predicate Visible(t: Thread, row: Row) {
    || row.runId.None? || row.runId.value !in t.peerRuns
    || PeerSent in row.blocks || PeerReceived in row.blocks || Ask in row.blocks || Text in row.blocks
  }

  function VisibleRows(t: Thread, rows: seq<Row>): seq<Row> {
    if rows == [] then []
    else VisibleRows(t, rows[..|rows| - 1])
         + (if Visible(t, rows[|rows| - 1]) then [rows[|rows| - 1]] else [])
  }

  function WithoutReceipts(rows: seq<Row>): seq<Row> {
    if rows == [] then []
    else WithoutReceipts(rows[..|rows| - 1])
         + (if IsReceipt(rows[|rows| - 1]) then [] else [rows[|rows| - 1]])
  }

  // ----- queries -----

  /** How many rows have a `seq` below the bound. */
  function Below(rows: seq<Row>, bound: nat): (n: nat)
    ensures n <= |rows|
    ensures Ordered(rows) ==> forall i :: 0 <= i < |rows| ==> (rows[i].seqNo < bound <==> i < n)
  {
    if rows == [] then 0
    else if rows[|rows| - 1].seqNo < bound then |rows|
    else Below(rows[..|rows| - 1], bound)
  }

  lemma BelowGrows(rows: seq<Row>, bound: nat, higher: nat)
    requires bound <= higher
    ensures Below(rows, bound) <= Below(rows, higher)
  {}

  /** How many rows lie before a cursor; no cursor is the end of the thread. */
  function End(t: Thread, cursor: Option<nat>): (n: nat)
    ensures n <= |t.rows|
  {
    if cursor.None? then |t.rows| else Below(t.rows, cursor.value)
  }

  function Descending(rows: seq<Row>): (r: seq<Row>)
    ensures |r| == |rows| && forall i :: 0 <= i < |r| ==> r[i] == rows[|rows| - 1 - i]
  {
    seq(|rows|, i requires 0 <= i < |rows| => rows[|rows| - 1 - i])
  }

  function Take(rows: seq<Row>, n: nat): seq<Row> { if |rows| <= n then rows else rows[..n] }

  /** `findMany` with `orderBy: desc`. */
  function FindOlder(t: Thread, cursor: Option<nat>, take: nat): seq<Row> {
    Take(Descending(t.rows[..End(t, cursor)]), take)
  }

  // ----- pages -----

  datatype Page = Page(messages: seq<Row>, olderCursor: Option<nat>)

  datatype Options = Options(includePeerRuns: bool, includePeerReceipts: bool)

  function Low(end: nat, pageSize: nat): nat { if end <= pageSize then 0 else end - pageSize }

  function Shown(t: Thread, o: Options, rows: seq<Row>): seq<Row> {
    if o.includePeerRuns then rows else VisibleRows(t, rows)
  }

  predicate Returns(o: Options, shown: seq<Row>, low: nat) {
    low == 0 || o.includePeerRuns || o.includePeerReceipts || exists i :: 0 <= i < |shown| && !IsReceipt(shown[i])
  }

  /** The page that ends before position `end`, skipping raw pages with nothing substantive. */
  function PageBefore(t: Thread, end: nat, pageSize: nat, o: Options): (page: Page)
    requires Ordered(t.rows) && end <= |t.rows| && pageSize > 0
    ensures page.olderCursor.Some? ==> End(t, page.olderCursor) < end
    decreases end
  {
    var low := Low(end, pageSize);
    var shown := Shown(t, o, t.rows[low..end]);
    if Returns(o, shown, low)
    then Page(shown, if low > 0 then Some(t.rows[low].seqNo) else None)
    else PageBefore(t, low, pageSize, o)
  }

  /** What a page promises its reader. It shows the raw rows from `low` to `high`, a full page unless it
      reaches the first row of the thread, which is exactly when it has no cursor. What it skipped
      below `end` is hidden or a receipt. With peer runs and receipts off, a page with more behind it
      holds a message that is not a receipt: a client never gets an empty page and a cursor. */
  lemma {:induction false} PageKeepsItsPromise(t: Thread, end: nat, pageSize: nat, o: Options)
    returns (low: nat, high: nat)
    requires Ordered(t.rows) && end <= |t.rows| && pageSize > 0
    ensures low <= high <= end && high - low <= pageSize && (low > 0 ==> high - low == pageSize)
    ensures var page := PageBefore(t, end, pageSize, o);
            && page.messages == (if o.includePeerRuns then t.rows[low..high] else VisibleRows(t, t.rows[low..high]))
            && |page.messages| <= pageSize
            && page.olderCursor == (if low == 0 then None else Some(t.rows[low].seqNo))
            && (low > 0 && !o.includePeerRuns && !o.includePeerReceipts ==>
                  exists i :: 0 <= i < |page.messages| && !IsReceipt(page.messages[i]))
    ensures o.includePeerRuns || o.includePeerReceipts ==> high == end
    ensures forall i :: high <= i < end ==> !Visible(t, t.rows[i]) || IsReceipt(t.rows[i])
    decreases end
  {
    low, high := Low(end, pageSize), end;
    var shown := Shown(t, o, t.rows[low..end]);
    VisibleIsNoLonger(t, t.rows[low..end]);
    if !Returns(o, shown, low) {
      OnlyReceiptsShown(t, t.rows[low..end]);
      assert forall i :: low <= i < end ==> t.rows[i] == t.rows[low..end][i - low];
      var skipped := low;
      low, high := PageKeepsItsPromise(t, skipped, pageSize, o);
    }
  }

  lemma PageIsWorthIt(t: Thread, end: nat, pageSize: nat, o: Options)
    requires Ordered(t.rows) && end <= |t.rows| && pageSize > 0
    ensures var page := PageBefore(t, end, pageSize, o);
            && |page.messages| <= pageSize
            && (page.olderCursor.Some? && !o.includePeerRuns && !o.includePeerReceipts ==>
                  exists i :: 0 <= i < |page.messages| && !IsReceipt(page.messages[i]))
  {
    var low, high := PageKeepsItsPromise(t, end, pageSize, o);
  }

  /** Filtering keeps a row or drops it. */
  lemma VisibleOne(t: Thread, row: Row)
    ensures VisibleRows(t, [row]) == if Visible(t, row) then [row] else []
    ensures WithoutReceipts([row]) == if IsReceipt(row) then [] else [row]
  {
    assert [row][..0] == [];
  }

  lemma {:induction false} VisibleIsNoLonger(t: Thread, rows: seq<Row>)
    ensures |VisibleRows(t, rows)| <= |rows|
  {
    if rows != [] { VisibleIsNoLonger(t, rows[..|rows| - 1]); }
  }

  /** If only receipts are shown, every row is hidden or a receipt. */
  lemma {:induction false} OnlyReceiptsShown(t: Thread, rows: seq<Row>)
    requires forall i :: 0 <= i < |VisibleRows(t, rows)| ==> IsReceipt(VisibleRows(t, rows)[i])
    ensures forall i :: 0 <= i < |rows| ==> !Visible(t, rows[i]) || IsReceipt(rows[i])
  {
    if rows != [] {
      var most, last := rows[..|rows| - 1], rows[|rows| - 1];
      var shown := VisibleRows(t, most);
      assert VisibleRows(t, rows) == shown + (if Visible(t, last) then [last] else []);
      assert forall i :: 0 <= i < |shown| ==> VisibleRows(t, rows)[i] == shown[i];
      assert Visible(t, last) ==> VisibleRows(t, rows)[|shown|] == last;
      OnlyReceiptsShown(t, most);
    }
  }

  /** Only the peer output of a peer's run is hidden: a row with none of the four kinds of block. */
  lemma WhatIsHidden(t: Thread, row: Row)
    ensures !Visible(t, row) <==>
              row.runId.Some? && row.runId.value in t.peerRuns && forall b :: b in row.blocks ==> b == Other
    ensures IsReceipt(row) <==> exists b :: b in row.blocks && (b == PeerSent || b == PeerReceived)
  {}

  datatype Around = ById(messageId: nat) | BySeq(seqNo: nat)

  function TargetSeq(t: Thread, around: Around): Option<nat> {
    match around
    case BySeq(s) => Some(s)
    case ById(id) => SeqOf(t.rows, id)
  }

  function SeqOf(rows: seq<Row>, id: nat): Option<nat> {
    if rows == [] then None else if rows[0].id == id then Some(rows[0].seqNo) else SeqOf(rows[1..], id)
  }

  /** An id names the number of its row, if the thread has it. */
  lemma {:induction false} IdsAreFound(rows: seq<Row>, id: nat)
    ensures SeqOf(rows, id).None? <==> forall i :: 0 <= i < |rows| ==> rows[i].id != id
    ensures SeqOf(rows, id).Some? ==>
              exists i :: 0 <= i < |rows| && rows[i].id == id && SeqOf(rows, id) == Some(rows[i].seqNo)
  {
    if rows != [] {
      IdsAreFound(rows[1..], id);
      assert forall i :: 1 <= i < |rows| ==> rows[i] == rows[1..][i - 1];
      if rows[0].id != id && SeqOf(rows[1..], id).Some? {
        var i :| 0 <= i < |rows[1..]| && rows[1..][i].id == id && SeqOf(rows[1..], id) == Some(rows[1..][i].seqNo);
        assert rows[i + 1].id == id;
      }
    }
  }

  /** The rows of an "around" window before peer filtering: positions [from, to). */
  function WindowFrom(t: Thread, target: nat, pageSize: nat): (from: nat)
    ensures from <= |t.rows|
  {
    var half := pageSize / 2;
    Below(t.rows, if target >= half then target - half else 0)
  }

  function WindowTo(t: Thread, target: nat, pageSize: nat): (to: nat)
    requires Ordered(t.rows)
    ensures WindowFrom(t, target, pageSize) <= to <= |t.rows|
  {
    var from := WindowFrom(t, target, pageSize);
    var all := Below(t.rows, target + pageSize / 2 + 1);
    BelowGrows(t.rows, if target >= pageSize / 2 then target - pageSize / 2 else 0, target + pageSize / 2 + 1);
    if all - from <= pageSize then all else from + pageSize
  }

  function PageAround(t: Thread, target: nat, pageSize: nat, o: Options): Page
    requires Ordered(t.rows)
  {
    var from, to := WindowFrom(t, target, pageSize), WindowTo(t, target, pageSize);
    Page(Shown(t, o, t.rows[from..to]), if from < to && from > 0 then Some(t.rows[from].seqNo) else None)
  }

  lemma WindowIsNoLonger(t: Thread, target: nat, pageSize: nat, o: Options)
    requires Ordered(t.rows)
    ensures |PageAround(t, target, pageSize, o).messages| <= pageSize
  {
    VisibleIsNoLonger(t, t.rows[WindowFrom(t, target, pageSize)..WindowTo(t, target, pageSize)]);
  }

  lemma CursorPosition(t: Thread, i: nat)
    requires Ordered(t.rows) && i < |t.rows|
    ensures End(t, Some(t.rows[i].seqNo)) == i
  {
    assert forall k :: 0 <= k < i ==> t.rows[k].seqNo < t.rows[i].seqNo;
    assert i > 0 ==> t.rows[i - 1].seqNo < t.rows[i].seqNo;
  }

  /** The body of the original: the scan loop, with its cursor. */
  method LoadMessagePage(t: Thread, before: Option<nat>, pageSize: nat, around: Option<Around>, o: Options)
    returns (page: Page)
    requires Ordered(t.rows) && pageSize > 0
    ensures |page.messages| <= pageSize
    ensures !(around.Some? && TargetSeq(t, around.value).Some?) && page.olderCursor.Some?
            && !o.includePeerRuns && !o.includePeerReceipts ==>
              exists i :: 0 <= i < |page.messages| && !IsReceipt(page.messages[i])
    ensures page == if around.Some? && TargetSeq(t, around.value).Some?
                    then PageAround(t, TargetSeq(t, around.value).value, pageSize, o)
                    else PageBefore(t, End(t, before), pageSize, o)
  {
    if around.Some? {
      var targetSeq := TargetSeq(t, around.value);
      if targetSeq.Some? {
        WindowIsNoLonger(t, targetSeq.value, pageSize, o);
        return PageAround(t, targetSeq.value, pageSize, o);
      }
    }
    var cursor := before;
    PageIsWorthIt(t, End(t, before), pageSize, o);
    while true
      invariant PageBefore(t, End(t, cursor), pageSize, o) == PageBefore(t, End(t, before), pageSize, o)
      decreases End(t, cursor)
    {
      var rows := FindOlder(t, cursor, pageSize + 1);
      var hasOlder := |rows| > pageSize;
      var pageRows := Descending(Take(rows, pageSize));
      RawPage(t, cursor, pageSize);
      var visibleRows := Shown(t, o, pageRows);
      var hasSubstantive := exists i :: 0 <= i < |visibleRows| && !IsReceipt(visibleRows[i]);
      if hasSubstantive || o.includePeerReceipts || !hasOlder || o.includePeerRuns {
        return Page(visibleRows, if hasOlder then Some(pageRows[0].seqNo) else None);
      }
      CursorPosition(t, Low(End(t, cursor), pageSize));
      cursor := Some(pageRows[0].seqNo);
    }
  }

  /** The query with one extra row, cut and reversed, is the raw page; the extra row says whether
      there is more. */
  lemma RawPage(t: Thread, cursor: Option<nat>, pageSize: nat)
    requires pageSize > 0
    ensures var rows := FindOlder(t, cursor, pageSize + 1);
            var end := End(t, cursor);
            && Descending(Take(rows, pageSize)) == t.rows[Low(end, pageSize)..end]
            && (|rows| > pageSize <==> Low(end, pageSize) > 0)
  {}

  /** With peer runs included a page is its raw rows. */
  lemma WholePage(t: Thread, end: nat, pageSize: nat)
    requires Ordered(t.rows) && end <= |t.rows| && pageSize > 0
    ensures var low := Low(end, pageSize);
            PageBefore(t, end, pageSize, Options(true, false))
            == Page(t.rows[low..end], if low > 0 then Some(t.rows[low].seqNo) else None)
  {}

  lemma OnePageMore(t: Thread, pages: seq<seq<Row>>, end: nat, low: nat)
    requires Ordered(t.rows) && low <= end <= |t.rows|
    requires Flat(Backwards(pages)) == t.rows[end..]
    ensures Flat(Backwards(pages + [t.rows[low..end]])) == t.rows[low..]
    ensures 0 < low < |t.rows| ==> End(t, Some(t.rows[low].seqNo)) == low
  {
    FlatCons(pages, t.rows[low..end]);
    assert t.rows[low..end] + t.rows[end..] == t.rows[low..];
    if low < |t.rows| { CursorPosition(t, low); }
  }

  method LoadAllMessages(t: Thread, pageSize: nat) returns (messages: seq<Row>)
    requires Ordered(t.rows) && pageSize > 0
    ensures messages == t.rows
  {
    var o := Options(true, false);
    var pages: seq<seq<Row>> := [];
    var before := None;
    var more := true;
    ghost var end: nat := |t.rows|;
    while more
      invariant end <= |t.rows| && Flat(Backwards(pages)) == t.rows[end..]
      invariant more ==> End(t, before) == end
      invariant !more ==> end == 0
      decreases more, end
    {
      var page := LoadMessagePage(t, before, pageSize, None, o);
      WholePage(t, end, pageSize);
      OnePageMore(t, pages, end, Low(end, pageSize));
      pages := pages + [page.messages];
      before := page.olderCursor;
      more := before.Some?;
      end := Low(end, pageSize);
    }
    messages := Flat(Backwards(pages));
  }

  function Backwards(pages: seq<seq<Row>>): seq<seq<Row>> {
    if pages == [] then [] else [pages[|pages| - 1]] + Backwards(pages[..|pages| - 1])
  }

  function Flat(pages: seq<seq<Row>>): seq<Row> { if pages == [] then [] else pages[0] + Flat(pages[1..]) }

  lemma FlatCons(pages: seq<seq<Row>>, page: seq<Row>)
    ensures Flat(Backwards(pages + [page])) == page + Flat(Backwards(pages))
  {
    assert (pages + [page])[..|pages|] == pages;
    assert Backwards(pages + [page])[1..] == Backwards(pages);
  }

  // ----- following the cursor agrees with the history -----

  /** Everything a client has after following `olderCursor` to the start, oldest first. */
  function Followed(t: Thread, end: nat, pageSize: nat, o: Options): seq<Row>
    requires Ordered(t.rows) && end <= |t.rows| && pageSize > 0
    decreases end
  {
    var page := PageBefore(t, end, pageSize, o);
    if page.olderCursor.None? then page.messages
    else Followed(t, End(t, page.olderCursor), pageSize, o) + page.messages
  }

  lemma {:induction false} VisibleConcat(t: Thread, a: seq<Row>, b: seq<Row>)
    ensures VisibleRows(t, a + b) == VisibleRows(t, a) + VisibleRows(t, b)
    decreases |b|
  {
    if b == [] { assert a + b == a; }
    else {
      assert (a + b)[..|a + b| - 1] == a + b[..|b| - 1];
      VisibleConcat(t, a, b[..|b| - 1]);
    }
  }

  lemma {:induction false} ReceiptsConcat(a: seq<Row>, b: seq<Row>)
    ensures WithoutReceipts(a + b) == WithoutReceipts(a) + WithoutReceipts(b)
    decreases |b|
  {
    if b == [] { assert a + b == a; }
    else {
      assert (a + b)[..|a + b| - 1] == a + b[..|b| - 1];
      ReceiptsConcat(a, b[..|b| - 1]);
    }
  }

  lemma {:induction false} OnlyReceipts(rows: seq<Row>)
    requires forall i :: 0 <= i < |rows| ==> IsReceipt(rows[i])
    ensures WithoutReceipts(rows) == []
  {
    if rows != [] { OnlyReceipts(rows[..|rows| - 1]); }
  }

  /** Following the cursor with peer filtering on yields every visible message that is not a
      receipt exactly once and in order: skipped pages held none. */
  lemma {:induction false} FollowedIsComplete(t: Thread, end: nat, pageSize: nat)
    requires Ordered(t.rows) && end <= |t.rows| && pageSize > 0
    ensures var o := Options(false, false);
            WithoutReceipts(Followed(t, end, pageSize, o)) == WithoutReceipts(VisibleRows(t, t.rows[..end]))
    decreases end
  {
    var o := Options(false, false);
    var low := Low(end, pageSize);
    var shown := VisibleRows(t, t.rows[low..end]);
    assert t.rows[..low] + t.rows[low..end] == t.rows[..end];
    VisibleConcat(t, t.rows[..low], t.rows[low..end]);
    ReceiptsConcat(VisibleRows(t, t.rows[..low]), shown);
    if low == 0 {
      assert t.rows[..0] == [];
    } else {
      FollowedIsComplete(t, low, pageSize);
      if Returns(o, shown, low) {
        CursorPosition(t, low);
        ReceiptsConcat(Followed(t, low, pageSize, o), shown);
      } else {
        OnlyReceipts(shown);
      }
    }
  }

  /** With receipts kept nothing is skipped: the client gets the whole visible history. */
  lemma {:induction false} FollowedWithReceipts(t: Thread, end: nat, pageSize: nat)
    requires Ordered(t.rows) && end <= |t.rows| && pageSize > 0
    ensures Followed(t, end, pageSize, Options(false, true)) == VisibleRows(t, t.rows[..end])
    decreases end
  {
    var low := Low(end, pageSize);
    assert t.rows[..low] + t.rows[low..end] == t.rows[..end];
    VisibleConcat(t, t.rows[..low], t.rows[low..end]);
    if low == 0 {
      assert t.rows[..0] == [];
    } else {
      CursorPosition(t, low);
      FollowedWithReceipts(t, low, pageSize);
    }
  }

  /** With peer runs included the pages are the history itself. */
  lemma {:induction false} FollowedIsTheHistory(t: Thread, end: nat, pageSize: nat, receipts: bool)
    requires Ordered(t.rows) && end <= |t.rows| && pageSize > 0
    ensures Followed(t, end, pageSize, Options(true, receipts)) == t.rows[..end]
    decreases end
  {
    var low := Low(end, pageSize);
    if low > 0 {
      CursorPosition(t, low);
      FollowedIsTheHistory(t, low, pageSize, receipts);
      assert t.rows[..low] + t.rows[low..end] == t.rows[..end];
    }
  }

  // ----- a page around a target -----

  /** Distinct ascending integers: the distance in position is at most the distance in value. */
  lemma {:induction false} Pigeonhole(rows: seq<Row>, i: nat, j: nat)
    requires Ordered(rows) && i <= j < |rows|
    ensures j - i <= rows[j].seqNo - rows[i].seqNo
    decreases j
  {
    if i < j { Pigeonhole(rows, i, j - 1); }
  }

  /** The window holds the rows whose numbers are within half a page of the target, cut at `pageSize`
      from the oldest on. */
  lemma WindowIsExact(t: Thread, target: nat, pageSize: nat, i: nat)
    requires Ordered(t.rows) && i < |t.rows|
    ensures var half := pageSize / 2;
            var near := target <= t.rows[i].seqNo + half && t.rows[i].seqNo <= target + half;
            WindowFrom(t, target, pageSize) <= i < WindowTo(t, target, pageSize)
            <==> near && i - WindowFrom(t, target, pageSize) < pageSize
  {
    var half := pageSize / 2;
    assert i < Below(t.rows, target + half + 1) <==> t.rows[i].seqNo < target + half + 1;
    assert i < WindowFrom(t, target, pageSize) <==> t.rows[i].seqNo < if target >= half then target - half else 0;
  }

  /** The page around an existing row contains it, before peer filtering, despite the cut at
      `pageSize`. */
  lemma AroundContainsTarget(t: Thread, i: nat, pageSize: nat)
    requires Ordered(t.rows) && i < |t.rows| && pageSize > 0
    ensures var target := t.rows[i].seqNo;
            WindowFrom(t, target, pageSize) <= i < WindowTo(t, target, pageSize)
    ensures t.rows[i] in PageAround(t, t.rows[i].seqNo, pageSize, Options(true, false)).messages
  {
    var target := t.rows[i].seqNo;
    var half := pageSize / 2;
    var from := WindowFrom(t, target, pageSize);
    var all := Below(t.rows, target + half + 1);
    assert i < all;
    assert !(t.rows[i].seqNo < if target >= half then target - half else 0);
    Pigeonhole(t.rows, from, i);
    var rows := t.rows[from..WindowTo(t, target, pageSize)];
    assert rows[i - from] == t.rows[i];
  }

  /** Continuing from the older cursor of an around page leaves no gap and no repeat: what was
      followed, then the page, is the history up to the end of the page. */
  lemma AroundContinues(t: Thread, target: nat, pageSize: nat)
    requires Ordered(t.rows) && pageSize > 0
    ensures var from, to := WindowFrom(t, target, pageSize), WindowTo(t, target, pageSize);
            var page := PageAround(t, target, pageSize, Options(true, false));
            && (page.olderCursor.None? ==> page.messages == if from < to then t.rows[..to] else [])
            && (page.olderCursor.Some? ==>
                  Followed(t, End(t, page.olderCursor), pageSize, Options(true, false)) + page.messages == t.rows[..to])
  {
    var from, to := WindowFrom(t, target, pageSize), WindowTo(t, target, pageSize);
    if from < to && from > 0 {
      CursorPosition(t, from);
      HistoryThenPage(t, from, to, pageSize);
    } else {
      assert from == 0 ==> t.rows[from..to] == t.rows[..to];
      assert from == to ==> t.rows[from..to] == [];
    }
  }

  lemma HistoryThenPage(t: Thread, from: nat, to: nat, pageSize: nat)
    requires Ordered(t.rows) && from <= to <= |t.rows| && pageSize > 0
    ensures Followed(t, from, pageSize, Options(true, false)) + t.rows[from..to] == t.rows[..to]
  {
    FollowedIsTheHistory(t, from, pageSize, false);
    assert t.rows[..from] + t.rows[from..to] == t.rows[..to];
  }

  lemma FollowedThenPage(t: Thread, from: nat, to: nat, pageSize: nat)
    requires Ordered(t.rows) && from <= to <= |t.rows| && pageSize > 0
    ensures var followed := Followed(t, from, pageSize, Options(false, false));
            WithoutReceipts(followed + VisibleRows(t, t.rows[from..to]))
                == WithoutReceipts(VisibleRows(t, t.rows[..to]))
  {
    var older, page := t.rows[..from], t.rows[from..to];
    var followed, shown := Followed(t, from, pageSize, Options(false, false)), VisibleRows(t, page);
    FollowedIsComplete(t, from, pageSize);
    VisibleConcat(t, older, page);
    assert older + page == t.rows[..to];
    ReceiptsConcat(followed, shown);
    ReceiptsConcat(VisibleRows(t, older), shown);
    assert WithoutReceipts(followed) == WithoutReceipts(VisibleRows(t, older));
  }

  /** The same with peer filtering on, up to receipts. */
  lemma AroundContinuesFiltered(t: Thread, target: nat, pageSize: nat)
    requires Ordered(t.rows) && pageSize > 0
    ensures var o := Options(false, false);
            var to := WindowTo(t, target, pageSize);
            var page := PageAround(t, target, pageSize, o);
            page.olderCursor.Some? ==>
              WithoutReceipts(Followed(t, End(t, page.olderCursor), pageSize, o) + page.messages)
              == WithoutReceipts(VisibleRows(t, t.rows[..to]))
  {
    var o := Options(false, false);
    var from, to := WindowFrom(t, target, pageSize), WindowTo(t, target, pageSize);
    if from < to && from > 0 {
      var page := PageAround(t, target, pageSize, o);
      CursorPosition(t, from);
      assert End(t, page.olderCursor) == from && page.messages == VisibleRows(t, t.rows[from..to]);
      FollowedThenPage(t, from, to, pageSize);
    }
  }
}
