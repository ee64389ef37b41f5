/** Three ways of reading a session's messages, and the reader that keeps what it decoded.

    A session's table is its rows in ascending order of sequence numbers, which may have
    gaps.  Between two reads other tasks may append. */
module Readers {
  import opened Wrappers

  datatype Row = Row(seqNo: nat, text: int)

  predicate Sorted(rows: seq<Row>) {
    forall i, j :: 0 <= i < j < |rows| ==> rows[i].seqNo < rows[j].seqNo
  }

  function Head(rows: seq<Row>): int {
    if rows == [] then -1 else rows[|rows| - 1].seqNo
  }

  /** How many rows there are up to a sequence number. */
  function Count(rows: seq<Row>, x: int): (n: nat)
    ensures n <= |rows|
    ensures n > 0 ==> rows[n - 1].seqNo <= x
    ensures n < |rows| ==> rows[n].seqNo > x
  {
    if rows == [] || rows[0].seqNo > x then 0 else 1 + Count(rows[1..], x)
  }

  /** The rows after `lo` and up to `hi`. */
  function Range(rows: seq<Row>, lo: int, hi: int): seq<Row> {
    if Count(rows, lo) <= Count(rows, hi) then rows[Count(rows, lo)..Count(rows, hi)] else []
  }

  lemma InOrder(rows: seq<Row>, i: nat, j: nat)
    requires Sorted(rows) && i <= j < |rows|
    ensures rows[i].seqNo <= rows[j].seqNo
    ensures i < j ==> rows[i].seqNo < rows[j].seqNo
  {
  }

  /** The count is determined by the rows on either side of it. */
  lemma CountIs(rows: seq<Row>, x: int, n: nat)
    requires Sorted(rows) && n <= |rows|
    requires n > 0 ==> rows[n - 1].seqNo <= x
    requires n < |rows| ==> rows[n].seqNo > x
    ensures Count(rows, x) == n
  {
    var c := Count(rows, x);
    hide Sorted, Count;
    if c < n {
      InOrder(rows, c, n - 1);
    } else if n < c {
      InOrder(rows, n, c - 1);
    }
  }

  lemma CountGrows(rows: seq<Row>, x: int, y: int)
    requires Sorted(rows) && x <= y
    ensures Count(rows, x) <= Count(rows, y)
  {
    var a, b := Count(rows, x), Count(rows, y);
    hide Sorted, Count;
    if b < a {
      InOrder(rows, b, a - 1);
    }
  }

  lemma AllBelowHead(rows: seq<Row>)
    requires Sorted(rows)
    ensures Count(rows, Head(rows)) == |rows| && Count(rows, -1) == 0
  {
    CountIs(rows, Head(rows), |rows|);
    CountIs(rows, -1, 0);
  }

  /** Which side of a bound a row is on. */
  lemma Side(rows: seq<Row>, x: int, i: nat)
    requires Sorted(rows) && i < |rows|
    ensures rows[i].seqNo <= x <==> i < Count(rows, x)
  {
    var c := Count(rows, x);
    hide Sorted, Count;
    if i < c {
      InOrder(rows, i, c - 1);
    } else {
      InOrder(rows, c, i);
    }
  }

  lemma RangeIsSorted(rows: seq<Row>, lo: int, hi: int)
    requires Sorted(rows)
    ensures Sorted(Range(rows, lo, hi))
  {
    hide Count;
  }

  lemma RangeTakes(rows: seq<Row>, lo: int, hi: int, i: nat)
    requires Sorted(rows) && i < |rows| && lo < rows[i].seqNo <= hi
    ensures rows[i] in Range(rows, lo, hi)
  {
    hide Sorted, Count;
    Side(rows, lo, i);
    Side(rows, hi, i);
    assert rows[i] == Range(rows, lo, hi)[i - Count(rows, lo)];
  }

  lemma RangeBounds(rows: seq<Row>, lo: int, hi: int, k: nat)
    requires Sorted(rows) && k < |Range(rows, lo, hi)|
    ensures Range(rows, lo, hi)[k] in rows && lo < Range(rows, lo, hi)[k].seqNo <= hi
  {
    hide Sorted, Count;
    var i := Count(rows, lo) + k;
    Side(rows, lo, i);
    Side(rows, hi, i);
    assert Range(rows, lo, hi)[k] == rows[i];
  }

  /** A range is exactly the rows between its bounds, in order. */
  lemma RangeHolds(rows: seq<Row>, lo: int, hi: int)
    requires Sorted(rows)
    ensures Sorted(Range(rows, lo, hi))
    ensures forall r :: r in Range(rows, lo, hi) <==> r in rows && lo < r.seqNo <= hi
  {
    hide Sorted, Range;
    RangeIsSorted(rows, lo, hi);
    forall r | r in Range(rows, lo, hi)
      ensures r in rows && lo < r.seqNo <= hi
    {
      var k :| 0 <= k < |Range(rows, lo, hi)| && Range(rows, lo, hi)[k] == r;
      RangeBounds(rows, lo, hi, k);
    }
    forall r | r in rows && lo < r.seqNo <= hi
      ensures r in Range(rows, lo, hi)
    {
      var i :| 0 <= i < |rows| && rows[i] == r;
      RangeTakes(rows, lo, hi, i);
    }
  }

  lemma RangeSplits(rows: seq<Row>, lo: int, mid: int, hi: int)
    requires Sorted(rows) && lo <= mid <= hi
    ensures Range(rows, lo, hi) == Range(rows, lo, mid) + Range(rows, mid, hi)
  {
    hide Sorted, Count;
    CountGrows(rows, lo, mid);
    CountGrows(rows, mid, hi);
  }

  lemma SliceOfSlice(rows: seq<Row>, a: nat, b: nat, n: nat)
    requires a <= a + n <= b <= |rows|
    ensures rows[a..b][n..] == rows[a + n..b] && rows[a..b][..n] == rows[a..a + n]
    ensures n > 0 ==> rows[a..b][n - 1] == rows[a + n - 1]
    ensures a + n < b ==> rows[a..b][n] == rows[a + n]
  {
  }

  lemma RangeIs(rows: seq<Row>, lo: int, hi: int)
    ensures Count(rows, lo) <= Count(rows, hi) ==> Range(rows, lo, hi) == rows[Count(rows, lo)..Count(rows, hi)]
    ensures Count(rows, lo) >= Count(rows, hi) ==> Range(rows, lo, hi) == []
  {
    hide Count;
  }

  /** The first `n` rows of a range are the range up to the last of them. */
  lemma FirstOfRange(rows: seq<Row>, lo: int, hi: int, n: nat)
    requires Sorted(rows) && 0 < n <= |Range(rows, lo, hi)|
    ensures var mid := Range(rows, lo, hi)[n - 1].seqNo;
            lo < mid <= hi && Range(rows, lo, mid) == Range(rows, lo, hi)[..n]
  {
    hide Sorted, Count, Range;
    var a, b := Count(rows, lo), Count(rows, hi);
    RangeIs(rows, lo, hi);
    SliceOfSlice(rows, a, b, n);
    var mid: int := rows[a + n - 1].seqNo;
    Side(rows, lo, a + n - 1);
    Side(rows, hi, a + n - 1);
    if a + n < |rows| {
      InOrder(rows, a + n - 1, a + n);
    }
    CountIs(rows, mid, a + n);
    RangeIs(rows, lo, mid);
  }

  /** The rows of a range from its `n`-th on are the range up from just below that row. */
  lemma LastOfRange(rows: seq<Row>, lo: int, hi: int, n: nat)
    requires Sorted(rows) && n < |Range(rows, lo, hi)|
    ensures var mid := Range(rows, lo, hi)[n].seqNo;
            lo < mid <= hi && Range(rows, mid - 1, hi) == Range(rows, lo, hi)[n..]
  {
    hide Sorted, Count, Range;
    var a, b := Count(rows, lo), Count(rows, hi);
    RangeIs(rows, lo, hi);
    SliceOfSlice(rows, a, b, n);
    var mid: int := rows[a + n].seqNo;
    Side(rows, lo, a + n);
    Side(rows, hi, a + n);
    if a + n >= 1 {
      InOrder(rows, a + n - 1, a + n);
    }
    CountIs(rows, mid - 1, a + n);
    RangeIs(rows, mid - 1, hi);
  }

  // ---------------------------------------------------------------------------
  // Tables that change between reads
  // ---------------------------------------------------------------------------

  /** The table at the `i`-th read; the last one stays. */
  function At(tables: seq<seq<Row>>, i: nat): seq<Row>
    requires tables != []
  {
    if i < |tables| then tables[i] else tables[|tables| - 1]
  }

  /** Up to `hi` the tables agree at every read. */
  ghost predicate Stable(tables: seq<seq<Row>>, hi: int)
    requires tables != []
  {
    forall i: nat :: Sorted(At(tables, i)) && forall lo :: Range(At(tables, i), lo, hi) == Range(At(tables, 0), lo, hi)
  }

  lemma StableFacts(tables: seq<seq<Row>>, hi: int)
    requires tables != [] && Stable(tables, hi)
    ensures forall i: nat :: Sorted(At(tables, i))
    ensures forall i: nat, lo :: Range(At(tables, i), lo, hi) == Range(At(tables, 0), lo, hi)
  {
  }

  ghost predicate OnlyAppends(tables: seq<seq<Row>>)
    requires tables != []
  {
    forall i: nat :: Sorted(At(tables, i)) && At(tables, 0) <= At(tables, i)
  }

  lemma AppendsFacts(tables: seq<seq<Row>>)
    requires tables != [] && OnlyAppends(tables)
    ensures forall i: nat :: Sorted(At(tables, i)) && At(tables, 0) <= At(tables, i) && Head(At(tables, 0)) <= Head(At(tables, i))
    ensures Head(At(tables, 0)) >= -1
  {
    forall i: nat
      ensures Head(At(tables, 0)) <= Head(At(tables, i))
    {
      HeadGrows(At(tables, 0), At(tables, i));
    }
  }

  lemma HeadGrows(t: seq<Row>, u: seq<Row>)
    requires t <= u && Sorted(u)
    ensures Head(t) <= Head(u)
  {
    hide Sorted;
    if t != [] {
      assert t[|t| - 1] == u[|t| - 1];
      InOrder(u, |t| - 1, |u| - 1);
    }
  }

  lemma LongerSameCount(t: seq<Row>, u: seq<Row>, x: int)
    requires Sorted(t) && Sorted(u) && t <= u && x <= Head(t)
    ensures Count(u, x) == Count(t, x)
  {
    hide Sorted, Count;
    var n := Count(t, x);
    if n == |t| && n > 0 && n < |u| {
      InOrder(u, n - 1, n);
    }
    if t == [] && u != [] {
      assert x < u[0].seqNo;
    }
    CountIs(u, x, n);
  }

  lemma LongerSameRange(t: seq<Row>, u: seq<Row>, lo: int, hi: int)
    requires Sorted(t) && Sorted(u) && t <= u && hi <= Head(t)
    ensures Range(u, lo, hi) == Range(t, lo, hi)
  {
    hide Sorted, Count;
    LongerSameCount(t, u, hi);
    if lo < hi {
      LongerSameCount(t, u, lo);
      CountGrows(t, lo, hi);
    } else {
      RangeBackwards(t, lo, hi);
      RangeBackwards(u, lo, hi);
    }
  }

  /** A range whose bounds are the wrong way round is empty. */
  lemma RangeBackwards(rows: seq<Row>, lo: int, hi: int)
    requires Sorted(rows) && hi <= lo
    ensures Range(rows, lo, hi) == []
  {
    CountGrows(rows, hi, lo);
  }

  /** Appends do not disturb a range whose upper bound is already reached. */
  lemma AppendsAreStable(tables: seq<seq<Row>>, hi: int)
    requires tables != [] && OnlyAppends(tables) && hi <= Head(At(tables, 0))
    ensures Stable(tables, hi)
  {
    forall i: nat, lo
      ensures Range(At(tables, i), lo, hi) == Range(At(tables, 0), lo, hi)
    {
      LongerSameRange(At(tables, 0), At(tables, i), lo, hi);
    }
  }

  // ---------------------------------------------------------------------------
  // Plain reads
  // ---------------------------------------------------------------------------

  const SNAPSHOT_PAGE := 1000

  function First<T>(s: seq<T>, n: nat): seq<T> {
    if |s| <= n then s else s[..n]
  }

  function Last<T>(s: seq<T>, n: nat): seq<T> {
    if |s| <= n then s else s[|s| - n..]
  }

  function Read(rows: seq<Row>, after: int, through: int, limit: int): Result<seq<Row>, ()> {
    if limit < 1 || after < -1 then Err(()) else Ok(First(Range(rows, after, through), limit))
  }

  /** What a snapshot answers: the range, unless a read is attempted with a bad bound. */
  function Snapshot(rows: seq<Row>, after: int, through: Option<int>): Result<seq<Row>, ()> {
    var head := if through == None then Head(rows) else through.value;
    if after < head && after < -1 then Err(()) else Ok(Range(rows, after, head))
  }

  /** Main result: the paging loop yields exactly the rows of its range, once each and in
      order, whatever is appended between two pages. */
  method PlainSnapshot(tables: seq<seq<Row>>, after: int, through: Option<int>) returns (answer: Result<seq<Row>, ()>)
    requires tables != [] && Stable(tables, if through == None then Head(At(tables, 0)) else through.value)
    ensures answer == Snapshot(At(tables, 0), after, through)
  {
    hide Range, Sorted, Stable;
    StableFacts(tables, if through == None then Head(At(tables, 0)) else through.value);
    var head := if through == None then Head(At(tables, 0)) else through.value;
    var messages, cursor := [], after;
    ghost var all := At(tables, 0);
    assert Sorted(all);
    var read := 0;
    RangeEmpty(all, after);
    while cursor < head
      invariant after <= cursor && (cursor <= head || cursor == after)
      invariant cursor == after || after >= -1
      invariant messages == Range(all, after, cursor) && (cursor == after ==> messages == [])
      decreases head - cursor
    {
      var page := Read(At(tables, read), cursor, head, SNAPSHOT_PAGE);
      if page.Err? {
        return Err(());
      }
      RangeSplits(all, after, cursor, head);
      if page.value == [] {
        assert messages + [] == messages;
        break;
      }
      FirstOfRange(all, cursor, head, |page.value|);
      var next := page.value[|page.value| - 1].seqNo;
      RangeSplits(all, after, cursor, next);
      messages, cursor, read := messages + page.value, next, read + 1;
    }
    if head <= after {
      RangeBackwards(all, after, head);
    }
    answer := Ok(messages);
  }

  lemma RangeEmpty(rows: seq<Row>, x: int)
    ensures Range(rows, x, x) == []
  {
  }

  // ---------------------------------------------------------------------------
  // Pages
  // ---------------------------------------------------------------------------

  datatype Page = Page(rows: seq<Row>, through: int, more: bool)

  /** One page in a read transaction of its own; None where the request is invalid. */
  function PageOf(rows: seq<Row>, after: int, before: Option<int>, through: Option<int>, limit: int, tail: bool): Option<Page> {
    var head := Head(rows);
    var top := if through == None then head else through.value;
    if !(1 <= limit <= 200) || after < -1 || (before != None && before.value < 0) then None
    else if !(-1 <= top <= head) || after > top then None
    else if before != None && before.value > top + 1 then None
    else
      var bound := if before == None then top else before.value - 1;
      var found := Range(rows, after, bound);
      Some(Page(if tail then Last(found, limit) else First(found, limit), top, |found| > limit))
  }

  /** The first rows as they are read. */
  method TakeFirst(found: seq<Row>, limit: nat) returns (selected: seq<Row>)
    ensures selected == First(found, limit)
  {
    selected := [];
    var i := 0;
    while i < |found| && i < limit
      invariant i <= |found| && i <= limit && selected == found[..i]
    {
      selected := selected + [found[i]];
      i := i + 1;
    }
  }

  /** The last rows, read in descending order and turned round. */
  method TakeLast(found: seq<Row>, limit: nat) returns (selected: seq<Row>)
    ensures selected == Last(found, limit)
  {
    selected := [];
    var i := |found|;
    while i > 0 && |found| - i < limit
      invariant 0 <= i <= |found| && |found| - i <= limit && selected == found[i..]
    {
      i := i - 1;
      selected := [found[i]] + selected;
    }
  }

  /** The page as the program makes it: one row more than asked for decides `more`. */
  method MakePage(rows: seq<Row>, after: int, before: Option<int>, through: Option<int>, limit: int, tail: bool)
    returns (page: Option<Page>)
    ensures page == PageOf(rows, after, before, through, limit, tail)
  {
    hide Range, Head, First, Last;
    if !(1 <= limit <= 200) || after < -1 || (before != None && before.value < 0) {
      return None;
    }
    var head := Head(rows);
    var top := if through == None then head else through.value;
    if !(-1 <= top <= head) || after > top {
      return None;
    }
    var end := if before == None then top + 1 else before.value;
    if end > top + 1 {
      return None;
    }
    var found := Range(rows, after, end - 1);
    var selected;
    if tail {
      selected := TakeLast(found, limit);
    } else {
      selected := TakeFirst(found, limit);
    }
    page := Some(Page(selected, top, |found| > limit));
  }

  /** `more` is false exactly when nothing of the range lies beyond the page. */
  lemma MoreIsExact(rows: seq<Row>, after: int, before: Option<int>, through: Option<int>, limit: int, tail: bool)
    requires Sorted(rows) && PageOf(rows, after, before, through, limit, tail).Some?
    ensures var page := PageOf(rows, after, before, through, limit, tail).value;
            var bound := if before == None then page.through else before.value - 1;
            if page.rows == [] then !page.more && Range(rows, after, bound) == []
            else if tail then page.more <==> Range(rows, after, page.rows[0].seqNo - 1) != []
            else page.more <==> Range(rows, page.rows[|page.rows| - 1].seqNo, bound) != []
  {
    PageIsCut(rows, after, before, through, limit, tail);
    hide PageOf, Range, Sorted, Cut;
    MoreOfCut(rows, after, if before == None then PageOf(rows, after, before, through, limit, tail).value.through else before.value - 1,
              limit, tail);
  }

  lemma MoreOfCut(rows: seq<Row>, after: int, bound: int, limit: nat, tail: bool)
    requires Sorted(rows) && limit > 0
    ensures var found := Range(rows, after, bound);
            var cut := Cut(found, limit, tail);
            if cut == [] then |found| <= limit && found == []
            else if tail then |found| > limit <==> Range(rows, after, cut[0].seqNo - 1) != []
            else |found| > limit <==> Range(rows, cut[|cut| - 1].seqNo, bound) != []
  {
    hide Range, Sorted;
    var found := Range(rows, after, bound);
    var cut := Cut(found, limit, tail);
    if cut != [] {
      if tail {
        LastOfRange(rows, after, bound, |found| - |cut|);
        RangeSplits(rows, after, cut[0].seqNo - 1, bound);
      } else {
        FirstOfRange(rows, after, bound, |cut|);
        RangeSplits(rows, after, cut[|cut| - 1].seqNo, bound);
      }
    }
  }

  lemma FirstLeavesOut(found: seq<Row>, n: nat, r: Row)
    requires Sorted(found) && n > 0
    ensures var first := First(found, n);
            && Sorted(first) && |first| <= n && (r in first ==> r in found)
            && (r in found && r !in first ==> |first| == n < |found| && forall q :: q in first ==> q.seqNo < r.seqNo)
            && (|found| > n ==> exists q :: q in found && q !in first)
  {
    if |found| > n {
      assert found[n] in found && found[n] !in found[..n];
    }
  }

  lemma LastLeavesOut(found: seq<Row>, n: nat, r: Row)
    requires Sorted(found) && n > 0
    ensures var last := Last(found, n);
            && Sorted(last) && |last| <= n && (r in last ==> r in found)
            && (r in found && r !in last ==> |last| == n < |found| && forall q :: q in last ==> r.seqNo < q.seqNo)
            && (|found| > n ==> exists q :: q in found && q !in last)
  {
    if |found| > n {
      assert found[0] in found && found[0] !in found[|found| - n..];
    }
  }

  /** Main result: a read is refused exactly for a limit or a start that is out of bounds;
      otherwise it gives rows of the range, in order, and leaves out only later ones, and
      those only when it is full. */
  lemma ReadHolds(rows: seq<Row>, after: int, through: int, limit: int, r: Row)
    requires Sorted(rows)
    ensures Read(rows, after, through, limit).Ok? <==> limit > 0 && after >= -1
    ensures Read(rows, after, through, limit).Ok? ==>
              var page := Read(rows, after, through, limit).value;
              && Sorted(page) && |page| <= limit
              && (r in page ==> r in rows && after < r.seqNo <= through)
              && (r in rows && after < r.seqNo <= through && r !in page ==>
                    |page| == limit && forall q :: q in page ==> q.seqNo < r.seqNo)
  {
    RangeHolds(rows, after, through);
    if limit > 0 {
      FirstLeavesOut(Range(rows, after, through), limit, r);
    }
    hide Range, Sorted, First;
  }

  /** Main result: a snapshot is refused exactly when it would have to read from a start that
      is out of bounds; otherwise it holds exactly the rows after the start and up to the
      bound, or to the last row, in order. */
  lemma SnapshotHolds(rows: seq<Row>, after: int, through: Option<int>, r: Row)
    requires Sorted(rows)
    ensures Snapshot(rows, after, through).Err? <==> after < -1 && (through == None || after < through.value)
    ensures Snapshot(rows, after, through).Ok? ==>
              Sorted(Snapshot(rows, after, through).value) &&
              (r in Snapshot(rows, after, through).value <==>
                 r in rows && after < r.seqNo && (through == None || r.seqNo <= through.value))
  {
    RangeHolds(rows, after, if through == None then Head(rows) else through.value);
    hide Range;
  }

  /** The rows of a page, cut from what was found. */
  function Cut(found: seq<Row>, limit: nat, tail: bool): seq<Row> {
    if tail then Last(found, limit) else First(found, limit)
  }

  lemma CutLeavesOut(found: seq<Row>, limit: nat, tail: bool, r: Row)
    requires Sorted(found) && limit > 0
    ensures var cut := Cut(found, limit, tail);
            && Sorted(cut) && |cut| <= limit && (r in cut ==> r in found)
            && (r in found && r !in cut ==>
                  |cut| == limit < |found| && forall q :: q in cut ==> if tail then r.seqNo < q.seqNo else q.seqNo < r.seqNo)
            && (|found| > limit ==> exists q :: q in found && q !in cut)
  {
    hide First, Last, Sorted;
    if tail {
      LastLeavesOut(found, limit, r);
    } else {
      FirstLeavesOut(found, limit, r);
    }
  }

  lemma PageIsCut(rows: seq<Row>, after: int, before: Option<int>, through: Option<int>, limit: int, tail: bool)
    ensures var top := if through == None then Head(rows) else through.value;
            var found := Range(rows, after, if before == None then top else before.value - 1);
            PageOf(rows, after, before, through, limit, tail) ==
              if 1 <= limit <= 200 && -1 <= after <= top <= Head(rows) && (before == None || 0 <= before.value <= top + 1)
              then Some(Page(Cut(found, limit, tail), top, |found| > limit)) else None
  {
    hide Range, First, Last, Head;
  }

  /** Main result: a page is refused exactly when its limit, its start, its bound or its end
      is out of bounds.  Otherwise it holds rows of the window, in order; it leaves out only
      what is later, or for a tail earlier, and only when it is full; and `more` tells
      whether it leaves something out. */
  lemma PageHolds(rows: seq<Row>, after: int, before: Option<int>, through: Option<int>, limit: int, tail: bool, r: Row)
    requires Sorted(rows)
    ensures var top := if through == None then Head(rows) else through.value;
            PageOf(rows, after, before, through, limit, tail).Some? <==>
              1 <= limit <= 200 && -1 <= after <= top <= Head(rows) && (before == None || 0 <= before.value <= top + 1)
    ensures PageOf(rows, after, before, through, limit, tail).Some? ==>
              var top := if through == None then Head(rows) else through.value;
              var page := PageOf(rows, after, before, through, limit, tail).value;
              && page.through == top && Sorted(page.rows) && |page.rows| <= limit
              && (r in page.rows ==> Wanted(rows, after, before, top, r))
              && (Wanted(rows, after, before, top, r) && r !in page.rows ==>
                    page.more && |page.rows| == limit &&
                    forall q :: q in page.rows ==> if tail then r.seqNo < q.seqNo else q.seqNo < r.seqNo)
              && (page.more ==> exists q :: Wanted(rows, after, before, top, q) && q !in page.rows)
  {
    PageIsCut(rows, after, before, through, limit, tail);
    hide PageOf, Range, Sorted, Cut, Wanted;
    if PageOf(rows, after, before, through, limit, tail).Some? {
      var top := if through == None then Head(rows) else through.value;
      var bound := if before == None then top else before.value - 1;
      RangeHolds(rows, after, bound);
      WindowIsRange(rows, after, before, top, Range(rows, after, bound));
      CutLeavesOut(Range(rows, after, bound), limit, tail, r);
    }
  }

  lemma WindowIsRange(rows: seq<Row>, after: int, before: Option<int>, top: int, found: seq<Row>)
    requires before == None || before.value <= top + 1
    requires forall q :: q in found <==> q in rows && after < q.seqNo <= if before == None then top else before.value - 1
    ensures forall q :: q in found <==> Wanted(rows, after, before, top, q)
  {
  }

  /** The row lies in the window of a page. */
  predicate Wanted(rows: seq<Row>, after: int, before: Option<int>, top: int, r: Row) {
    r in rows && after < r.seqNo <= top && (before == None || r.seqNo < before.value)
  }

  /** The upper bound of a chain: the one asked for, or the head at the first read. */
  function Top(rows: seq<Row>, start: Option<int>): int {
    if start == None then Head(rows) else start.value
  }

  /** Main result: following pages forward from `after` yields exactly the rows up to the
      bound of the first request, once each and in order, while appends interleave. */
  method FollowPages(tables: seq<seq<Row>>, after: int, start: Option<int>, limit: int)
    returns (messages: seq<Row>, through: int)
    requires tables != [] && OnlyAppends(tables) && 1 <= limit <= 200
    requires -1 <= after <= Top(At(tables, 0), start) <= Head(At(tables, 0))
    ensures through == Top(At(tables, 0), start) && messages == Range(At(tables, 0), after, through)
  {
    hide Range, Sorted, OnlyAppends, Stable, Head;
    ghost var all := At(tables, 0);
    through := Top(At(tables, 0), start);
    AppendsFacts(tables);
    messages := [];
    var cursor, read, bound := after, 0, start;
    RangeEmpty(all, after);
    while true
      invariant -1 <= after <= cursor <= through && messages == Range(all, after, cursor)
      invariant bound == None ==> read == 0 && start == None
      invariant bound != None ==> bound.value == through
      decreases through - cursor
    {
      var table := At(tables, read);
      var page := MakePage(table, cursor, None, bound, limit, false);
      assert page.Some? && page.value.through == through;
      MoreIsExact(table, cursor, None, bound, limit, false);
      LongerSameRange(all, table, cursor, through);
      RangeSplits(all, after, cursor, through);
      if page.value.rows == [] {
        break;
      }
      FirstOfRange(all, cursor, through, |page.value.rows|);
      var next := page.value.rows[|page.value.rows| - 1].seqNo;
      LongerSameRange(all, table, next, through);
      RangeSplits(all, after, cursor, next);
      RangeSplits(all, after, next, through);
      messages, cursor, read, bound := messages + page.value.rows, next, read + 1, Some(page.value.through);
      if !page.value.more {
        break;
      }
    }
  }

  /** The tail page of any later table is cut from the rows of the first one. */
  lemma TailPage(t: seq<Row>, u: seq<Row>, before: Option<int>, bound: Option<int>, limit: nat, end: int, through: int)
    requires Sorted(t) && Sorted(u) && t <= u && Head(t) <= Head(u) && 1 <= limit <= 200 && -1 <= end <= through <= Head(t)
    requires before == Some(end + 1) || (before == None && end == through)
    requires bound == Some(through) || (bound == None && t == u && through == Head(t))
    ensures var found := Range(t, -1, end);
            PageOf(u, -1, before, bound, limit, true) == Some(Page(Last(found, limit), through, |found| > limit))
  {
    LongerSameRange(t, u, -1, end);
    hide Range, Sorted, Last, First;
  }

  /** Putting a tail page before what was read so far. */
  lemma TailJoins(rows: seq<Row>, end: int, through: int, limit: nat)
    requires Sorted(rows) && -1 <= end <= through && limit > 0 && Range(rows, -1, end) != []
    ensures var page := Last(Range(rows, -1, end), limit);
            var first: int := page[0].seqNo;
            && 0 <= first <= end
            && page + Range(rows, end, through) == Range(rows, first - 1, through)
            && (|Range(rows, -1, end)| <= limit ==> Range(rows, -1, first - 1) == [])
  {
    hide Range, Sorted;
    var found := Range(rows, -1, end);
    var page := Last(found, limit);
    var first: int := page[0].seqNo;
    LastOfRange(rows, -1, end, |found| - |page|);
    RangeSplits(rows, first - 1, end, through);
    RangeSplits(rows, -1, first - 1, end);
  }

  /** Main result: following tail pages backwards from `first`, or from the bound of the
      first request, and joining them yields exactly the rows up to there, once each and in
      order, while appends interleave. */
  method FollowTails(tables: seq<seq<Row>>, first: Option<int>, start: Option<int>, limit: int)
    returns (messages: seq<Row>, through: int)
    requires tables != [] && OnlyAppends(tables) && 1 <= limit <= 200
    requires -1 <= Top(At(tables, 0), start) <= Head(At(tables, 0))
    requires first == None || 0 <= first.value <= Top(At(tables, 0), start) + 1
    ensures through == Top(At(tables, 0), start)
    ensures messages == Range(At(tables, 0), -1, if first == None then through else first.value - 1)
  {
    hide Range, Sorted, OnlyAppends, Stable, Head, Last, PageOf;
    ghost var all := At(tables, 0);
    through := Top(At(tables, 0), start);
    AppendsFacts(tables);
    messages := [];
    var before, read, bound := first, 0, start;
    ghost var last: int := if first == None then through else first.value - 1;
    ghost var end: int := last;
    RangeEmpty(all, end);
    while true
      invariant -1 <= end <= last <= through && messages == Range(all, end, last)
      invariant (bound == None && start == None && read == 0) || bound == Some(through)
      invariant (before == None && end == through) || before == Some(end + 1)
      decreases end
    {
      TailPage(all, At(tables, read), before, bound, limit, end, through);
      var page := MakePage(At(tables, read), -1, before, bound, limit, true);
      RangeSplits(all, -1, end, last);
      LastIsEmpty(Range(all, -1, end), limit);
      if page.value.rows == [] {
        assert [] + messages == messages;
        break;
      }
      TailJoins(all, end, last, limit);
      var oldest: int := page.value.rows[0].seqNo;
      RangeSplits(all, -1, oldest - 1, last);
      messages, before, read, bound := page.value.rows + messages, Some(oldest), read + 1, Some(page.value.through);
      end := oldest - 1;
      if !page.value.more {
        assert [] + messages == messages;
        break;
      }
    }
  }

  lemma LastIsEmpty<T>(s: seq<T>, n: nat)
    requires n > 0
    ensures Last(s, n) == [] <==> s == []
  {
  }

  // ---------------------------------------------------------------------------
  // The incremental reader
  // ---------------------------------------------------------------------------

  /** The session as one connection sees it.  `version` changes exactly when another
      connection commits. */
  datatype Db = Db(rows: seq<Row>, nextSeq: nat, version: nat)

  datatype Cache = Cache(rows: seq<Row>, version: Option<nat>)

  const NOTHING := Cache([], None)

  /** What the reader starts from: its rows, unless another connection has committed. */
  function Kept(c: Cache, db: Db): seq<Row> {
    if c.version == Some(db.version) then c.rows else []
  }

  function Through(db: Db, through: Option<int>): int {
    if through == None || Head(db.rows) < through.value then Head(db.rows) else through.value
  }

  /** The rows after catching up. */
  function CaughtUp(c: Cache, db: Db, through: Option<int>): seq<Row> {
    var kept := Kept(c, db);
    var top := Through(db, through);
    if top > Head(kept) then kept + Range(db.rows, Head(kept), top) else kept
  }

  function Slice(rows: seq<Row>, after: int, top: int): seq<Row> {
    Range(rows, after, top)
  }

  /** Binary search for the number of rows up to `x`. */
  method BisectRight(rows: seq<Row>, x: int) returns (n: nat)
    requires Sorted(rows)
    ensures n == Count(rows, x)
  {
    var lo, hi := 0, |rows|;
    while lo < hi
      invariant 0 <= lo <= hi <= |rows|
      invariant lo > 0 ==> rows[lo - 1].seqNo <= x
      invariant hi < |rows| ==> x < rows[hi].seqNo
    {
      var mid := (lo + hi) / 2;
      if x < rows[mid].seqNo {
        hi := mid;
      } else {
        lo := mid + 1;
      }
    }
    CountIs(rows, x, lo);
    n := lo;
  }

  /** The cache is the table up to its last row, as far as the version can tell. */
  ghost predicate Good(c: Cache, db: Db) {
    Sorted(db.rows) && Sorted(c.rows) && (c.version == Some(db.version) ==> c.rows == Range(db.rows, -1, Head(c.rows)))
  }

  lemma GoodFacts(c: Cache, db: Db)
    requires Good(c, db)
    ensures Sorted(db.rows) && Sorted(c.rows)
    ensures c.version == Some(db.version) ==> c.rows == Range(db.rows, -1, Head(c.rows))
  {
  }

  lemma SliceIs(rows: seq<Row>, after: int, top: int)
    ensures Slice(rows, after, top) ==
              if Count(rows, after) <= Count(rows, top) then rows[Count(rows, after)..Count(rows, top)] else []
  {
  }

  class IncrementalReader {
    var messages: seq<Row>
    var dataVersion: Option<nat>

    ghost function View(): Cache
      reads this
    {
      Cache(messages, dataVersion)
    }

    constructor ()
      ensures View() == NOTHING
    {
      messages, dataVersion := [], None;
    }

    /** Inside an own transaction, which may still be rolled back, nothing is kept. */
    method SnapshotInTransaction(rows: seq<Row>, after: int, through: Option<int>) returns (answer: Result<seq<Row>, ()>)
      requires Sorted(rows)
      ensures answer == Snapshot(rows, after, through)
    {
      StaysTheSame(rows, if through == None then Head(rows) else through.value);
      answer := PlainSnapshot([rows], after, through);
    }

    /** Catches up inside one read transaction and cuts the range out of the cache. */
    method CatchUp(db: Db, after: int, through: Option<int>) returns (answer: seq<Row>)
      requires Good(View(), db)
      modifies this
      ensures View() == Cache(CaughtUp(old(View()), db, through), Some(db.version)) && Good(View(), db)
      ensures answer == Slice(messages, after, Through(db, through))
    {
      hide Range, Sorted, Good, Stable;
      var rows := if dataVersion == Some(db.version) then messages else [];
      var previous := Head(rows);
      var top := if through == None then Head(db.rows) else if Head(db.rows) < through.value then Head(db.rows) else through.value;
      CatchingUpIsGood(View(), db, through);
      GoodFacts(View(), db);
      GoodFacts(Cache(CaughtUp(View(), db, through), Some(db.version)), db);
      if top > previous {
        StaysTheSame(db.rows, top);
        var added := PlainSnapshot([db.rows], previous, Some(top));
        rows := rows + added.value;
      }
      messages, dataVersion := rows, Some(db.version);
      var start := BisectRight(rows, after);
      var stop := BisectRight(rows, top);
      answer := if start <= stop then rows[start..stop] else [];
      SliceIs(rows, after, top);
    }
  }

  lemma StaysTheSame(rows: seq<Row>, hi: int)
    requires Sorted(rows)
    ensures Stable([rows], hi)
  {
  }

  /** A prefix of the table is the table up to its own last row. */
  lemma PrefixIsOwn(rows: seq<Row>, hi: int)
    requires Sorted(rows)
    ensures var range := Range(rows, -1, hi); Sorted(range) && range == Range(rows, -1, Head(range))
  {
    var range := Range(rows, -1, hi);
    RangeIsSorted(rows, -1, hi);
    RangeEmpty(rows, -1);
    hide Range, Sorted;
    if range != [] {
      FirstOfRange(rows, -1, hi, |range|);
      assert range[..|range|] == range;
    }
  }

  lemma CatchingUpIsGood(c: Cache, db: Db, through: Option<int>)
    requires Good(c, db)
    ensures Good(Cache(CaughtUp(c, db, through), Some(db.version)), db)
  {
    hide Range, Sorted;
    RangeEmpty(db.rows, -1);
    var kept, top := Kept(c, db), Through(db, through);
    assert kept == Range(db.rows, -1, Head(kept)) && Head(kept) >= -1;
    PrefixIsOwn(db.rows, Head(kept));
    if top > Head(kept) {
      RangeSplits(db.rows, -1, Head(kept), top);
      PrefixIsOwn(db.rows, top);
    }
  }

  // ---------------------------------------------------------------------------
  // Whole runs of the incremental reader
  // ---------------------------------------------------------------------------

  /** The next row of this connection goes to the session's counter; another connection
      may leave any table and any counter behind. */
  datatype Action = OwnAppend(text: int) | Foreign(rows: seq<Row>, nextSeq: nat) | TakeSnapshot(through: Option<int>)

  function InsertRow(rows: seq<Row>, r: Row): seq<Row> {
    rows[..Count(rows, r.seqNo)] + [r] + rows[Count(rows, r.seqNo)..]
  }

  datatype State = State(db: Db, cache: Cache)

  const START := State(Db([], 0, 0), NOTHING)

  /** An own append needs a free number: the table is unique in it. */
  ghost predicate Enabled(s: State, a: Action) {
    match a
    case OwnAppend(_) => forall r :: r in s.db.rows ==> r.seqNo != s.db.nextSeq
    case Foreign(rows, _) => Sorted(rows)
    case TakeSnapshot(_) => true
  }

  function Step(s: State, a: Action): State {
    match a
    case OwnAppend(text) =>
      s.(db := Db(InsertRow(s.db.rows, Row(s.db.nextSeq, text)), s.db.nextSeq + 1, s.db.version))
    case Foreign(rows, nextSeq) => s.(db := Db(rows, nextSeq, s.db.version + 1))
    case TakeSnapshot(through) => s.(cache := Cache(CaughtUp(s.cache, s.db, through), Some(s.db.version)))
  }

  ghost predicate Moves(s: State, a: Action, t: State) {
    Enabled(s, a) && t == Step(s, a)
  }

  ghost predicate IsRun(states: seq<State>, acts: seq<Action>) {
    |states| == |acts| + 1 && states[0] == START && forall i :: 0 <= i < |acts| ==> Moves(states[i], acts[i], states[i + 1])
  }

  /** What the incremental reader answers, whatever it kept. */
  function Incremental(c: Cache, db: Db, after: int, through: Option<int>): seq<Row> {
    Slice(CaughtUp(c, db, through), after, Through(db, through))
  }

  lemma PrefixIs(rows: seq<Row>, hi: int)
    requires Sorted(rows)
    ensures Range(rows, -1, hi) == rows[..Count(rows, hi)]
  {
    AllBelowHead(rows);
    hide Sorted, Count;
  }

  lemma PrefixIsSorted(rows: seq<Row>, k: nat)
    requires Sorted(rows) && k <= |rows|
    ensures Sorted(rows[..k])
  {
  }

  lemma PrefixCount(rows: seq<Row>, k: nat, x: int)
    requires Sorted(rows) && Count(rows, x) <= k <= |rows|
    ensures Count(rows[..k], x) == Count(rows, x)
  {
    var n := Count(rows, x);
    PrefixIsSorted(rows, k);
    hide Sorted, Count;
    var prefix := rows[..k];
    assert n > 0 ==> prefix[n - 1] == rows[n - 1];
    assert n < k ==> prefix[n] == rows[n];
    CountIs(prefix, x, n);
  }

  /** After catching up the reader holds a prefix of the table that reaches the bound. */
  lemma CaughtUpIsPrefix(c: Cache, db: Db, through: Option<int>)
    requires Good(c, db)
    ensures var rows := CaughtUp(c, db, through);
            |rows| <= |db.rows| && rows == db.rows[..|rows|] && Count(db.rows, Through(db, through)) <= |rows|
  {
    hide Range, Sorted, Count;
    RangeEmpty(db.rows, -1);
    var kept, top := Kept(c, db), Through(db, through);
    assert kept == Range(db.rows, -1, Head(kept)) && Head(kept) >= -1;
    PrefixIs(db.rows, Head(kept));
    if top > Head(kept) {
      RangeSplits(db.rows, -1, Head(kept), top);
      PrefixIs(db.rows, top);
    } else {
      CountGrows(db.rows, top, Head(kept));
    }
  }

  lemma SliceOfPrefix(rows: seq<Row>, k: nat, a: nat, b: nat)
    requires a <= b <= k <= |rows|
    ensures rows[..k][a..b] == rows[a..b]
  {
  }

  /** A prefix that reaches the bound answers like the table. */
  lemma PrefixAnswers(rows: seq<Row>, k: nat, lo: int, hi: int)
    requires Sorted(rows) && Count(rows, hi) <= k <= |rows|
    ensures Range(rows[..k], lo, hi) == Range(rows, lo, hi)
  {
    hide Sorted, Count;
    PrefixIsSorted(rows, k);
    if lo <= hi {
      CountGrows(rows, lo, hi);
      PrefixCount(rows, k, hi);
      PrefixCount(rows, k, lo);
      SliceOfPrefix(rows, k, Count(rows, lo), Count(rows, hi));
    } else {
      hide Range;
      RangeBackwards(rows, lo, hi);
      RangeBackwards(rows[..k], lo, hi);
    }
  }

  /** Beyond the head there is nothing more. */
  lemma PastHead(rows: seq<Row>, lo: int, hi: int)
    requires Sorted(rows) && Head(rows) <= hi
    ensures Range(rows, lo, hi) == Range(rows, lo, Head(rows))
  {
    AllBelowHead(rows);
    CountIs(rows, hi, |rows|);
    hide Sorted, Count;
  }

  /** With a good cache the incremental answer is the plain one, for every range; only a
      bound below -1 is refused by the plain reader and accepted by this one. */
  lemma GoodMeansPlain(c: Cache, db: Db, after: int, through: Option<int>)
    requires Good(c, db)
    ensures Snapshot(db.rows, after, through).Ok? ==> Ok(Incremental(c, db, after, through)) == Snapshot(db.rows, after, through)
    ensures Snapshot(db.rows, after, through).Err? <==>
              after < -1 && after < (if through == None then Head(db.rows) else through.value)
  {
    hide Range, Sorted, Count;
    CaughtUpIsPrefix(c, db, through);
    PrefixAnswers(db.rows, |CaughtUp(c, db, through)|, after, Through(db, through));
    PastHead(db.rows, after, if through == None || through.value < Head(db.rows) then Head(db.rows) else through.value);
  }

  /** The number of the next own append is above everything the cache claims to cover. */
  predicate Above(s: State) {
    s.cache.version == Some(s.db.version) ==> s.db.nextSeq > Head(s.cache.rows)
  }

  ghost predicate Inv(s: State) {
    Good(s.cache, s.db) && (s.cache.version != None ==> s.cache.version.value <= s.db.version)
  }

  lemma InsertIsSorted(rows: seq<Row>, r: Row)
    requires Sorted(rows) && forall x :: x in rows ==> x.seqNo != r.seqNo
    ensures Sorted(InsertRow(rows, r))
  {
    var k, then_ := Count(rows, r.seqNo), InsertRow(rows, r);
    forall i, j | 0 <= i < j < |then_|
      ensures then_[i].seqNo < then_[j].seqNo
    {
      var a, b := if i <= k then i else i - 1, if j <= k then j else j - 1;
      SidesOfInsert(rows, r, if i < k then i else a);
      SidesOfInsert(rows, r, if j < k then j else b);
    }
  }

  lemma SidesOfInsert(rows: seq<Row>, r: Row, i: nat)
    requires Sorted(rows) && forall x :: x in rows ==> x.seqNo != r.seqNo
    ensures i < |rows| ==> (rows[i].seqNo < r.seqNo <==> i < Count(rows, r.seqNo))
  {
    hide Sorted, Count;
    if i < |rows| {
      Side(rows, r.seqNo, i);
      assert rows[i] in rows;
    }
  }

  lemma InsertedAt(rows: seq<Row>, r: Row, n: nat)
    requires n <= Count(rows, r.seqNo)
    ensures var then_ := InsertRow(rows, r);
            && |then_| == |rows| + 1
            && then_[Count(rows, r.seqNo)] == r
            && then_[..n] == rows[..n]
            && (n > 0 ==> then_[n - 1] == rows[n - 1])
            && (n < Count(rows, r.seqNo) ==> then_[n] == rows[n])
  {
    hide Count;
  }

  lemma InsertBelow(rows: seq<Row>, r: Row, hi: int)
    requires Sorted(rows) && Sorted(InsertRow(rows, r)) && hi < r.seqNo
    ensures Range(InsertRow(rows, r), -1, hi) == Range(rows, -1, hi)
  {
    hide Sorted, Count, Range, InsertRow;
    var n := Count(rows, hi);
    CountGrows(rows, hi, r.seqNo);
    InsertedAt(rows, r, n);
    CountIs(InsertRow(rows, r), hi, n);
    PrefixIs(rows, hi);
    PrefixIs(InsertRow(rows, r), hi);
  }

  /** An own append leaves the cache good exactly when its number is above it. */
  lemma OwnAppendKeepsGoodIffAbove(s: State, text: int)
    requires Inv(s) && Enabled(s, OwnAppend(text))
    ensures Sorted(Step(s, OwnAppend(text)).db.rows)
    ensures Good(s.cache, Step(s, OwnAppend(text)).db) <==> Above(s)
  {
    var r := Row(s.db.nextSeq, text);
    var then_ := InsertRow(s.db.rows, r);
    InsertIsSorted(s.db.rows, r);
    hide Sorted, Count, Range, InsertRow;
    if s.cache.version == Some(s.db.version) {
      var hi := Head(s.cache.rows);
      if hi < r.seqNo {
        InsertBelow(s.db.rows, r, hi);
      } else {
        InsertedAt(s.db.rows, r, 0);
        RangeHolds(then_, -1, hi);
        RangeHolds(s.db.rows, -1, hi);
        assert r in Range(then_, -1, hi) && r !in s.cache.rows;
      }
    }
  }

  lemma StepKeepsInv(s: State, a: Action)
    requires Inv(s) && Enabled(s, a) && (a.OwnAppend? ==> Above(s))
    ensures Inv(Step(s, a))
  {
    hide Range, Sorted, InsertRow, CaughtUp;
    match a
    case OwnAppend(text) => OwnAppendKeepsGoodIffAbove(s, text);
    case Foreign(_, _) =>
    case TakeSnapshot(through) => CatchingUpIsGood(s.cache, s.db, through);
  }

  lemma {:induction false} RunsKeepInv(states: seq<State>, acts: seq<Action>, i: nat)
    requires IsRun(states, acts) && i < |states|
    requires forall j :: 0 <= j < |acts| && acts[j].OwnAppend? ==> Above(states[j])
    ensures Inv(states[i])
  {
    if i > 0 {
      RunsKeepInv(states, acts, i - 1);
      assert Moves(states[i - 1], acts[i - 1], states[i - 1 + 1]);
      hide Step, Inv, Enabled, Above;
      StepKeepsInv(states[i - 1], acts[i - 1]);
    }
  }

  /** Main result: under own appends, foreign edits of any kind, gaps and earlier partial
      requests, the incremental reader answers every request like the plain one, as long
      as each own append is numbered above the rows already kept. */
  lemma IncrementalIsPlain(states: seq<State>, acts: seq<Action>, i: nat, after: int, through: Option<int>)
    requires IsRun(states, acts) && i < |states|
    requires forall j :: 0 <= j < |acts| && acts[j].OwnAppend? ==> Above(states[j])
    ensures var s := states[i];
            Snapshot(s.db.rows, after, through).Ok? ==>
              Ok(Incremental(s.cache, s.db, after, through)) == Snapshot(s.db.rows, after, through)
  {
    hide IsRun;
    RunsKeepInv(states, acts, i);
    GoodMeansPlain(states[i].cache, states[i].db, after, through);
  }

  /** Where it fails: right after an own append the full answer is the plain one exactly
      when the append was numbered above the kept rows. */
  lemma OwnAppendIsSeenIffAbove(s: State, text: int)
    requires Inv(s) && Enabled(s, OwnAppend(text))
    ensures var t := Step(s, OwnAppend(text));
            Ok(Incremental(t.cache, t.db, -1, None)) == Snapshot(t.db.rows, -1, None) <==> Above(s)
  {
    var t, r := Step(s, OwnAppend(text)), Row(s.db.nextSeq, text);
    OwnAppendKeepsGoodIffAbove(s, text);
    InsertedAt(s.db.rows, r, 0);
    hide Sorted, Count, Range, InsertRow;
    if Above(s) {
      GoodMeansPlain(t.cache, t.db, -1, None);
    } else {
      MissedRow(t, r);
      RangeHolds(t.db.rows, -1, Head(t.db.rows));
      RowBelowHead(t.db.rows, r);
    }
  }

  lemma RowBelowHead(rows: seq<Row>, r: Row)
    requires Sorted(rows) && r in rows
    ensures r.seqNo <= Head(rows)
  {
    hide Sorted;
    var i :| 0 <= i < |rows| && rows[i] == r;
    InOrder(rows, i, |rows| - 1);
  }

  /** A row below the kept head that was not kept is never picked up. */
  lemma MissedRow(s: State, r: Row)
    requires Sorted(s.db.rows) && Sorted(s.cache.rows) && s.cache.version == Some(s.db.version)
    requires r !in s.cache.rows && r.seqNo <= Head(s.cache.rows)
    ensures r !in Incremental(s.cache, s.db, -1, None)
  {
    hide Sorted, Range, Count;
    var rows, top := CaughtUp(s.cache, s.db, None), Through(s.db, None);
    RangeHolds(s.db.rows, Head(s.cache.rows), top);
    SliceTakes(rows, -1, top);
  }

  lemma SliceTakes(rows: seq<Row>, lo: int, hi: int)
    ensures forall r :: r in Slice(rows, lo, hi) ==> r in rows
  {
    hide Count;
  }

  const GAPPED := [Row(0, 10), Row(2, 12)]

  lemma GappedIsKept()
    ensures Sorted(GAPPED) && CaughtUp(NOTHING, Db(GAPPED, 1, 1), None) == GAPPED
  {
    AllBelowHead(GAPPED);
    assert Head(GAPPED) == 2;
    hide Count, Sorted;
    assert Range(GAPPED, -1, 2) == GAPPED;
  }

  const BEHIND := State(Db(GAPPED, 1, 1), NOTHING)
  const CAUGHT := State(Db(GAPPED, 1, 1), Cache(GAPPED, Some(1)))

  lemma CaughtIsGood()
    ensures Inv(CAUGHT)
  {
    GappedIsKept();
    assert Good(NOTHING, BEHIND.db);
    hide Sorted, Count, Range, CaughtUp, Good, InsertRow;
    CatchingUpIsGood(NOTHING, BEHIND.db, None);
  }

  lemma CaughtIsReached()
    ensures Moves(START, Foreign(GAPPED, 1), BEHIND) && Moves(BEHIND, TakeSnapshot(None), CAUGHT)
  {
    hide Sorted, Count, Range, CaughtUp, InsertRow;
    GappedIsKept();
  }

  lemma CaughtIsBelow()
    ensures Enabled(CAUGHT, OwnAppend(11)) && !Above(CAUGHT)
  {
    assert Head(GAPPED) == 2;
  }

  /** Another connection leaves a gap and a counter inside it: the next own append fills
      the gap below the kept rows and stays unseen. */
  lemma LowOwnAppendGoesUnseen() returns (states: seq<State>, acts: seq<Action>)
    ensures IsRun(states, acts)
    ensures var s := states[|acts|]; Ok(Incremental(s.cache, s.db, -1, None)) != Snapshot(s.db.rows, -1, None)
  {
    CaughtIsReached();
    CaughtIsGood();
    CaughtIsBelow();
    hide Enabled, Above, Inv, InsertRow, Incremental, Snapshot;
    OwnAppendIsSeenIffAbove(CAUGHT, 11);
    acts := [Foreign(GAPPED, 1), TakeSnapshot(None), OwnAppend(11)];
    var last := Step(CAUGHT, OwnAppend(11));
    assert Moves(CAUGHT, OwnAppend(11), last);
    hide Moves, Step;
    states := [START, BEHIND, CAUGHT, last];
  }
}
