/** The durable table of inbound handoffs: a row is reserved before a message becomes
    visible and deleted once its owner has finished with it. */
module InboundStore {
  import opened Wrappers

  /** What a repeated delivery must agree on. */
  datatype Identity = Identity(dedupe: Option<string>, channel: string, sender: string, chat: string,
                               session: string, content: string, media: string, metadata: string)

  datatype Row = Row(id: string, identity: Identity, timestamp: string, created: string)

  type Rows = map<string, Row>

  predicate Complete(r: Row) {
    var i := r.identity;
    r.id != "" && r.timestamp != "" && r.created != "" && i.dedupe != Some("") && i.channel != "" && i.sender != "" &&
    i.chat != "" && i.session != "" && i.content != "" && i.media != "" && i.metadata != ""
  }

  /** The table's keys: rows sit under their id, and a dedupe key is used once. */
  ghost predicate WellKeyed(rows: Rows) {
    && (forall id :: id in rows ==> rows[id].id == id)
    && (forall a, b :: a in rows && b in rows && rows[a].identity.dedupe == rows[b].identity.dedupe != None ==> a == b)
  }

  ghost predicate HasDedupe(rows: Rows, key: Option<string>) {
    key != None && exists id :: id in rows && rows[id].identity.dedupe == key
  }

  /** The id of the row with this dedupe key. */
  ghost function DedupeId(rows: Rows, key: Option<string>): (id: string)
    requires HasDedupe(rows, key)
    ensures id in rows && rows[id].identity.dedupe == key
  {
    var id :| id in rows && rows[id].identity.dedupe == key;
    id
  }

  datatype Reserved = Conflict | Malformed | Existing(id: string) | Created

  /** What reserving `r` answers; only `Created` inserts it. */
  ghost function Reserve(rows: Rows, r: Row): Reserved {
    if !Complete(r) then Malformed
    else if r.id in rows then
      if HasDedupe(rows, r.identity.dedupe) && DedupeId(rows, r.identity.dedupe) != r.id then Conflict
      else if rows[r.id].identity == r.identity && rows[r.id].timestamp == r.timestamp then Existing(r.id)
      else Conflict
    else if HasDedupe(rows, r.identity.dedupe) then
      var id := DedupeId(rows, r.identity.dedupe);
      if rows[id].identity == r.identity then Existing(id) else Conflict
    else Created
  }

  ghost function AfterReserve(rows: Rows, r: Row): Rows {
    if Reserve(rows, r) == Created then rows[r.id := r] else rows
  }

  class InboundHandoffStore {
    var rows: Rows

    constructor ()
      ensures rows == map[]
    {
      rows := map[];
    }

    method FindDedupe(key: Option<string>) returns (found: Option<string>)
      ensures found == if HasDedupe(rows, key) then Some(DedupeId(rows, key)) else None
      requires WellKeyed(rows)
    {
      found := None;
      if key == None {
        return;
      }
      var rest := rows.Keys;
      while rest != {}
        invariant rest <= rows.Keys
        invariant forall id :: id in rows && id !in rest ==> rows[id].identity.dedupe != key
        decreases rest
      {
        var id :| id in rest;
        if rows[id].identity.dedupe == key {
          return Some(id);
        }
        rest := rest - {id};
      }
    }

    method ReserveHandoff(r: Row) returns (answer: Reserved)
      requires WellKeyed(rows)
      modifies this
      ensures WellKeyed(rows)
      ensures answer == Reserve(old(rows), r) && rows == AfterReserve(old(rows), r)
    {
      if !Complete(r) {
        return Malformed;
      }
      var byDedupe := FindDedupe(r.identity.dedupe);
      if r.id in rows {
        if byDedupe != None && byDedupe.value != r.id {
          return Conflict;
        }
        var stored := rows[r.id];
        return if stored.identity == r.identity && stored.timestamp == r.timestamp then Existing(r.id) else Conflict;
      }
      if byDedupe != None {
        return if rows[byDedupe.value].identity == r.identity then Existing(byDedupe.value) else Conflict;
      }
      rows := rows[r.id := r];
      answer := Created;
    }

    method CompleteHandoff(id: string) returns (ok: bool)
      requires WellKeyed(rows)
      modifies this
      ensures WellKeyed(rows)
      ensures ok == (id != "" && id in old(rows)) && rows == if ok then old(rows) - {id} else old(rows)
    {
      if id == "" || id !in rows {
        return false;
      }
      rows := rows - {id};
      ok := true;
    }
  }

  /** Reserving keeps the table's keys unique. */
  lemma ReserveKeepsKeys(rows: Rows, r: Row)
    requires WellKeyed(rows)
    ensures WellKeyed(AfterReserve(rows, r))
  {
  }

  /** Main result: once a message is reserved, a repeated delivery with the same identity
      answers with the id of the first one and changes nothing, whatever new id and
      creation time it brings.  Under the stored id the transport time must agree too.
      Another message that claims the stored id or dedupe key is refused and changes
      nothing, and nobody is ever answered with the id of a different message. */
  lemma ReserveAgainReturnsFirst(rows: Rows, first: Row, again: Row, other: Row)
    requires WellKeyed(rows) && Reserve(rows, first) in {Created, Existing(first.id)}
    requires Complete(again) && again.identity == first.identity
    requires again.id == first.id || (again.identity.dedupe != None && again.id !in AfterReserve(rows, first))
    ensures var after := AfterReserve(rows, first);
            Reserve(after, again) == (if again.id == first.id && again.timestamp != first.timestamp then Conflict
                                      else Existing(first.id)) &&
            AfterReserve(after, again) == after
    ensures var after := AfterReserve(rows, first);
            && WellKeyed(after) && WellKeyed(AfterReserve(after, other))
            && (Complete(other) && other.identity != first.identity &&
                (other.id == first.id || other.identity.dedupe == first.identity.dedupe != None) ==>
                  Reserve(after, other) == Conflict)
            && (Reserve(after, other) != Created ==> AfterReserve(after, other) == after)
            && (Reserve(after, other).Existing? ==>
                  Reserve(after, other).id in after && after[Reserve(after, other).id].identity == other.identity)
  {
    var after := AfterReserve(rows, first);
    ReserveKeepsKeys(rows, first);
    ReserveKeepsKeys(after, other);
    assert after[first.id].identity.dedupe == again.identity.dedupe;
    assert again.identity.dedupe != None ==> HasDedupe(after, again.identity.dedupe);
    if Complete(other) && other.identity != first.identity {
      OthersAreRefused(after, first, other);
    }
  }

  lemma OthersAreRefused(rows: Rows, first: Row, other: Row)
    requires WellKeyed(rows) && first.id in rows && rows[first.id].identity == first.identity
    requires Complete(other) && other.identity != first.identity
    ensures other.id == first.id || other.identity.dedupe == first.identity.dedupe != None ==> Reserve(rows, other) == Conflict
  {
    assert other.identity.dedupe == first.identity.dedupe != None ==> rows[first.id].identity.dedupe == other.identity.dedupe;
  }

  /** No text is empty; the dedupe key may be missing. */
  predicate Proper(r: Row) {
    var i := r.identity;
    "" !in [r.id, r.timestamp, r.created, i.channel, i.sender, i.chat, i.session, i.content, i.media, i.metadata] &&
    i.dedupe != Some("")
  }

  /** No row has the id or the dedupe key. */
  ghost predicate Unseen(rows: Rows, r: Row) {
    r.id !in rows && forall id :: id in rows && r.identity.dedupe != None ==> rows[id].identity.dedupe != r.identity.dedupe
  }

  /** The very row is there, apart from when it was made. */
  predicate Stored(rows: Rows, r: Row) {
    r.id in rows && rows[r.id].identity == r.identity && rows[r.id].timestamp == r.timestamp
  }

  /** Another row under `id` holds the same message. */
  predicate StoredAs(rows: Rows, r: Row, id: string) {
    r.id !in rows && id in rows && rows[id].identity == r.identity && r.identity.dedupe != None
  }

  /** Main result: the answer to a reservation tells exactly what the table holds. */
  lemma ReserveDecides(rows: Rows, r: Row)
    requires WellKeyed(rows)
    ensures Reserve(rows, r) == Malformed <==> !Proper(r)
    ensures Reserve(rows, r) == Created <==> Proper(r) && Unseen(rows, r)
    ensures Reserve(rows, r) == Existing(r.id) <==> Proper(r) && Stored(rows, r)
    ensures forall id :: id != r.id ==> (Reserve(rows, r) == Existing(id) <==> Proper(r) && StoredAs(rows, r, id))
    ensures AfterReserve(rows, r) == if Proper(r) && Unseen(rows, r) then rows[r.id := r] else rows
  {
    assert Complete(r) <==> Proper(r);
    hide Complete, Proper;
    if id :| StoredAs(rows, r, id) {
      assert HasDedupe(rows, r.identity.dedupe) && DedupeId(rows, r.identity.dedupe) == id;
    }
    assert Stored(rows, r) && HasDedupe(rows, r.identity.dedupe) ==> DedupeId(rows, r.identity.dedupe) == r.id;
  }

  // ---------------------------------------------------------------------------
  // The paged recovery scan
  // ---------------------------------------------------------------------------

  const PAGE_SIZE := 256

  /** Place of a row in arrival order: creation time, then id. */
  datatype Cursor = Cursor(created: int, id: int)

  predicate Before(a: Cursor, b: Cursor) {
    a.created < b.created || (a.created == b.created && a.id < b.id)
  }

  ghost predicate Ordered(cs: seq<Cursor>) {
    forall i, j :: 0 <= i < j < |cs| ==> Before(cs[i], cs[j])
  }

  /** Arrival order is by creation time, and by id among rows made at the same time. */
  lemma ArrivalOrder(a: Cursor, b: Cursor, c: Cursor)
    ensures a.created < b.created ==> Before(a, b)
    ensures a.created == b.created ==> (Before(a, b) <==> a.id < b.id)
    ensures Before(a, b) ==> !Before(b, a)
    ensures a == b || Before(a, b) || Before(b, a)
    ensures Before(a, b) && Before(b, c) ==> Before(a, c)
  {
  }

  /** How many rows are at or before the cursor. */
  function Skipped(table: seq<Cursor>, after: Option<Cursor>): (n: nat)
    ensures n <= |table|
    ensures after == None ==> n == 0
    ensures after != None ==> forall i :: 0 <= i < n ==> !Before(after.value, table[i])
    ensures after != None && n < |table| ==> Before(after.value, table[n])
  {
    if after == None || table == [] || Before(after.value, table[0]) then 0
    else 1 + Skipped(table[1..], after)
  }

  /** The rows after the cursor, at most one page. */
  function Page(table: seq<Cursor>, after: Option<Cursor>): seq<Cursor> {
    var rest := table[Skipped(table, after)..];
    if |rest| <= PAGE_SIZE then rest else rest[..PAGE_SIZE]
  }

  /** The table and the ids in use when the `i`-th page is read; the last entry stays. */
  function At<T>(xs: seq<T>, i: nat): T
    requires xs != []
  {
    if i < |xs| then xs[i] else xs[|xs| - 1]
  }

  /** Offers the free rows of one page in order. */
  method OfferPage(start: seq<Cursor>, page: seq<Cursor>, inUse: set<Cursor>, ghost after: Option<Cursor>)
    returns (offered: seq<Cursor>)
    requires Ordered(start) && Ordered(page)
    requires after == None ==> start == []
    requires after != None ==> forall c :: c in start ==> !Before(after.value, c)
    requires after != None ==> forall c :: c in page ==> Before(after.value, c)
    ensures Ordered(offered)
    ensures forall c :: c in offered <==> c in start || (c in page && c !in inUse)
  {
    offered := start;
    var i := 0;
    while i < |page|
      invariant i <= |page| && Ordered(offered)
      invariant forall c :: c in offered <==> c in start || (c in page[..i] && c !in inUse)
    {
      if page[i] !in inUse {
        AppendKeepsOrder(offered, start, after, page, i);
        offered := offered + [page[i]];
      }
      i := i + 1;
    }
    assert page[..i] == page;
  }

  /** Where the scan stands when it reads its `i`-th page. */
  function CursorAt(tables: seq<seq<Cursor>>, i: nat): Option<Cursor>
    requires tables != []
    decreases i, 0
  {
    if i == 0 then None
    else
      var page := PageAt(tables, i - 1);
      if page == [] then CursorAt(tables, i - 1) else Some(page[|page| - 1])
  }

  function PageAt(tables: seq<seq<Cursor>>, i: nat): seq<Cursor>
    requires tables != []
    decreases i, 1
  {
    Page(At(tables, i), CursorAt(tables, i))
  }

  /** The scan has not come past this row when it reads its `i`-th page. */
  predicate Ahead(tables: seq<seq<Cursor>>, i: nat, c: Cursor)
    requires tables != []
  {
    var after := CursorAt(tables, i);
    after == None || Before(after.value, c)
  }

  /** The row is on one of the first `n` pages, and not in use when that page is read. */
  ghost predicate Offered(tables: seq<seq<Cursor>>, busy: seq<set<Cursor>>, n: nat, c: Cursor)
    requires tables != [] && busy != []
  {
    exists i :: 0 <= i < n && c in PageAt(tables, i) && c !in At(busy, i)
  }

  /** A row that is in the table at every read until the scan comes past it is on exactly one
      page, whatever happens to it later. */
  lemma {:induction false} PassedOnOnePage(tables: seq<seq<Cursor>>, n: nat, c: Cursor) returns (k: nat)
    requires tables != [] && forall i :: 0 <= i < |tables| ==> Ordered(tables[i])
    requires forall i :: 0 <= i < n && Ahead(tables, i, c) ==> c in At(tables, i)
    requires !Ahead(tables, n, c)
    ensures k < n && c in PageAt(tables, k) && Ahead(tables, k, c)
    ensures forall i :: 0 <= i < n && c in PageAt(tables, i) ==> i == k
  {
    var table, after := At(tables, n - 1), CursorAt(tables, n - 1);
    assert Ordered(table);
    if Ahead(tables, n - 1, c) {
      k := n - 1;
      assert c in table;
      PageLeaves(table, after);
      forall i | 0 <= i < n && c in PageAt(tables, i)
        ensures i == k
      {
        if i < k {
          CursorMovesOn(tables, i, k, c);
        }
      }
    } else {
      hide Page, Ordered, Before;
      k := PassedOnOnePage(tables, n - 1, c);
      if c in PageAt(tables, n - 1) {
        PageFacts(table, after);
        assert false;
      }
    }
  }

  /** Once past a row, the scan stays past it. */
  lemma {:induction false} CursorMovesOn(tables: seq<seq<Cursor>>, i: nat, j: nat, c: Cursor)
    requires tables != [] && forall k :: 0 <= k < |tables| ==> Ordered(tables[k])
    requires i < j && (c in PageAt(tables, i) || !Ahead(tables, i + 1, c))
    ensures !Ahead(tables, j, c)
    decreases j - i
  {
    var page := PageAt(tables, i);
    PageFacts(At(tables, i), CursorAt(tables, i));
    if c in page {
      LastIsLatest(page, [], CursorAt(tables, i));
    }
    if i + 1 < j {
      var next := PageAt(tables, i + 1);
      PageFacts(At(tables, i + 1), CursorAt(tables, i + 1));
      if next != [] {
        LastIsLatest(next, [], CursorAt(tables, i + 1));
      }
      CursorMovesOn(tables, i + 1, j, c);
    }
  }

  lemma NothingOffered(tables: seq<seq<Cursor>>, busy: seq<set<Cursor>>)
    requires tables != [] && busy != []
    ensures forall c :: !Offered(tables, busy, 0, c)
  {
  }

  lemma OfferedNext(tables: seq<seq<Cursor>>, busy: seq<set<Cursor>>, n: nat)
    requires tables != [] && busy != []
    ensures forall c :: Offered(tables, busy, n + 1, c) <==>
              Offered(tables, busy, n, c) || (c in PageAt(tables, n) && c !in At(busy, n))
  {
  }

  /** Main result: whatever others reserve, finish or bind between two page reads, the scan
      offers exactly the rows that are free when their page is read, in arrival order and
      none twice.  A row that is there and free at every read until the scan comes past it
      is offered, even if it is taken or gone at the reads after that; the scan ends only
      when nothing is left ahead of it. */
  method RecoverAll(tables: seq<seq<Cursor>>, busy: seq<set<Cursor>>)
    returns (offered: seq<Cursor>, read: nat)
    requires tables != [] && busy != [] && forall i :: 0 <= i < |tables| ==> Ordered(tables[i])
    ensures Ordered(offered)
    ensures forall c :: c in offered <==> Offered(tables, busy, read, c)
    ensures forall c ::
              (forall i :: 0 <= i < read && Ahead(tables, i, c) ==> c in At(tables, i) && c !in At(busy, i)) ==> c in offered
    ensures read > 0 && PageAt(tables, read - 1) == []
    ensures var last := At(tables, read - 1); forall k :: 0 <= k < |last| ==> !Ahead(tables, read - 1, last[k])
  {
    hide Page, Skipped, Before, Offered, Ordered;
    offered, read := [], 0;
    var after: Option<Cursor> := None;
    NothingIsOrdered();
    NothingOffered(tables, busy);
    while true
      invariant Ordered(offered)
      invariant after == CursorAt(tables, read)
      invariant after == None ==> offered == []
      invariant after != None ==> forall c :: c in offered ==> !Before(after.value, c)
      invariant forall c :: c in offered <==> Offered(tables, busy, read, c)
      decreases if read < |tables| then |tables| - read else 0, |At(tables, read)| - Skipped(At(tables, read), after)
    {
      ghost var before, start := after, offered;
      var table, inUse := At(tables, read), At(busy, read);
      var page := Page(table, after);
      OfferedNext(tables, busy, read);
      read := read + 1;
      if page == [] {
        RestIsOffered(tables, busy, read);
        return;
      }
      PageFacts(table, after);
      offered := OfferPage(offered, page, inUse, before);
      after := Some(page[|page| - 1]);
      LastIsLatest(page, start, before);
      ScanAdvances(table, before);
    }
  }

  /** At the end of the scan everything that waited for it has been offered. */
  lemma RestIsOffered(tables: seq<seq<Cursor>>, busy: seq<set<Cursor>>, read: nat)
    requires tables != [] && busy != [] && forall i :: 0 <= i < |tables| ==> Ordered(tables[i])
    requires read > 0 && PageAt(tables, read - 1) == []
    ensures forall c ::
              (forall i :: 0 <= i < read && Ahead(tables, i, c) ==> c in At(tables, i) && c !in At(busy, i)) ==>
                Offered(tables, busy, read, c)
    ensures var last := At(tables, read - 1); forall k :: 0 <= k < |last| ==> !Ahead(tables, read - 1, last[k])
  {
    var last := At(tables, read - 1);
    EmptyPage(last, CursorAt(tables, read - 1));
    assert forall k :: 0 <= k < |last| ==> last[k] in last;
    forall c | forall i :: 0 <= i < read && Ahead(tables, i, c) ==> c in At(tables, i) && c !in At(busy, i)
      ensures Offered(tables, busy, read, c)
    {
      EmptyPage(At(tables, read - 1), CursorAt(tables, read - 1));
      if Ahead(tables, read - 1, c) {
        assert false;
      }
      var k := PassedOnOnePage(tables, read - 1, c);
      assert c !in At(busy, k);
    }
  }

  lemma NothingIsOrdered()
    ensures Ordered([])
  {
  }

  /** Everything offered so far is at or before the last row of the page. */
  lemma LastIsLatest(page: seq<Cursor>, start: seq<Cursor>, after: Option<Cursor>)
    requires Ordered(page) && page != []
    requires after == None ==> start == []
    requires after != None ==> forall c :: c in start ==> !Before(after.value, c)
    requires after != None ==> forall c :: c in page ==> Before(after.value, c)
    ensures forall c :: c in start || c in page ==> !Before(page[|page| - 1], c)
    ensures after != None ==> forall c :: Before(page[|page| - 1], c) ==> Before(after.value, c)
  {
    var last := page[|page| - 1];
    assert last in page;
    forall c | c in page
      ensures !Before(last, c)
    {
      var i :| 0 <= i < |page| && page[i] == c;
      assert i < |page| - 1 ==> Before(page[i], last);
    }
  }

  lemma EmptyPage(table: seq<Cursor>, after: Option<Cursor>)
    requires Ordered(table) && Page(table, after) == []
    ensures forall c :: c in table ==> after != None && !Before(after.value, c)
  {
  }

  lemma {:induction false} SkippedOrdered(table: seq<Cursor>, after: Option<Cursor>)
    requires Ordered(table) && after != None
    ensures forall i :: Skipped(table, after) <= i < |table| ==> Before(after.value, table[i])
  {
    forall i | Skipped(table, after) <= i < |table|
      ensures Before(after.value, table[i])
    {
      if i > Skipped(table, after) {
        assert Before(table[Skipped(table, after)], table[i]);
      }
    }
  }

  lemma PageFacts(table: seq<Cursor>, after: Option<Cursor>)
    requires Ordered(table)
    ensures Ordered(Page(table, after))
    ensures forall c :: c in Page(table, after) ==> c in table && (after != None ==> Before(after.value, c))
  {
    if after != None {
      SkippedOrdered(table, after);
    }
  }

  lemma AppendKeepsOrder(offered: seq<Cursor>, start: seq<Cursor>, after: Option<Cursor>, page: seq<Cursor>, i: nat)
    requires Ordered(offered) && Ordered(page) && i < |page|
    requires forall c :: c in offered ==> c in start || c in page[..i]
    requires after == None ==> start == []
    requires after != None ==> Before(after.value, page[i]) && forall c :: c in start ==> !Before(after.value, c)
    ensures Ordered(offered + [page[i]])
  {
    forall k | 0 <= k < |offered|
      ensures Before(offered[k], page[i])
    {
      assert offered[k] in offered;
    }
  }

  /** A page holds the first rows behind the cursor: all of them, or 256 while more follow. */
  lemma PageIsFirst(table: seq<Cursor>, after: Option<Cursor>, k: nat)
    requires Ordered(table)
    ensures |Page(table, after)| <= 256
    ensures k < |table| && (after == None || Before(after.value, table[k])) ==>
              table[k] in Page(table, after) ||
              (|Page(table, after)| == 256 && forall c :: c in Page(table, after) ==> Before(c, table[k]))
  {
    var page, n := Page(table, after), Skipped(table, after);
    if k < |table| && (after == None || Before(after.value, table[k])) {
      if k < n + |page| {
        assert table[k] == page[k - n];
      } else {
        forall c | c in page
          ensures Before(c, table[k])
        {
          var i :| 0 <= i < |page| && page[i] == c;
          assert c == table[n + i];
        }
      }
    }
  }

  /** Rows of the table not on the page are at or before the cursor or after the page. */
  lemma PageLeaves(table: seq<Cursor>, after: Option<Cursor>)
    requires Ordered(table) && Page(table, after) != []
    ensures var page := Page(table, after);
            forall c :: c in table ==>
              c in page || (after != None && !Before(after.value, c)) || Before(page[|page| - 1], c)
  {
    var page, n := Page(table, after), Skipped(table, after);
    forall k | 0 <= k < |table|
      ensures table[k] in page || (after != None && !Before(after.value, table[k])) || Before(page[|page| - 1], table[k])
    {
      if n <= k < n + |page| {
        assert table[k] == page[k - n];
      }
    }
  }

  lemma ScanAdvances(table: seq<Cursor>, after: Option<Cursor>)
    requires Ordered(table) && Page(table, after) != []
    ensures var page := Page(table, after);
            Skipped(table, Some(page[|page| - 1])) > Skipped(table, after)
  {
    var page, n := Page(table, after), Skipped(table, after);
    var last := Some(page[|page| - 1]);
    assert last.value == table[n + |page| - 1];
    if Skipped(table, last) <= n + |page| - 1 {
      SkippedOrdered(table, last);
    }
  }
}
