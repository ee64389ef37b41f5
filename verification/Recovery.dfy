/** The paged recovery scan at work on the bus: what it claims in a run, while everything
    else goes on between its reads. */
module Recovery {
  import opened Handoff
  import opened InboundStore
  import opened Wrappers

  /** Nobody has claimed the handoff and it is not in flight. */
  predicate IsFree(b: Bus, id: string) {
    id !in b.claimed && id !in InFlight(b)
  }

  /** The scan reads its `k`-th page and claims the free rows on it.  `place` gives a row's
      place in arrival order. */
  ghost predicate ScanRead(b: Bus, a: Action, place: Row -> Cursor, tables: seq<seq<Cursor>>, k: nat)
    requires k < |tables|
  {
    && WellKeyed(b.rows) && Ordered(tables[k])
    && (forall id :: id in b.rows ==> place(b.rows[id]) in tables[k])
    && (forall c :: c in tables[k] ==> exists id :: id in b.rows && place(b.rows[id]) == c)
    && a == Claim(set id | id in b.rows && place(b.rows[id]) in PageAt(tables, k) && IsFree(b, id))
  }

  /** Main result: a read of the scan can always go ahead while nobody sits in the lock.  It
      claims exactly the rows of its page that no scan holds, to which no envelope is bound,
      and whose admission, if there is one, is recoverable. */
  lemma ReadClaimsFreeRows(b: Bus, a: Action, place: Row -> Cursor, tables: seq<seq<Cursor>>, k: nat)
    requires k < |tables| && ScanRead(b, a, place, tables, k) && b.holder.Free?
    ensures a.Claim? && Enabled(b, a)
    ensures forall id :: id in a.ids <==>
              && id in b.rows && place(b.rows[id]) in PageAt(tables, k)
              && id !in b.claimed && (forall e: nat :: e in b.handoffs ==> b.handoffs[e] != id)
              && (id in b.admissions ==> b.admissions[id].recoverable)
  {
  }

  /** The reads of one scan, in states `looks[0]`, `looks[1]`, ... of a run; the last page is
      empty.  Rows at one place are one handoff's. */
  ghost predicate IsScan(states: seq<Bus>, acts: seq<Action>, looks: seq<nat>, place: Row -> Cursor, tables: seq<seq<Cursor>>) {
    && |looks| == |tables| > 0
    && (forall x, y :: place(x) == place(y) ==> x.id == y.id)
    && (forall k :: 0 <= k < |looks| ==> looks[k] < |acts| < |states| && ScanRead(states[looks[k]], acts[looks[k]], place, tables, k))
    && PageAt(tables, |looks| - 1) == []
  }

  predicate HasRow(b: Bus, r: Row) {
    r.id in b.rows && b.rows[r.id] == r
  }

  /** The scan claims this row at its `k`-th read. */
  predicate ClaimsAt(states: seq<Bus>, acts: seq<Action>, looks: seq<nat>, k: nat, r: Row) {
    k < |looks| && looks[k] < |acts| && looks[k] < |states| &&
    acts[looks[k]].Claim? && r.id in acts[looks[k]].ids && HasRow(states[looks[k]], r)
  }

  /** Main result: a row that is in the table and free at every read until the scan comes
      past it is claimed at exactly one read, whatever happens to it afterwards. */
  lemma ScanClaimsOnce(states: seq<Bus>, acts: seq<Action>, looks: seq<nat>, place: Row -> Cursor,
                       tables: seq<seq<Cursor>>, r: Row)
    returns (k: nat)
    requires IsScan(states, acts, looks, place, tables)
    requires forall i :: 0 <= i < |looks| && Ahead(tables, i, place(r)) ==>
               HasRow(states[looks[i]], r) && IsFree(states[looks[i]], r.id)
    ensures ClaimsAt(states, acts, looks, k, r)
    ensures forall i: nat :: ClaimsAt(states, acts, looks, i, r) ==> i == k
  {
    hide Page, Ordered, Before, InFlight, IsFree;
    var c, n := place(r), |looks| - 1;
    ScanTables(states, acts, looks, place, tables);
    assert At(tables, n) == tables[n] && PageAt(tables, n) == [];
    EmptyPage(tables[n], CursorAt(tables, n));
    forall i | 0 <= i <= n && Ahead(tables, i, c)
      ensures c in At(tables, i)
    {
      RowIsListed(states, acts, looks, place, tables, i, r);
    }
    k := PassedOnOnePage(tables, n, c);
    ClaimIffOnPage(states, acts, looks, place, tables, k, r);
    forall i: nat | ClaimsAt(states, acts, looks, i, r)
      ensures i == k
    {
      ClaimIffOnPage(states, acts, looks, place, tables, i, r);
    }
  }

  lemma ScanTables(states: seq<Bus>, acts: seq<Action>, looks: seq<nat>, place: Row -> Cursor, tables: seq<seq<Cursor>>)
    requires IsScan(states, acts, looks, place, tables)
    ensures forall i :: 0 <= i < |tables| ==> Ordered(tables[i])
  {
    forall i | 0 <= i < |tables|
      ensures Ordered(tables[i])
    {
      assert ScanRead(states[looks[i]], acts[looks[i]], place, tables, i);
    }
  }

  lemma RowIsListed(states: seq<Bus>, acts: seq<Action>, looks: seq<nat>, place: Row -> Cursor, tables: seq<seq<Cursor>>,
                    i: nat, r: Row)
    requires IsScan(states, acts, looks, place, tables) && i < |looks| && HasRow(states[looks[i]], r)
    ensures place(r) in At(tables, i)
  {
    assert ScanRead(states[looks[i]], acts[looks[i]], place, tables, i);
  }

  lemma ClaimIffOnPage(states: seq<Bus>, acts: seq<Action>, looks: seq<nat>, place: Row -> Cursor, tables: seq<seq<Cursor>>,
                       i: nat, r: Row)
    requires IsScan(states, acts, looks, place, tables) && i < |looks| && HasRow(states[looks[i]], r)
    ensures ClaimsAt(states, acts, looks, i, r) <==> place(r) in PageAt(tables, i) && IsFree(states[looks[i]], r.id)
    ensures ClaimsAt(states, acts, looks, i, r) ==> i < |looks| - 1
  {
    assert ScanRead(states[looks[i]], acts[looks[i]], place, tables, i);
    hide Page, Ordered, InFlight, IsFree, WellKeyed;
    assert PageAt(tables, |looks| - 1) == [];
  }

  // ---------------------------------------------------------------------------
  // From a fresh process
  // ---------------------------------------------------------------------------

  /** A step of somebody else that takes the handoff or ends it. */
  ghost predicate Touches(b: Bus, a: Action, id: string) {
    || ((a.DoReserve? || a.DoPrepare?) && a.row.id == id)
    || (a.Claim? && id in a.ids)
    || Deletes(b, a, id)
  }

  /** Memory knows nothing of the handoff. */
  predicate Absent(b: Bus, id: string) {
    id !in b.admissions && id !in b.claimed && forall e :: e in b.handoffs ==> b.handoffs[e] != id
  }

  /** Only the durable row is there. */
  predicate OnlyRow(b: Bus, r: Row) {
    HasRow(b, r) && Absent(b, r.id)
  }

  lemma AbsentIsFree(b: Bus, id: string)
    requires Absent(b, id)
    ensures IsFree(b, id)
  {
  }

  lemma AbsentAfterReserve(b: Bus, r: Row, lease: Option<nat>, healthy: bool, id: string)
    requires Absent(b, id) && r.id != id
    ensures Absent(ReserveSection(b, r, lease, healthy).0, id)
  {
    hide Reserve, AfterReserve;
  }

  lemma AbsentAfterPrepare(b: Bus, r: Row, env: nat, lease: Option<nat>, healthy: bool, id: string)
    requires Absent(b, id) && r.id != id
    ensures Absent(PrepareSection(b, r, env, lease, healthy).0, id)
  {
    var (c, e) := EnsureAdmission(b, r.id, r.identity.session, lease);
    assert Absent(c, id) && Absent(ReleaseIf(c, r.id, e), id);
    hide Reserve, AfterReserve, EnsureAdmission, ReleaseIf, Absent;
    if r.id in c.admissions {
      AbsentAfterBind(c, r.id, env, c.rows, id);
      AbsentAfterBind(c, r.id, env, AfterReserve(c.rows, r), id);
    }
  }

  lemma AbsentAfterBind(b: Bus, h: string, env: nat, rows: Rows, id: string)
    requires Absent(b, id) && h != id && h in b.admissions
    ensures Absent(BindEnvelope(b.(rows := rows), h, env), id)
  {
  }

  lemma AbsentAfterComplete(b: Bus, env: nat, h: string, fault: Fault, id: string)
    requires Absent(b, id)
    ensures Absent(CompleteSection(b, env, h, fault), id) && Absent(RetrySection(b, env, fault), id)
  {
  }

  lemma AbsentAfterSettle(b: Bus, h: string, healthy: bool, id: string)
    requires Absent(b, id)
    ensures Absent(SettleSection(b, h, healthy), id) && Absent(DeferSection(b, h), id)
  {
  }

  lemma AbsentAfterClose(b: Bus, env: nat, h: string, id: string)
    requires Absent(b, id)
    ensures Absent(FinalizeSection(b, env, h), id) && Absent(RetainedSection(b, env, h), id) && Absent(RetainSection(b, env), id)
    ensures h in b.admissions ==> Absent(DrainSection(b, h), id)
  {
  }

  lemma AbsentStays(b: Bus, a: Action, id: string)
    requires Enabled(b, a) && Absent(b, id) && !((a.DoReserve? || a.DoPrepare?) && a.row.id == id) && !(a.Claim? && id in a.ids)
    ensures Absent(Step(b, a), id)
  {
    hide ReserveSection, PrepareSection, CompleteSection, RetrySection, SettleSection, DeferSection, FinalizeSection,
         RetainedSection, RetainSection, DrainSection, InFlight;
    match a
    case DoReserve(r, lease, healthy) => AbsentAfterReserve(b, r, lease, healthy, id);
    case DoPrepare(r, env, lease, healthy) => AbsentAfterPrepare(b, r, env, lease, healthy, id);
    case DoComplete(env, h, fault) => AbsentAfterComplete(b, env, h, fault, id);
    case DoRetry(env, fault) => AbsentAfterComplete(b, env, "", fault, id);
    case DoSettle(h, healthy) => AbsentAfterSettle(b, h, healthy, id);
    case DoDefer(h) => AbsentAfterSettle(b, h, true, id);
    case DoRetain(env) => AbsentAfterClose(b, env, "", id);
    case DrainEntry(h) => AbsentAfterClose(b, 0, h, id);
    case CloseDone => AbsentAfterClose(b, b.holder.env, b.holder.id, id);
    case _ =>
  }

  lemma OnlyRowStays(b: Bus, a: Action, r: Row)
    requires Enabled(b, a) && OnlyRow(b, r) && !Touches(b, a, r.id)
    ensures OnlyRow(Step(b, a), r)
  {
    hide Step, Enabled, Absent, Deletes;
    StepKeepsRow(b, a, r.id);
    AbsentStays(b, a, r.id);
  }

  lemma {:induction false} OnlyRowInRun(states: seq<Bus>, acts: seq<Action>, i: nat, j: nat, r: Row)
    requires IsRun(states, acts) && i <= j < |states| && OnlyRow(states[i], r)
    requires forall m :: i <= m < j ==> !Touches(states[m], acts[m], r.id)
    ensures OnlyRow(states[j], r)
    decreases j - i
  {
    hide Step, Enabled, OnlyRow, Touches;
    if i < j {
      OnlyRowInRun(states, acts, i, j - 1, r);
      assert Enabled(states[j - 1], acts[j - 1]) && states[j - 1 + 1] == Step(states[j - 1], acts[j - 1]);
      OnlyRowStays(states[j - 1], acts[j - 1], r);
    }
  }

  /** Main result: after a crash the recovery scan claims every row that survived, exactly
      once, unless somebody else takes or ends that very row before the scan gets to it. */
  lemma FreshScanClaimsOnce(states: seq<Bus>, acts: seq<Action>, crash: nat, looks: seq<nat>, place: Row -> Cursor,
                            tables: seq<seq<Cursor>>, r: Row)
    returns (k: nat)
    requires IsRun(states, acts) && IsScan(states, acts, looks, place, tables)
    requires crash < |acts| && acts[crash] == Crash && HasRow(states[crash], r)
    requires forall i :: 0 <= i < |looks| ==> crash < looks[i]
    requires forall i, m :: 0 <= i < |looks| && Ahead(tables, i, place(r)) && crash < m < looks[i] ==> !Touches(states[m], acts[m], r.id)
    ensures ClaimsAt(states, acts, looks, k, r)
    ensures forall i: nat :: ClaimsAt(states, acts, looks, i, r) ==> i == k
  {
    assert Enabled(states[crash], acts[crash]) && states[crash + 1] == Step(states[crash], acts[crash]);
    assert OnlyRow(states[crash + 1], r);
    hide Step, Enabled, Touches;
    forall i | 0 <= i < |looks| && Ahead(tables, i, place(r))
      ensures HasRow(states[looks[i]], r) && IsFree(states[looks[i]], r.id)
    {
      OnlyRowInRun(states, acts, crash + 1, looks[i], r);
      AbsentIsFree(states[looks[i]], r.id);
    }
    k := ScanClaimsOnce(states, acts, looks, place, tables, r);
  }
}
