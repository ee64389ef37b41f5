/** The durable mobile handoff protocol of the message bus.

    A handoff owns a durable row, a session lease and, while an input is being
    processed, one exact envelope.  All sections run under one lock, but the lock is
    held across the await that closes an envelope, so a section may also stop there. */
module Handoff {
  import opened InboundStore
  import opened Wrappers

  datatype Admission = Admission(lease: nat, envelope: Option<nat>, cleanupPending: bool, recoverable: bool)

  /** Who sits in the lock at an await: a completion or retry that already deleted its
      row, a retention, or the shutdown loop. */
  datatype Holder = Free | Finalizing(env: nat, id: string) | Retaining(env: nat, id: string) | Draining

  datatype Bus = Bus(
    rows: Rows,
    leases: map<nat, string>,
    handoffs: map<nat, string>,
    admissions: map<string, Admission>,
    claimed: set<string>,
    closed: bool,
    fatal: bool,
    holder: Holder)

  const EMPTY := Bus(map[], map[], map[], map[], {}, false, false, Free)

  // ---------------------------------------------------------------------------
  // Sections
  // ---------------------------------------------------------------------------

  datatype Ensured = Refused | Reused | Acquired

  /** Takes a session lease for a new handoff; `lease` is None when the session is gone. */
  function EnsureAdmission(b: Bus, id: string, session: string, lease: Option<nat>): (Bus, Ensured) {
    if id in b.admissions then (b, Reused)
    else if lease == None then (b, Refused)
    else (b.(leases := b.leases[lease.value := session],
             admissions := b.admissions[id := Admission(lease.value, None, false, false)]), Acquired)
  }

  function ReleaseAdmission(b: Bus, id: string): Bus {
    if id in b.admissions then
      b.(leases := b.leases - {b.admissions[id].lease}, admissions := b.admissions - {id})
    else b
  }

  function ReleaseIf(b: Bus, id: string, e: Ensured): Bus {
    if e == Acquired then ReleaseAdmission(b, id) else b
  }

  datatype Answer = Raised | Rejected | Accepted

  /** Reserves row and lease before anything about the message becomes visible. */
  ghost function ReserveSection(b: Bus, r: Row, lease: Option<nat>, healthy: bool): (Bus, Answer) {
    if b.closed then (b, Raised)
    else
      var (c, e) := EnsureAdmission(b, r.id, r.identity.session, lease);
      if e == Refused then (c, Raised)
      else if !healthy || Reserve(c.rows, r) in {Conflict, Malformed} then (ReleaseIf(c, r.id, e), Raised)
      else if Reserve(c.rows, r).Existing? && Reserve(c.rows, r).id != r.id then (ReleaseIf(c, r.id, e), Rejected)
      else (c.(rows := AfterReserve(c.rows, r)), Accepted)
  }

  function BindEnvelope(b: Bus, id: string, env: nat): Bus
    requires id in b.admissions
  {
    b.(admissions := b.admissions[id := b.admissions[id].(envelope := Some(env), recoverable := false)],
       handoffs := b.handoffs[env := id])
  }

  /** Fixes the one exact envelope of a handoff before its input is committed. */
  ghost function PrepareSection(b: Bus, r: Row, env: nat, lease: Option<nat>, healthy: bool): (Bus, Answer) {
    if b.closed then (b, Raised)
    else
      var (c, e) := EnsureAdmission(b, r.id, r.identity.session, lease);
      if e == Refused then (c, Raised)
      else if !healthy || Reserve(c.rows, r) in {Conflict, Malformed} then (ReleaseIf(c, r.id, e), Raised)
      else if Reserve(c.rows, r) == Created then
        (BindEnvelope(c.(rows := AfterReserve(c.rows, r)), r.id, env), Accepted)
      else if (r.id in c.claimed || c.admissions[r.id].envelope == None) && Reserve(c.rows, r).id == r.id then
        (BindEnvelope(c, r.id, env), Accepted)
      else (ReleaseIf(c, r.id, e), Rejected)
  }

  /** How the durable delete goes: it works, fails for now, or fails for good. */
  datatype Fault = Healthy | OsError | Broken

  function CompleteSection(b: Bus, env: nat, id: string, fault: Fault): Bus {
    if id !in b.admissions || b.admissions[id].envelope != Some(env) || b.admissions[id].cleanupPending then b
    else if fault == OsError then b.(admissions := b.admissions[id := b.admissions[id].(cleanupPending := true)])
    else if fault == Broken || id !in b.rows then b.(fatal := true)
    else b.(rows := b.rows - {id}, holder := Finalizing(env, id))
  }

  function RetrySection(b: Bus, env: nat, fault: Fault): Bus {
    if env !in b.handoffs || b.handoffs[env] !in b.admissions then b.(fatal := true)
    else
      var id := b.handoffs[env];
      var a := b.admissions[id];
      if a.envelope == None || !a.cleanupPending then b.(fatal := true)
      else if fault == OsError then b
      else if fault == Broken || id !in b.rows then b.(fatal := true)
      else b.(rows := b.rows - {id}, holder := Finalizing(a.envelope.value, id))
  }

  function FinalizeSection(b: Bus, env: nat, id: string): Bus {
    var c := ReleaseAdmission(b, id);
    c.(handoffs := c.handoffs - {env}, claimed := c.claimed - {id}, holder := Free)
  }

  function RetainSection(b: Bus, env: nat): Bus {
    if env in b.handoffs && b.handoffs[env] in b.admissions && b.admissions[b.handoffs[env]].envelope == Some(env)
    then b.(holder := Retaining(env, b.handoffs[env])) else b
  }

  function RetainedSection(b: Bus, env: nat, id: string): Bus {
    if id in b.admissions then
      b.(admissions := b.admissions[id := b.admissions[id].(envelope := None, cleanupPending := false, recoverable := true)],
         handoffs := b.handoffs - {env}, claimed := b.claimed - {id}, holder := Free)
    else b.(holder := Free)
  }

  function DeferSection(b: Bus, id: string): Bus {
    if id !in b.admissions || b.admissions[id].envelope != None then b
    else b.(admissions := b.admissions[id := b.admissions[id].(recoverable := true)], claimed := b.claimed - {id})
  }

  /** Settles a rejected input: its row goes first, then its lease. */
  function SettleSection(b: Bus, id: string, healthy: bool): Bus {
    if id in b.admissions && b.admissions[id].envelope != None then b
    else if !healthy || id !in b.rows then b
    else ReleaseAdmission(b.(rows := b.rows - {id}, claimed := b.claimed - {id}), id)
  }

  /** One turn of the shutdown loop: rows stay for the next boot. */
  function DrainSection(b: Bus, id: string): Bus
    requires id in b.admissions
  {
    var env := b.admissions[id].envelope;
    var c := ReleaseAdmission(b, id);
    c.(handoffs := if env == None then c.handoffs else c.handoffs - {env.value}, claimed := c.claimed - {id})
  }

  function InFlight(b: Bus): set<string> {
    b.handoffs.Values + set id | id in b.admissions && !b.admissions[id].recoverable
  }

  /** A crash loses the memory; the next boot clears stale leases and keeps the rows. */
  function Reboot(b: Bus): Bus {
    EMPTY.(rows := b.rows)
  }

  // ---------------------------------------------------------------------------
  // The lease table
  // ---------------------------------------------------------------------------

  /** No lease for an unknown session unless the caller may create it. */
  function LeaseFor(known: bool, requireExisting: bool, uuid: nat): Option<nat> {
    if requireExisting && !known then None else Some(uuid)
  }

  class SessionAdmissions {
    var leases: map<nat, string>

    constructor ()
      ensures leases == map[]
    {
      leases := map[];
    }

    /** The new id is a fresh random one. */
    method Acquire(session: string, known: bool, requireExisting: bool, uuid: nat) returns (lease: Option<nat>)
      requires uuid !in leases
      modifies this
      ensures lease == LeaseFor(known, requireExisting, uuid)
      ensures leases == if lease == None then old(leases) else old(leases)[uuid := session]
    {
      if requireExisting && !known {
        return None;
      }
      leases := leases[uuid := session];
      lease := Some(uuid);
    }

    method Release(lease: nat) returns (ok: bool)
      modifies this
      ensures ok == (lease in old(leases)) && leases == old(leases) - {lease}
    {
      ok := lease in leases;
      leases := leases - {lease};
    }

    method ClearStale()
      modifies this
      ensures leases == map[]
    {
      leases := map[];
    }
  }

  // ---------------------------------------------------------------------------
  // The bus object
  // ---------------------------------------------------------------------------

  class MessageBus {
    const store: InboundHandoffStore
    const owner: SessionAdmissions
    var handoffs: map<nat, string>
    var admissions: map<string, Admission>
    var recoveryClaimed: set<string>
    var closed: bool
    var fatal: bool
    ghost var holder: Holder

    ghost function View(): Bus
      reads this, store, owner
    {
      Bus(store.rows, owner.leases, handoffs, admissions, recoveryClaimed, closed, fatal, holder)
    }

    constructor (store: InboundHandoffStore, owner: SessionAdmissions)
      ensures this.store == store && this.owner == owner
      ensures View() == EMPTY.(rows := store.rows, leases := owner.leases)
    {
      this.store, this.owner := store, owner;
      handoffs, admissions, recoveryClaimed := map[], map[], {};
      closed, fatal, holder := false, false, Free;
    }

    method Ensure(id: string, session: string, known: bool, requireExisting: bool, uuid: nat) returns (e: Ensured)
      requires uuid !in owner.leases
      modifies this, owner
      ensures (View(), e) == EnsureAdmission(old(View()), id, session, LeaseFor(known, requireExisting, uuid))
    {
      if id in admissions {
        return Reused;
      }
      var lease := owner.Acquire(session, known, requireExisting, uuid);
      if lease == None {
        return Refused;
      }
      admissions := admissions[id := Admission(lease.value, None, false, false)];
      e := Acquired;
    }

    method ReleaseOwn(id: string)
      requires id in admissions
      modifies this, owner
      ensures View() == ReleaseAdmission(old(View()), id)
    {
      var a := admissions[id];
      admissions := admissions - {id};
      var ok := owner.Release(a.lease);
    }

    /** `healthy` is false when the durable insert raises. */
    method ReserveChannelHandoff(r: Row, known: bool, requireExisting: bool, uuid: nat, healthy: bool) returns (answer: Answer)
      requires WellKeyed(store.rows) && uuid !in owner.leases
      modifies this, store, owner
      ensures WellKeyed(store.rows)
      ensures (View(), answer) == ReserveSection(old(View()), r, LeaseFor(known, requireExisting, uuid), healthy)
    {
      if closed {
        return Raised;
      }
      var e := Ensure(r.id, r.identity.session, known, requireExisting, uuid);
      if e == Refused {
        return Raised;
      }
      if !healthy {
        if e == Acquired {
          ReleaseOwn(r.id);
        }
        return Raised;
      }
      var reserved := store.ReserveHandoff(r);
      if reserved == Created || reserved == Existing(r.id) {
        return Accepted;
      }
      if e == Acquired {
        ReleaseOwn(r.id);
      }
      answer := if reserved.Existing? then Rejected else Raised;
    }

    method ReserveMobileInput(r: Row, env: nat, known: bool, requireExisting: bool, uuid: nat, healthy: bool)
      returns (answer: Answer)
      requires WellKeyed(store.rows) && uuid !in owner.leases
      modifies this, store, owner
      ensures WellKeyed(store.rows)
      ensures (View(), answer) == PrepareSection(old(View()), r, env, LeaseFor(known, requireExisting, uuid), healthy)
    {
      if closed {
        return Raised;
      }
      var e := Ensure(r.id, r.identity.session, known, requireExisting, uuid);
      if e == Refused {
        return Raised;
      }
      if !healthy {
        if e == Acquired {
          ReleaseOwn(r.id);
        }
        return Raised;
      }
      var reserved := store.ReserveHandoff(r);
      var isRecovery := r.id in recoveryClaimed;
      var isPrepared := reserved == Existing(r.id) && admissions[r.id].envelope == None;
      if reserved == Created || (reserved == Existing(r.id) && (isRecovery || isPrepared)) {
        admissions := admissions[r.id := admissions[r.id].(envelope := Some(env), recoverable := false)];
        handoffs := handoffs[env := r.id];
        return Accepted;
      }
      if e == Acquired {
        ReleaseOwn(r.id);
      }
      answer := if reserved.Existing? then Rejected else Raised;
    }

    method CompleteLocked(env: nat, id: string, fault: Fault)
      requires WellKeyed(store.rows) && "" !in store.rows
      modifies this, store
      ensures WellKeyed(store.rows)
      ensures View() == CompleteSection(old(View()), env, id, fault)
    {
      if id !in admissions || admissions[id].envelope != Some(env) || admissions[id].cleanupPending {
        return;
      }
      if fault == OsError {
        admissions := admissions[id := admissions[id].(cleanupPending := true)];
        return;
      }
      var ok := false;
      if fault == Healthy {
        ok := store.CompleteHandoff(id);
      }
      if ok {
        holder := Finalizing(env, id);
      } else {
        fatal := true;
      }
    }

    method FinalizeLocked(env: nat, id: string)
      requires id in admissions
      modifies this, owner
      ensures View() == FinalizeSection(old(View()), env, id)
    {
      ReleaseOwn(id);
      handoffs := handoffs - {env};
      recoveryClaimed := recoveryClaimed - {id};
      holder := Free;
    }

    method RetainLocked(env: nat, id: string)
      requires id in admissions
      modifies this
      ensures View() == RetainedSection(old(View()), env, id)
    {
      admissions := admissions[id := admissions[id].(envelope := None, cleanupPending := false, recoverable := true)];
      handoffs := handoffs - {env};
      recoveryClaimed := recoveryClaimed - {id};
      holder := Free;
    }

    method Defer(id: string)
      modifies this
      ensures View() == DeferSection(old(View()), id)
    {
      if id !in admissions || admissions[id].envelope != None {
        return;
      }
      admissions := admissions[id := admissions[id].(recoverable := true)];
      recoveryClaimed := recoveryClaimed - {id};
    }

    method SettleRejected(id: string, healthy: bool)
      requires WellKeyed(store.rows) && "" !in store.rows
      modifies this, store, owner
      ensures WellKeyed(store.rows)
      ensures View() == SettleSection(old(View()), id, healthy)
    {
      if id in admissions && admissions[id].envelope != None {
        return;
      }
      if !healthy {
        return;
      }
      var ok := store.CompleteHandoff(id);
      if !ok {
        return;
      }
      if id in admissions {
        ReleaseOwn(id);
      }
      recoveryClaimed := recoveryClaimed - {id};
    }

    /** The shutdown loop when every close works; `order` lists the ids as they went. */
    method ReleaseForShutdown() returns (order: seq<string>)
      modifies this, owner
      ensures DrainsTo(old(View()), order, View()) && admissions == map[]
    {
      order := [];
      while admissions != map[]
        invariant DrainsTo(old(View()), order, View())
        decreases admissions.Keys
      {
        var id :| id in admissions;
        var a := admissions[id];
        ghost var before := View();
        if a.envelope != None {
          handoffs := handoffs - {a.envelope.value};
        }
        ReleaseOwn(id);
        recoveryClaimed := recoveryClaimed - {id};
        assert View() == DrainSection(before, id);
        DrainsOneMore(old(View()), order, before, id);
        order := order + [id];
      }
    }
  }

  /** Turning the shutdown loop for the listed ids leads from `b` to `c`. */
  predicate DrainsTo(b: Bus, order: seq<string>, c: Bus)
    decreases order
  {
    if order == [] then b == c
    else order[0] in b.admissions && DrainsTo(DrainSection(b, order[0]), order[1..], c)
  }

  lemma {:induction false} DrainsOneMore(b: Bus, order: seq<string>, c: Bus, id: string)
    requires DrainsTo(b, order, c) && id in c.admissions
    ensures DrainsTo(b, order + [id], DrainSection(c, id))
    decreases order
  {
    if order == [] {
      assert [id][1..] == [];
    } else {
      assert (order + [id])[1..] == order[1..] + [id];
      DrainsOneMore(DrainSection(b, order[0]), order[1..], c, id);
    }
  }

  // ---------------------------------------------------------------------------
  // Steps
  // ---------------------------------------------------------------------------

  datatype Action =
    | DoReserve(row: Row, lease: Option<nat>, healthy: bool)
    | DoPrepare(row: Row, env: nat, lease: Option<nat>, healthy: bool)
    | DoComplete(env: nat, id: string, fault: Fault)
    | DoRetry(env: nat, fault: Fault)
    | DoRetain(env: nat)
    | CloseDone
    | CloseFailed
    | DoDefer(id: string)
    | DoSettle(id: string, healthy: bool)
    | Claim(ids: set<string>)
    | Unclaim(ids: set<string>)
    | CloseBus
    | DrainStart
    | DrainEntry(id: string)
    | DrainEnd
    | Crash

  /** Sections wait for the lock; a new lease id is unused; an envelope carries one
      handoff id for life; recovery claims only free rows. */
  ghost predicate Enabled(b: Bus, a: Action) {
    match a
    case DoReserve(_, lease, _) => b.holder.Free? && (lease != None ==> lease.value !in b.leases)
    case DoPrepare(r, env, lease, _) =>
      b.holder.Free? && (lease != None ==> lease.value !in b.leases) && (env in b.handoffs ==> b.handoffs[env] == r.id)
    case CloseDone => b.holder.Finalizing? || b.holder.Retaining?
    case CloseFailed => !b.holder.Free?
    case Claim(ids) => b.holder.Free? && ids <= b.rows.Keys && ids !! b.claimed && ids !! InFlight(b)
    case Unclaim(_) => true
    case CloseBus => true
    case DrainEntry(id) => b.holder.Draining? && id in b.admissions
    case DrainEnd => b.holder.Draining? && b.admissions == map[]
    case Crash => true
    case _ => b.holder.Free?
  }

  ghost function Step(b: Bus, a: Action): Bus
    requires Enabled(b, a)
  {
    match a
    case DoReserve(r, lease, healthy) => ReserveSection(b, r, lease, healthy).0
    case DoPrepare(r, env, lease, healthy) => PrepareSection(b, r, env, lease, healthy).0
    case DoComplete(env, id, fault) => CompleteSection(b, env, id, fault)
    case DoRetry(env, fault) => RetrySection(b, env, fault)
    case DoRetain(env) => RetainSection(b, env)
    case CloseDone =>
      if b.holder.Finalizing? then FinalizeSection(b, b.holder.env, b.holder.id)
      else RetainedSection(b, b.holder.env, b.holder.id)
    case CloseFailed => b.(holder := Free)
    case DoDefer(id) => DeferSection(b, id)
    case DoSettle(id, healthy) => SettleSection(b, id, healthy)
    case Claim(ids) => b.(claimed := b.claimed + ids)
    case Unclaim(ids) => b.(claimed := b.claimed - ids)
    case CloseBus => b.(closed := true)
    case DrainStart => b.(holder := Draining)
    case DrainEntry(id) => DrainSection(b, id)
    case DrainEnd => b.(holder := Free)
    case Crash => Reboot(b)
  }

  // ---------------------------------------------------------------------------
  // The invariant
  // ---------------------------------------------------------------------------

  /** The envelope map and the envelopes of the admissions are inverse partial maps. */
  ghost predicate Inverse(b: Bus) {
    && (forall e :: e in b.handoffs ==> b.handoffs[e] in b.admissions && b.admissions[b.handoffs[e]].envelope == Some(e))
    && (forall id :: id in b.admissions && b.admissions[id].envelope != None ==>
          b.admissions[id].envelope.value in b.handoffs && b.handoffs[b.admissions[id].envelope.value] == id)
  }

  /** `owns` names the admission behind each lease: no lease is shared or leaked. */
  ghost predicate LeasesOwned(b: Bus, owns: map<nat, string>) {
    && owns.Keys == b.leases.Keys
    && (forall l :: l in owns ==> owns[l] in b.admissions && b.admissions[owns[l]].lease == l)
    && (forall id :: id in b.admissions ==> b.admissions[id].lease in owns && owns[b.admissions[id].lease] == id)
  }

  /** Every admission has its durable row, apart from the one being finalized and those
      whose finalization was cut short by a failing close. */
  ghost predicate RowsKept(b: Bus, stranded: set<string>) {
    && (forall id :: id in b.admissions ==> id in b.rows || id in stranded || (b.holder.Finalizing? && b.holder.id == id))
    && (b.holder.Finalizing? || b.holder.Retaining? ==>
          b.holder.id in b.admissions && b.admissions[b.holder.id].envelope == Some(b.holder.env))
    && (b.holder.Finalizing? ==> b.holder.id !in b.rows)
  }

  ghost predicate Inv(b: Bus, owns: map<nat, string>, stranded: set<string>) {
    WellKeyed(b.rows) && Inverse(b) && LeasesOwned(b, owns) && RowsKept(b, stranded)
  }

  /** Binding an envelope is clean unless the admission still holds another one and the
      row is either new or under recovery: those two branches do not look. */
  ghost predicate CleanBind(b: Bus, a: Action) {
    a.DoPrepare? && a.row.id in b.admissions && b.admissions[a.row.id].envelope !in {None, Some(a.env)} ==>
      b.closed || !a.healthy ||
      match Reserve(b.rows, a.row)
      case Created => false
      case Existing(id) => id != a.row.id || id !in b.claimed
      case _ => true
  }

  /** The only step that can leave an admission without its row. */
  function MoreStranded(b: Bus, a: Action, stranded: set<string>): set<string> {
    if a.CloseFailed? && b.holder.Finalizing? then stranded + {b.holder.id} else stranded
  }

  lemma EnsureKeepsInv(b: Bus, id: string, session: string, lease: Option<nat>, owns: map<nat, string>, stranded: set<string>)
    returns (w: map<nat, string>)
    requires Inv(b, owns, stranded + {id}) && b.holder.Free? && (lease != None ==> lease.value !in b.leases)
    ensures Inv(EnsureAdmission(b, id, session, lease).0, w, stranded + {id})
    ensures EnsureAdmission(b, id, session, lease).1 == Acquired ==>
              ReleaseAdmission(EnsureAdmission(b, id, session, lease).0, id) == b
  {
    w := owns;
    var (c, e) := EnsureAdmission(b, id, session, lease);
    if e == Acquired {
      w := owns[lease.value := id];
      assert c.leases - {lease.value} == b.leases && c.admissions - {id} == b.admissions;
    }
  }

  lemma ReserveOutcome(rows: Rows, r: Row)
    requires WellKeyed(rows)
    ensures WellKeyed(AfterReserve(rows, r)) && rows.Keys <= AfterReserve(rows, r).Keys
    ensures Reserve(rows, r).Existing? ==> Reserve(rows, r).id in rows
    ensures AfterReserve(rows, r).Keys == if Reserve(rows, r) == Created then rows.Keys + {r.id} else rows.Keys
  {
    ReserveKeepsKeys(rows, r);
  }

  lemma RowsMayGrow(b: Bus, rows: Rows, owns: map<nat, string>, stranded: set<string>, id: string)
    requires Inv(b, owns, stranded + {id}) && !b.holder.Finalizing?
    requires WellKeyed(rows) && b.rows.Keys <= rows.Keys && id in rows
    ensures Inv(b.(rows := rows), owns, stranded)
  {
    hide WellKeyed;
  }

  lemma ReserveKeepsInv(b: Bus, r: Row, lease: Option<nat>, healthy: bool, owns: map<nat, string>, stranded: set<string>)
    returns (w: map<nat, string>)
    requires Inv(b, owns, stranded) && b.holder.Free? && (lease != None ==> lease.value !in b.leases)
    ensures Inv(ReserveSection(b, r, lease, healthy).0, w, stranded)
  {
    hide WellKeyed, Reserve, AfterReserve, Inverse, LeasesOwned;
    w := owns;
    ReserveOutcome(b.rows, r);
    StrandedMayGrow(b, owns, stranded, r.id);
    var e := EnsureKeepsInv(b, r.id, r.identity.session, lease, owns, stranded);
    if ReserveSection(b, r, lease, healthy).1 == Accepted {
      w := e;
      var (c, _) := EnsureAdmission(b, r.id, r.identity.session, lease);
      RowsMayGrow(c, AfterReserve(c.rows, r), w, stranded, r.id);
    }
  }

  lemma StrandedMayGrow(b: Bus, owns: map<nat, string>, stranded: set<string>, id: string)
    requires Inv(b, owns, stranded)
    ensures Inv(b, owns, stranded + {id})
  {
    hide WellKeyed, Inverse, LeasesOwned;
  }

  lemma BindKeepsInverse(b: Bus, id: string, env: nat)
    requires Inverse(b) && id in b.admissions
    requires env in b.handoffs ==> b.handoffs[env] == id
    requires b.admissions[id].envelope in {None, Some(env)}
    ensures Inverse(BindEnvelope(b, id, env))
  {
  }

  lemma BindKeepsLeases(b: Bus, id: string, env: nat, owns: map<nat, string>)
    requires LeasesOwned(b, owns) && id in b.admissions
    ensures LeasesOwned(BindEnvelope(b, id, env), owns)
  {
  }

  lemma BindKeepsInv(b: Bus, id: string, env: nat, owns: map<nat, string>, stranded: set<string>)
    requires Inv(b, owns, stranded) && id in b.admissions && b.holder.Free?
    requires env in b.handoffs ==> b.handoffs[env] == id
    requires b.admissions[id].envelope in {None, Some(env)}
    ensures Inv(BindEnvelope(b, id, env), owns, stranded)
  {
    hide WellKeyed, Inverse, LeasesOwned;
    BindKeepsInverse(b, id, env);
    assert LeasesOwned(BindEnvelope(b, id, env), owns) by {
      BindKeepsLeases(b, id, env, owns);
    }
  }

  lemma PrepareKeepsInv(b: Bus, a: Action, owns: map<nat, string>, stranded: set<string>) returns (w: map<nat, string>)
    requires Inv(b, owns, stranded) && a.DoPrepare? && Enabled(b, a) && CleanBind(b, a)
    ensures Inv(Step(b, a), w, stranded)
  {
    hide WellKeyed, Reserve, AfterReserve, Inverse, LeasesOwned;
    w := owns;
    ReserveOutcome(b.rows, a.row);
    StrandedMayGrow(b, owns, stranded, a.row.id);
    var e := EnsureKeepsInv(b, a.row.id, a.row.identity.session, a.lease, owns, stranded);
    if PrepareSection(b, a.row, a.env, a.lease, a.healthy).1 == Accepted {
      w := e;
      var (c, _) := EnsureAdmission(b, a.row.id, a.row.identity.session, a.lease);
      var rows := if Reserve(c.rows, a.row) == Created then AfterReserve(c.rows, a.row) else c.rows;
      RowsMayGrow(c, rows, w, stranded, a.row.id);
      BindKeepsInv(c.(rows := rows), a.row.id, a.env, w, stranded);
    }
  }

  lemma ReleaseKeepsLeases(b: Bus, id: string, owns: map<nat, string>) returns (w: map<nat, string>)
    requires LeasesOwned(b, owns)
    ensures LeasesOwned(ReleaseAdmission(b, id), w)
  {
    w := if id in b.admissions then owns - {b.admissions[id].lease} else owns;
  }

  lemma FinalizeKeepsInv(b: Bus, owns: map<nat, string>, stranded: set<string>) returns (w: map<nat, string>)
    requires Inv(b, owns, stranded) && b.holder.Finalizing?
    ensures Inv(FinalizeSection(b, b.holder.env, b.holder.id), w, stranded)
  {
    hide WellKeyed;
    w := ReleaseKeepsLeases(b, b.holder.id, owns);
  }

  lemma RetainedKeepsInv(b: Bus, owns: map<nat, string>, stranded: set<string>)
    requires Inv(b, owns, stranded) && b.holder.Retaining?
    ensures Inv(RetainedSection(b, b.holder.env, b.holder.id), owns, stranded)
  {
    hide WellKeyed;
    var c := RetainedSection(b, b.holder.env, b.holder.id);
    assert LeasesOwned(c, owns) by { hide Inverse, RowsKept; }
    assert Inverse(c) by { hide LeasesOwned; }
    hide Inverse, LeasesOwned;
  }

  /** Flags of an admission may change; its lease and envelope may not. */
  lemma FlagsKeepInv(b: Bus, id: string, pending: bool, recoverable: bool, owns: map<nat, string>, stranded: set<string>)
    requires Inv(b, owns, stranded) && id in b.admissions
    ensures Inv(b.(admissions := b.admissions[id := b.admissions[id].(cleanupPending := pending, recoverable := recoverable)]),
                owns, stranded)
  {
    hide WellKeyed;
  }

  /** Nothing but claims, flags of the bus and the holder changes. */
  lemma HolderKeepsInv(b: Bus, c: Bus, owns: map<nat, string>, stranded: set<string>, more: set<string>)
    requires Inv(b, owns, stranded) && stranded <= more
    requires c == b.(claimed := c.claimed, closed := c.closed, fatal := c.fatal, holder := c.holder)
    requires c.holder.Free? || c.holder.Draining? || c.holder == b.holder ||
             (c.holder.Retaining? && c.holder.id in b.admissions && b.admissions[c.holder.id].envelope == Some(c.holder.env))
    requires b.holder.Finalizing? && c.holder != b.holder ==> b.holder.id in more
    ensures Inv(c, owns, more)
  {
    hide WellKeyed;
  }

  lemma RemovingKeepsKeys(rows: Rows, id: string)
    requires WellKeyed(rows)
    ensures WellKeyed(rows - {id})
  {
  }

  /** Deleting the row of a bound admission hands the lock to its finalization. */
  lemma DeleteKeepsInv(b: Bus, env: nat, id: string, owns: map<nat, string>, stranded: set<string>)
    requires Inv(b, owns, stranded) && b.holder.Free? && id in b.admissions && b.admissions[id].envelope == Some(env)
    ensures Inv(b.(rows := b.rows - {id}, holder := Finalizing(env, id)), owns, stranded)
  {
    hide WellKeyed;
    RemovingKeepsKeys(b.rows, id);
  }

  lemma CompleteKeepsInv(b: Bus, env: nat, id: string, fault: Fault, owns: map<nat, string>, stranded: set<string>)
    requires Inv(b, owns, stranded) && b.holder.Free?
    ensures Inv(CompleteSection(b, env, id, fault), owns, stranded)
  {
    hide Inv;
    if id in b.admissions && b.admissions[id].envelope == Some(env) {
      FlagsKeepInv(b, id, true, b.admissions[id].recoverable, owns, stranded);
      HolderKeepsInv(b, b.(fatal := true), owns, stranded, stranded);
      DeleteKeepsInv(b, env, id, owns, stranded);
    }
  }

  lemma RetryKeepsInv(b: Bus, env: nat, fault: Fault, owns: map<nat, string>, stranded: set<string>)
    requires Inv(b, owns, stranded) && b.holder.Free?
    ensures Inv(RetrySection(b, env, fault), owns, stranded)
  {
    hide Inv;
    HolderKeepsInv(b, b.(fatal := true), owns, stranded, stranded);
    if env in b.handoffs && b.handoffs[env] in b.admissions && b.admissions[b.handoffs[env]].envelope != None {
      DeleteKeepsInv(b, b.admissions[b.handoffs[env]].envelope.value, b.handoffs[env], owns, stranded);
    }
  }

  lemma SettleKeepsInv(b: Bus, id: string, healthy: bool, owns: map<nat, string>, stranded: set<string>)
    returns (w: map<nat, string>)
    requires Inv(b, owns, stranded) && b.holder.Free?
    ensures Inv(SettleSection(b, id, healthy), w, stranded)
  {
    hide WellKeyed;
    w := owns;
    if SettleSection(b, id, healthy) != b {
      RemovingKeepsKeys(b.rows, id);
      w := ReleaseKeepsLeases(b.(rows := b.rows - {id}, claimed := b.claimed - {id}), id, owns);
    }
  }

  lemma DrainKeepsInv(b: Bus, id: string, owns: map<nat, string>, stranded: set<string>) returns (w: map<nat, string>)
    requires Inv(b, owns, stranded) && b.holder.Draining? && id in b.admissions
    ensures Inv(DrainSection(b, id), w, stranded)
  {
    hide WellKeyed;
    w := ReleaseKeepsLeases(b, id, owns);
  }

  lemma QuietKeepsInv(b: Bus, a: Action, owns: map<nat, string>, stranded: set<string>)
    requires Inv(b, owns, stranded) && Enabled(b, a)
    requires a.DoRetain? || a.CloseFailed? || a.Claim? || a.Unclaim? || a.CloseBus? || a.DrainStart? || a.DrainEnd?
    ensures Inv(Step(b, a), owns, MoreStranded(b, a, stranded))
  {
    hide Inv;
    HolderKeepsInv(b, Step(b, a), owns, stranded, MoreStranded(b, a, stranded));
  }

  lemma DeferKeepsInv(b: Bus, id: string, owns: map<nat, string>, stranded: set<string>)
    requires Inv(b, owns, stranded) && b.holder.Free?
    ensures Inv(DeferSection(b, id), owns, stranded)
  {
    hide Inv;
    if DeferSection(b, id) != b {
      FlagsKeepInv(b, id, b.admissions[id].cleanupPending, true, owns, stranded);
      var c := b.(admissions := b.admissions[id := b.admissions[id].(recoverable := true)]);
      HolderKeepsInv(c, DeferSection(b, id), owns, stranded, stranded);
    }
  }

  lemma StepKeepsInv(b: Bus, a: Action, owns: map<nat, string>, stranded: set<string>) returns (w: map<nat, string>)
    requires Inv(b, owns, stranded) && Enabled(b, a) && CleanBind(b, a)
    ensures Inv(Step(b, a), w, MoreStranded(b, a, stranded))
  {
    w := owns;
    match a
    case DoReserve(r, lease, healthy) => w := ReserveKeepsInv(b, r, lease, healthy, owns, stranded);
    case DoPrepare(_, _, _, _) => w := PrepareKeepsInv(b, a, owns, stranded);
    case CloseDone =>
      if b.holder.Finalizing? {
        w := FinalizeKeepsInv(b, owns, stranded);
      } else {
        RetainedKeepsInv(b, owns, stranded);
      }
    case DoComplete(env, id, fault) => CompleteKeepsInv(b, env, id, fault, owns, stranded);
    case DoRetry(env, fault) => RetryKeepsInv(b, env, fault, owns, stranded);
    case DoDefer(id) => DeferKeepsInv(b, id, owns, stranded);
    case DoSettle(id, healthy) => w := SettleKeepsInv(b, id, healthy, owns, stranded);
    case DrainEntry(id) => w := DrainKeepsInv(b, id, owns, stranded);
    case Crash => w := map[];
    case _ => QuietKeepsInv(b, a, owns, stranded);
  }

  // ---------------------------------------------------------------------------
  // Whole runs
  // ---------------------------------------------------------------------------

  ghost predicate IsRun(states: seq<Bus>, acts: seq<Action>) {
    |states| == |acts| + 1 && states[0] == EMPTY &&
    forall i :: 0 <= i < |acts| ==> Enabled(states[i], acts[i]) && states[i + 1] == Step(states[i], acts[i])
  }

  /** The admissions that have lost their row, outside a running finalization. */
  function StrandedIds(b: Bus): set<string> {
    set id | id in b.admissions && id !in b.rows && !(b.holder.Finalizing? && b.holder.id == id)
  }

  /** The step makes a new row for this handoff, and an admission for it if it has none. */
  ghost predicate MakesRow(b: Bus, a: Action, id: string) {
    (a.DoReserve? || a.DoPrepare?) && a.row.id == id && !b.closed && a.healthy &&
    (id in b.admissions || a.lease != None) && Reserve(b.rows, a.row) == Created
  }

  /** How a step changes them: a close that fails after the delete strands its handoff, and
      the shutdown loop, a crash, or a new row for the same handoff end that. */
  ghost function StrandedAfter(b: Bus, a: Action, stranded: set<string>): set<string> {
    match a
    case CloseFailed => if b.holder.Finalizing? then stranded + {b.holder.id} else stranded
    case DrainEntry(id) => stranded - {id}
    case Crash => {}
    case DoReserve(r, _, _) => if MakesRow(b, a, r.id) then stranded - {r.id} else stranded
    case DoPrepare(r, _, _, _) => if MakesRow(b, a, r.id) then stranded - {r.id} else stranded
    case _ => stranded
  }

  /** What the two reserving sections do to the keys. */
  ghost predicate KeysAfter(b: Bus, a: Action, c: Bus)
    requires a.DoReserve? || a.DoPrepare?
  {
    && c.holder == b.holder
    && c.rows.Keys == (if MakesRow(b, a, a.row.id) then b.rows.Keys + {a.row.id} else b.rows.Keys)
    && (c.admissions.Keys == b.admissions.Keys ||
        (c.admissions.Keys == b.admissions.Keys + {a.row.id} && a.row.id in c.rows))
  }

  lemma AcquireIsUndone(b: Bus, id: string, session: string, lease: Option<nat>)
    requires lease != None ==> lease.value !in b.leases
    ensures var (c, e) := EnsureAdmission(b, id, session, lease);
            && ReleaseIf(c, id, e) == b && c.rows == b.rows && c.holder == b.holder && c.closed == b.closed
            && (e == Refused <==> id !in b.admissions && lease == None) && (e == Refused ==> c == b)
            && (e != Refused ==> c.admissions.Keys == b.admissions.Keys + {id})
  {
    var (c, e) := EnsureAdmission(b, id, session, lease);
    if e == Acquired {
      assert c.leases - {lease.value} == b.leases && c.admissions - {id} == b.admissions;
    }
  }

  lemma ReserveKeys(b: Bus, r: Row, lease: Option<nat>, healthy: bool)
    requires WellKeyed(b.rows) && (lease != None ==> lease.value !in b.leases)
    ensures KeysAfter(b, DoReserve(r, lease, healthy), ReserveSection(b, r, lease, healthy).0)
  {
    hide Reserve, AfterReserve, WellKeyed, EnsureAdmission, ReleaseIf;
    AcquireIsUndone(b, r.id, r.identity.session, lease);
    ReserveOutcome(b.rows, r);
  }

  lemma PrepareKeys(b: Bus, r: Row, env: nat, lease: Option<nat>, healthy: bool)
    requires WellKeyed(b.rows) && (lease != None ==> lease.value !in b.leases)
    ensures KeysAfter(b, DoPrepare(r, env, lease, healthy), PrepareSection(b, r, env, lease, healthy).0)
  {
    hide Reserve, AfterReserve, WellKeyed, EnsureAdmission, ReleaseIf;
    AcquireIsUndone(b, r.id, r.identity.session, lease);
    ReserveOutcome(b.rows, r);
  }

  lemma StrandedByKeys(b: Bus, a: Action, c: Bus)
    requires (a.DoReserve? || a.DoPrepare?) && b.holder.Free? && KeysAfter(b, a, c)
    ensures StrandedIds(c) == if MakesRow(b, a, a.row.id) then StrandedIds(b) - {a.row.id} else StrandedIds(b)
  {
    hide MakesRow;
    assert forall id :: id in c.admissions <==> id in c.admissions.Keys;
    assert forall id :: id in c.rows <==> id in c.rows.Keys;
  }

  lemma StrandedStep(b: Bus, a: Action, owns: map<nat, string>, stranded: set<string>)
    requires Inv(b, owns, stranded) && Enabled(b, a)
    ensures StrandedIds(Step(b, a)) == StrandedAfter(b, a, StrandedIds(b))
  {
    assert b.holder.Finalizing? ==> b.holder.id in b.admissions && b.holder.id !in b.rows;
    hide Inv, Step, Enabled, StrandedAfter, StrandedIds;
    if a.DoReserve? || a.DoPrepare? {
      StrandedByReserving(b, a);
    } else if a.DoComplete? || a.DoRetry? || a.DoSettle? {
      StrandedByDeleting(b, a);
    } else if a.CloseDone? || a.CloseFailed? || a.DrainEntry? || a.Crash? {
      StrandedByEnding(b, a);
    } else {
      StrandedByQuiet(b, a);
    }
  }

  lemma StrandedByReserving(b: Bus, a: Action)
    requires WellKeyed(b.rows) && Enabled(b, a) && (a.DoReserve? || a.DoPrepare?)
    ensures StrandedIds(Step(b, a)) == StrandedAfter(b, a, StrandedIds(b))
  {
    hide WellKeyed, MakesRow, KeysAfter, StrandedIds, ReserveSection, PrepareSection, InFlight;
    if a.DoReserve? {
      ReserveKeys(b, a.row, a.lease, a.healthy);
    } else {
      PrepareKeys(b, a.row, a.env, a.lease, a.healthy);
    }
    StrandedByKeys(b, a, Step(b, a));
  }

  lemma StrandedByDeleting(b: Bus, a: Action)
    requires Enabled(b, a) && (a.DoComplete? || a.DoRetry? || a.DoSettle?)
    ensures StrandedIds(Step(b, a)) == StrandedAfter(b, a, StrandedIds(b))
  {
    hide InFlight, StrandedIds, CompleteSection, RetrySection, SettleSection;
    if a.DoComplete? {
      StrandedByComplete(b, a.env, a.id, a.fault);
    } else if a.DoRetry? {
      StrandedByRetry(b, a.env, a.fault);
    } else {
      StrandedBySettling(b, a.id, a.healthy);
    }
  }

  lemma StrandedByComplete(b: Bus, env: nat, id: string, fault: Fault)
    requires b.holder.Free?
    ensures StrandedIds(CompleteSection(b, env, id, fault)) == StrandedIds(b)
  {
    hide StrandedIds;
    StrandedByDelete(b, id, CompleteSection(b, env, id, fault));
  }

  lemma StrandedByRetry(b: Bus, env: nat, fault: Fault)
    requires b.holder.Free?
    ensures StrandedIds(RetrySection(b, env, fault)) == StrandedIds(b)
  {
    hide StrandedIds;
    StrandedByDelete(b, if env in b.handoffs then b.handoffs[env] else "", RetrySection(b, env, fault));
  }

  lemma StrandedBySettling(b: Bus, id: string, healthy: bool)
    requires b.holder.Free?
    ensures StrandedIds(SettleSection(b, id, healthy)) == StrandedIds(b)
  {
    hide StrandedIds;
    StrandedBySettle(b, id, SettleSection(b, id, healthy));
  }

  lemma StrandedByEnding(b: Bus, a: Action)
    requires Enabled(b, a) && (a.CloseDone? || a.CloseFailed? || a.DrainEntry? || a.Crash?)
    requires b.holder.Finalizing? ==> b.holder.id in b.admissions && b.holder.id !in b.rows
    ensures StrandedIds(Step(b, a)) == StrandedAfter(b, a, StrandedIds(b))
  {
    hide InFlight, StrandedIds;
    match a
    case CloseDone => StrandedByClose(b, Step(b, a));
    case CloseFailed => StrandedByFailure(b);
    case DrainEntry(id) => StrandedByDrain(b, id);
    case _ => StrandedByCrash(b);
  }

  lemma StrandedByQuiet(b: Bus, a: Action)
    requires Enabled(b, a)
    requires a.DoRetain? || a.DoDefer? || a.Claim? || a.Unclaim? || a.CloseBus? || a.DrainStart? || a.DrainEnd?
    ensures StrandedIds(Step(b, a)) == StrandedAfter(b, a, StrandedIds(b))
  {
    hide InFlight, StrandedIds;
    StrandedByNothing(b, Step(b, a));
  }

  lemma StrandedByNothing(b: Bus, c: Bus)
    requires c.rows == b.rows && c.admissions.Keys == b.admissions.Keys
    requires if b.holder.Finalizing? then c.holder == b.holder else !c.holder.Finalizing?
    ensures StrandedIds(c) == StrandedIds(b)
  {
    assert forall id :: id in c.admissions <==> id in c.admissions.Keys;
  }

  lemma StrandedByDelete(b: Bus, id: string, c: Bus)
    requires b.holder.Free? && c.admissions.Keys == b.admissions.Keys
    requires (c.rows == b.rows && c.holder == b.holder) ||
             (c.rows == b.rows - {id} && c.holder.Finalizing? && c.holder.id == id && id in b.rows)
    ensures StrandedIds(c) == StrandedIds(b)
  {
    assert forall x :: x in c.admissions <==> x in c.admissions.Keys;
  }

  lemma StrandedBySettle(b: Bus, id: string, c: Bus)
    requires b.holder.Free? && c.holder.Free?
    requires c == b || (id in b.rows && c.rows == b.rows - {id} && c.admissions == b.admissions - {id})
    ensures StrandedIds(c) == StrandedIds(b)
  {
  }

  lemma StrandedByClose(b: Bus, c: Bus)
    requires c.holder.Free? && c.rows == b.rows
    requires if b.holder.Finalizing? then c.admissions == b.admissions - {b.holder.id}
             else c.admissions.Keys == b.admissions.Keys
    ensures StrandedIds(c) == StrandedIds(b)
  {
    assert forall x :: x in c.admissions <==> x in c.admissions.Keys;
  }

  lemma StrandedByDrain(b: Bus, id: string)
    requires b.holder.Draining? && id in b.admissions
    ensures StrandedIds(DrainSection(b, id)) == StrandedIds(b) - {id}
  {
  }

  lemma StrandedByFailure(b: Bus)
    requires b.holder.Finalizing? ==> b.holder.id in b.admissions && b.holder.id !in b.rows
    ensures StrandedIds(b.(holder := Free)) == if b.holder.Finalizing? then StrandedIds(b) + {b.holder.id} else StrandedIds(b)
  {
  }

  lemma StrandedByCrash(b: Bus)
    ensures StrandedIds(Reboot(b)) == {}
  {
  }

  /** Whatever set bounds them, the invariant holds with exactly these ids. */
  lemma InvWithStranded(b: Bus, owns: map<nat, string>, stranded: set<string>)
    requires Inv(b, owns, stranded)
    ensures Inv(b, owns, StrandedIds(b))
  {
    hide WellKeyed, Inverse, LeasesOwned;
  }

  /** Main result: from a state in which every admission outside a finalization has its row,
      a step leaves one without exactly when it is a close that fails after the delete. */
  lemma RowsKeptIffCloseWorks(b: Bus, a: Action, owns: map<nat, string>)
    requires Inv(b, owns, {}) && Enabled(b, a) && CleanBind(b, a)
    ensures RowsKept(Step(b, a), {}) <==> !(a.CloseFailed? && b.holder.Finalizing?)
  {
    var w := StepKeepsInv(b, a, owns, {});
    StrandedStep(b, a, owns, {});
    assert StrandedIds(b) == {};
    hide Step, WellKeyed, Inverse, LeasesOwned, CleanBind, Enabled;
    if a.CloseFailed? && b.holder.Finalizing? {
      assert b.holder.id in StrandedIds(Step(b, a));
    }
  }

  /** The stranded handoffs after `i` steps, told from the steps alone. */
  ghost function Stranded(states: seq<Bus>, acts: seq<Action>, i: nat): set<string>
    requires |states| == |acts| + 1 && i < |states|
  {
    if i == 0 then {} else StrandedAfter(states[i - 1], acts[i - 1], Stranded(states, acts, i - 1))
  }

  lemma {:induction false} RunsKeepInv(states: seq<Bus>, acts: seq<Action>, i: nat) returns (owns: map<nat, string>)
    requires IsRun(states, acts) && i < |states|
    requires forall j :: 0 <= j < |acts| ==> CleanBind(states[j], acts[j])
    ensures Inv(states[i], owns, Stranded(states, acts, i)) && StrandedIds(states[i]) == Stranded(states, acts, i)
  {
    hide Inv, Step, Enabled, StrandedAfter, StrandedIds;
    if i == 0 {
      owns := map[];
      NothingStranded();
    } else {
      var v := RunsKeepInv(states, acts, i - 1);
      var b, a := states[i - 1], acts[i - 1];
      assert Enabled(b, a) && states[i - 1 + 1] == Step(b, a) && CleanBind(b, a);
      owns := StepKeepsInv(b, a, v, Stranded(states, acts, i - 1));
      StrandedStep(b, a, v, Stranded(states, acts, i - 1));
      InvWithStranded(Step(b, a), owns, MoreStranded(b, a, Stranded(states, acts, i - 1)));
    }
  }

  lemma NothingStranded()
    ensures Inv(EMPTY, map[], {}) && StrandedIds(EMPTY) == {}
  {
  }

  /** Main result: as long as no bind replaces a live envelope, in every state of every
      run the envelope map and the admissions' envelopes are inverse, each admission owns
      exactly one lease and no lease is shared or left over, and an admission lacks its
      durable row if and only if it is being finalized or an earlier close failed on it and
      nothing has ended that since. */
  lemma HandoffsAreConserved(states: seq<Bus>, acts: seq<Action>, i: nat)
    requires IsRun(states, acts) && i < |states|
    requires forall j :: 0 <= j < |acts| ==> CleanBind(states[j], acts[j])
    ensures var b := states[i];
            && Inverse(b)
            && b.leases.Keys == (set id | id in b.admissions :: b.admissions[id].lease)
            && (forall x, y :: x in b.admissions && y in b.admissions && b.admissions[x].lease == b.admissions[y].lease ==> x == y)
            && (forall id :: id in b.admissions ==>
                  (id !in b.rows <==> id in Stranded(states, acts, i) || (b.holder.Finalizing? && b.holder.id == id)))
            && Stranded(states, acts, i) <= b.admissions.Keys
  {
    hide WellKeyed, Inverse, IsRun, Stranded;
    var owns := RunsKeepInv(states, acts, i);
    var b := states[i];
    assert forall l :: l in b.leases ==> b.admissions[owns[l]].lease == l;
  }

  /** A bus that finished its shutdown loop holds no lease and no envelope. */
  lemma ShutdownReleasesEverything(states: seq<Bus>, acts: seq<Action>, i: nat)
    requires IsRun(states, acts) && i < |states| && states[i].admissions == map[]
    requires forall j :: 0 <= j < |acts| ==> CleanBind(states[j], acts[j])
    ensures states[i].leases == map[] && states[i].handoffs == map[]
  {
    hide WellKeyed, IsRun;
    var owns := RunsKeepInv(states, acts, i);
    assert states[i].leases.Keys == {};
  }

  /** Whether a bind keeps the two maps inverse is decided by the admission it finds: it
      does exactly when no other envelope is bound there.  Only two branches can go wrong:
      recovery of a claimed id, which does not look at the admission, and a new row for a
      handoff that lost its old one. */
  lemma BindKeepsInverseIffClean(b: Bus, a: Action, owns: map<nat, string>, stranded: set<string>)
    requires Inv(b, owns, stranded) && a.DoPrepare? && Enabled(b, a)
    ensures Inverse(Step(b, a)) <==> CleanBind(b, a)
    ensures !Inverse(Step(b, a)) ==> a.row.id in b.claimed || (a.row.id in stranded && a.row.id !in b.rows)
  {
    if CleanBind(b, a) {
      var w := PrepareKeepsInv(b, a, owns, stranded);
    } else {
      var old_ := b.admissions[a.row.id].envelope.value;
      assert old_ in Step(b, a).handoffs && Step(b, a).handoffs[old_] == a.row.id;
    }
  }

  const ROW := Row("h", Identity(Some("s:m"), "mobile", "device", "chat", "s", "hi", "[]", "{}"), "t", "c")

  /** A claimed handoff whose recoverer has not run yet. */
  const RECOVERING := EMPTY.(rows := map["h" := ROW], leases := map[0 := "s"], claimed := {"h"},
                             admissions := map["h" := Admission(0, None, false, true)])

  lemma RecoveringIsReached(acts: seq<Action>) returns (states: seq<Bus>)
    requires acts == [DoReserve(ROW, Some(0), true), DoDefer("h"), Claim({"h"})]
    ensures IsRun(states, acts) && states[3] == RECOVERING
  {
    var s1 := EMPTY.(rows := map["h" := ROW], leases := map[0 := "s"],
                     admissions := map["h" := Admission(0, None, false, false)]);
    var s2 := s1.(admissions := map["h" := Admission(0, None, false, true)]);
    assert Step(EMPTY, acts[0]) == s1 by {
      assert Reserve(map[], ROW) == Created;
    }
    hide Reserve, AfterReserve;
    assert Step(s1, acts[1]) == s2;
    assert InFlight(s2) == {};
    states := [EMPTY, s1, s2, RECOVERING];
  }

  /** Binding a row that is already there, to a claimed handoff. */
  lemma BindClaimed(b: Bus, env: nat)
    requires b.rows == map["h" := ROW] && !b.closed && "h" in b.claimed && "h" in b.admissions
    ensures PrepareSection(b, ROW, env, None, true).0 == BindEnvelope(b, "h", env)
  {
    assert Reserve(map[], ROW) == Created && AfterReserve(map[], ROW) == b.rows;
    ReserveAgainReturnsFirst(map[], ROW, ROW, ROW);
  }

  /** A live delivery prepared between the recovery claim and its recoverer: the
      recoverer's bind then leaves the live envelope without an admission. */
  lemma LivePrepareDuringRecoveryBreaksInverse() returns (states: seq<Bus>, acts: seq<Action>)
    ensures IsRun(states, acts) && !Inverse(states[|acts|])
  {
    hide Reserve, AfterReserve, PrepareSection;
    acts := [DoReserve(ROW, Some(0), true), DoDefer("h"), Claim({"h"})];
    states := RecoveringIsReached(acts);
    var live, late := DoPrepare(ROW, 1, None, true), DoPrepare(ROW, 2, None, true);
    var s4 := BindEnvelope(RECOVERING, "h", 1);
    var s5 := BindEnvelope(s4, "h", 2);
    BindClaimed(RECOVERING, 1);
    BindClaimed(s4, 2);
    states, acts := states + [s4, s5], acts + [live, late];
    assert s5.handoffs[1] == "h";
  }

  /** A close that is cancelled after the delete leaves the admission without its row. */
  lemma CancelledCloseStrandsAdmission() returns (states: seq<Bus>, acts: seq<Action>)
    ensures IsRun(states, acts)
    ensures var b := states[|acts|]; b.holder.Free? && "h" in b.admissions && "h" !in b.rows
  {
    acts := [DoPrepare(ROW, 1, Some(0), true), DoComplete(1, "h", Healthy), CloseFailed];
    assert Reserve(map[], ROW) == Created;
    var s1 := Step(EMPTY, acts[0]);
    var s2 := Step(s1, acts[1]);
    states := [EMPTY, s1, s2, Step(s2, acts[2])];
  }

  // ---------------------------------------------------------------------------
  // Durable rows over whole runs
  // ---------------------------------------------------------------------------

  /** The step deletes the row of `id`: a completion, its retry, or a settled rejection. */
  ghost predicate Deletes(b: Bus, a: Action, id: string) {
    match a
    case DoComplete(env, h, Healthy) => h == id && h in b.admissions && b.admissions[h].envelope == Some(env)
    case DoRetry(env, Healthy) =>
      env in b.handoffs && b.handoffs[env] == id && id in b.admissions && b.admissions[id].cleanupPending
    case DoSettle(h, true) => h == id && (h in b.admissions ==> b.admissions[h].envelope == None)
    case _ => false
  }

  lemma RowStays(rows: Rows, r: Row, id: string)
    requires id in rows
    ensures id in AfterReserve(rows, r) && AfterReserve(rows, r)[id] == rows[id]
  {
  }

  lemma ReserveKeepsRow(b: Bus, r: Row, lease: Option<nat>, healthy: bool, id: string)
    requires id in b.rows
    ensures var c := ReserveSection(b, r, lease, healthy).0; id in c.rows && c.rows[id] == b.rows[id]
  {
    hide Reserve, AfterReserve;
    RowStays(b.rows, r, id);
  }

  lemma PrepareKeepsRow(b: Bus, r: Row, env: nat, lease: Option<nat>, healthy: bool, id: string)
    requires id in b.rows
    ensures var c := PrepareSection(b, r, env, lease, healthy).0; id in c.rows && c.rows[id] == b.rows[id]
  {
    hide Reserve, AfterReserve;
    RowStays(b.rows, r, id);
  }

  lemma DeleteKeepsRow(b: Bus, a: Action, id: string)
    requires Enabled(b, a) && id in b.rows && !Deletes(b, a, id)
    requires a.DoComplete? || a.DoRetry? || a.DoSettle?
    ensures id in Step(b, a).rows && Step(b, a).rows[id] == b.rows[id]
  {
    hide Reserve, InFlight;
  }

  lemma StepKeepsRow(b: Bus, a: Action, id: string)
    requires Enabled(b, a) && id in b.rows && !Deletes(b, a, id)
    ensures id in Step(b, a).rows && Step(b, a).rows[id] == b.rows[id]
  {
    hide ReserveSection, PrepareSection, CompleteSection, RetrySection, SettleSection, Deletes, InFlight;
    match a
    case DoReserve(r, lease, healthy) => ReserveKeepsRow(b, r, lease, healthy, id);
    case DoPrepare(r, env, lease, healthy) => PrepareKeepsRow(b, r, env, lease, healthy, id);
    case DoComplete(_, _, _) => DeleteKeepsRow(b, a, id);
    case DoRetry(_, _) => DeleteKeepsRow(b, a, id);
    case DoSettle(_, _) => DeleteKeepsRow(b, a, id);
    case _ =>
  }


  /** Main result: over any run, crashes and failed deletes included, a reserved row
      leaves the table only through a step that completes, retries or settles it, and
      until then its content never changes. */
  lemma {:induction false} RowLeavesOnlyWhenFinished(states: seq<Bus>, acts: seq<Action>, i: nat, j: nat, id: string)
    requires IsRun(states, acts) && i <= j < |states| && id in states[i].rows
    requires forall k :: i <= k < j ==> !Deletes(states[k], acts[k], id)
    ensures id in states[j].rows && states[j].rows[id] == states[i].rows[id]
    decreases j - i
  {
    if i < j {
      RowLeavesOnlyWhenFinished(states, acts, i, j - 1, id);
      StepKeepsRow(states[j - 1], acts[j - 1], id);
    }
  }
}
