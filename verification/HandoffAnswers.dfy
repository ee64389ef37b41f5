/** What the answers of the bus mean: which message is held after each of them, and what a
    step leaves alone. */
module HandoffAnswers {
  import opened Handoff
  import opened InboundStore
  import opened Wrappers

  /** The bus may take the message on: it is open, its store works, and the session lease is
      there or can be had. */
  predicate CanTake(b: Bus, r: Row, lease: Option<nat>, healthy: bool) {
    !b.closed && healthy && (r.id in b.admissions || lease != None) && Proper(r)
  }

  /** The message is taken on: its row is there with its identity, and one admission for it
      with a lease of its session; whoever is held under another id is untouched. */
  predicate TakenOn(b: Bus, r: Row, lease: Option<nat>, c: Bus) {
    && r.id in c.rows && c.rows[r.id].identity == r.identity && c.rows == b.rows[r.id := c.rows[r.id]]
    && (r.id in b.rows ==> c.rows == b.rows)
    && r.id in c.admissions && c.admissions == b.admissions[r.id := c.admissions[r.id]]
    && (if r.id in b.admissions then c.leases == b.leases && c.admissions[r.id].lease == b.admissions[r.id].lease
        else lease != None && c.leases == b.leases[lease.value := r.identity.session] && c.admissions[r.id].lease == lease.value)
    && c.claimed == b.claimed && c.closed == b.closed && c.fatal == b.fatal && c.holder == b.holder
  }

  lemma EnsureOutcome(b: Bus, r: Row, lease: Option<nat>)
    requires lease != None ==> lease.value !in b.leases
    ensures var (c, e) := EnsureAdmission(b, r.id, r.identity.session, lease);
            && (e == Refused <==> r.id !in b.admissions && lease == None)
            && (e == Refused ==> c == b) && ReleaseIf(c, r.id, e) == b && c.rows == b.rows && c.claimed == b.claimed
            && (e != Refused ==>
                  && r.id in c.admissions && c.handoffs == b.handoffs && TakenOn(b.(rows := b.rows[r.id := r]), r, lease, c.(rows := b.rows[r.id := r]))
                  && c.admissions[r.id].envelope == (if r.id in b.admissions then b.admissions[r.id].envelope else None)
                  && (r.id in b.admissions ==> c == b))
  {
    var (c, e) := EnsureAdmission(b, r.id, r.identity.session, lease);
    if e == Acquired {
      assert c.leases - {lease.value} == b.leases && c.admissions - {r.id} == b.admissions;
    } else if e == Reused {
      assert b.admissions == b.admissions[r.id := b.admissions[r.id]];
    }
  }

  /** Main result: a reserve is accepted exactly when the bus can take the message on and
      its row is new or already there; then the row and an admission are held, and no
      envelope is bound.  After any other answer the bus is as it was: a message held
      under another id is rejected, and everything else raises. */
  lemma ReserveAnswers(b: Bus, r: Row, lease: Option<nat>, healthy: bool)
    requires WellKeyed(b.rows) && (lease != None ==> lease.value !in b.leases)
    ensures var (c, answer) := ReserveSection(b, r, lease, healthy);
            && (answer == Accepted <==> CanTake(b, r, lease, healthy) && (Unseen(b.rows, r) || Stored(b.rows, r)))
            && (answer == Rejected <==> CanTake(b, r, lease, healthy) && exists id :: StoredAs(b.rows, r, id))
            && (answer == Accepted ==>
                  TakenOn(b, r, lease, c) && c.handoffs == b.handoffs &&
                  (if r.id in b.admissions then c.admissions == b.admissions
                   else c.admissions[r.id].envelope == None && !c.admissions[r.id].recoverable))
            && (answer != Accepted ==> c == b)
            && (b.closed || !healthy ==> (c, answer) == (b, Raised))
  {
    ReserveDecides(b.rows, r);
    EnsureOutcome(b, r, lease);
    hide Reserve, AfterReserve, ReleaseIf, WellKeyed, Unseen, Proper;
    assert StoredAs(b.rows, r, r.id) ==> false;
    if Reserve(b.rows, r).Existing? {
      assert Reserve(b.rows, r) == Existing(Reserve(b.rows, r).id);
      assert Reserve(b.rows, r).id != r.id ==> StoredAs(b.rows, r, Reserve(b.rows, r).id);
    }
    if r.id in b.rows {
      assert b.rows == b.rows[r.id := b.rows[r.id]];
    }
  }

  /** What a prepare leaves behind. */
  lemma PrepareLeaves(b: Bus, r: Row, env: nat, lease: Option<nat>, healthy: bool)
    requires WellKeyed(b.rows) && (lease != None ==> lease.value !in b.leases)
    ensures var (c, answer) := PrepareSection(b, r, env, lease, healthy);
            && (answer == Accepted ==>
                  TakenOn(b, r, lease, c) && c.handoffs == b.handoffs[env := r.id] &&
                  c.admissions[r.id].envelope == Some(env) && !c.admissions[r.id].recoverable)
            && (answer != Accepted ==> c == b)
  {
    ReserveDecides(b.rows, r);
    EnsureOutcome(b, r, lease);
    hide Reserve, AfterReserve, ReleaseIf, WellKeyed, Unseen, Proper;
    if r.id in b.rows {
      assert b.rows == b.rows[r.id := b.rows[r.id]];
    }
  }

  /** When a prepare gives which answer. */
  lemma PrepareDecides(b: Bus, r: Row, env: nat, lease: Option<nat>, healthy: bool)
    requires WellKeyed(b.rows) && (lease != None ==> lease.value !in b.leases)
    ensures var answer := PrepareSection(b, r, env, lease, healthy).1;
            var unbound := r.id !in b.admissions || b.admissions[r.id].envelope == None;
            var held := CanTake(b, r, lease, healthy) && (Stored(b.rows, r) || exists id :: StoredAs(b.rows, r, id));
            var unseen := CanTake(b, r, lease, healthy) && Unseen(b.rows, r);
            && (answer == Accepted <==> unseen || (held && Stored(b.rows, r) && (r.id in b.claimed || unbound)))
            && (answer == Rejected <==> held && !(Stored(b.rows, r) && (r.id in b.claimed || unbound)))
            && (b.closed || !healthy ==> answer == Raised)
  {
    ReserveDecides(b.rows, r);
    EnsureOutcome(b, r, lease);
    hide Reserve, AfterReserve, ReleaseIf, WellKeyed, Unseen, Proper, TakenOn;
    assert StoredAs(b.rows, r, r.id) ==> false;
    if Reserve(b.rows, r).Existing? {
      assert Reserve(b.rows, r) == Existing(Reserve(b.rows, r).id);
      assert Reserve(b.rows, r).id != r.id ==> StoredAs(b.rows, r, Reserve(b.rows, r).id);
    }
  }

  /** Main result: a prepare is accepted exactly when the bus can take the message on and its
      row is new, or is there and recovery has claimed it or no envelope is bound to it yet.
      Then the row is held and the envelope is bound both ways.  After any other answer the
      bus is as it was; one that raises comes from a bus, a store or a message that allows
      nothing, all others are rejected. */
  lemma PrepareAnswers(b: Bus, r: Row, env: nat, lease: Option<nat>, healthy: bool)
    requires WellKeyed(b.rows) && (lease != None ==> lease.value !in b.leases)
    ensures var (c, answer) := PrepareSection(b, r, env, lease, healthy);
            var unbound := r.id !in b.admissions || b.admissions[r.id].envelope == None;
            var held := CanTake(b, r, lease, healthy) && (Stored(b.rows, r) || exists id :: StoredAs(b.rows, r, id));
            var unseen := CanTake(b, r, lease, healthy) && Unseen(b.rows, r);
            && (answer == Accepted <==> unseen || (held && Stored(b.rows, r) && (r.id in b.claimed || unbound)))
            && (answer == Rejected <==> held && !(Stored(b.rows, r) && (r.id in b.claimed || unbound)))
            && (answer == Accepted ==>
                  TakenOn(b, r, lease, c) && c.handoffs == b.handoffs[env := r.id] &&
                  c.admissions[r.id].envelope == Some(env) && !c.admissions[r.id].recoverable)
            && (answer != Accepted ==> c == b)
            && (b.closed || !healthy ==> (c, answer) == (b, Raised))
  {
    PrepareLeaves(b, r, env, lease, healthy);
    PrepareDecides(b, r, env, lease, healthy);
    hide PrepareSection, WellKeyed, Unseen, Proper, Stored, StoredAs;
  }

  // ---------------------------------------------------------------------------
  // What a step leaves alone
  // ---------------------------------------------------------------------------

  /** The handoff a step is about; a claim is about many. */
  function Subjects(b: Bus, a: Action): set<string> {
    match a
    case DoReserve(r, _, _) => {r.id}
    case DoPrepare(r, _, _, _) => {r.id}
    case DoComplete(_, id, _) => {id}
    case DoRetry(env, _) => if env in b.handoffs then {b.handoffs[env]} else {}
    case CloseDone => if b.holder.Finalizing? || b.holder.Retaining? then {b.holder.id} else {}
    case DoDefer(id) => {id}
    case DoSettle(id, _) => {id}
    case Claim(ids) => ids
    case Unclaim(ids) => ids
    case DrainEntry(id) => {id}
    case _ => {}
  }

  /** All that the two buses know of one handoff is the same. */
  ghost predicate SameHandoff(b: Bus, c: Bus, x: string) {
    && (x in b.rows <==> x in c.rows) && (x in b.rows ==> c.rows[x] == b.rows[x])
    && (x in b.admissions <==> x in c.admissions) && (x in b.admissions ==> c.admissions[x] == b.admissions[x])
    && (x in b.admissions && b.admissions[x].lease in b.leases ==>
          b.admissions[x].lease in c.leases && c.leases[b.admissions[x].lease] == b.leases[b.admissions[x].lease])
    && (x in b.claimed <==> x in c.claimed)
    && (forall e: nat :: (e in b.handoffs && b.handoffs[e] == x) <==> (e in c.handoffs && c.handoffs[e] == x))
  }

  lemma ReleaseLeavesOthers(b: Bus, id: string, x: string, owns: map<nat, string>)
    requires LeasesOwned(b, owns) && x != id
    ensures var c := ReleaseAdmission(b, id); SameHandoff(b, c, x) && c.handoffs == b.handoffs && c.claimed == b.claimed && c.rows == b.rows
  {
  }

  lemma PrepareLeavesOthers(b: Bus, r: Row, env: nat, lease: Option<nat>, healthy: bool, x: string)
    requires WellKeyed(b.rows) && (lease != None ==> lease.value !in b.leases) && x != r.id
    requires env in b.handoffs ==> b.handoffs[env] == r.id
    ensures SameHandoff(b, PrepareSection(b, r, env, lease, healthy).0, x)
  {
    PrepareAnswers(b, r, env, lease, healthy);
    hide PrepareSection, WellKeyed, Unseen, Proper;
  }

  /** One handoff loses its admission, its bindings and its claim. */
  lemma EndingLeavesOthers(b: Bus, id: string, env: Option<nat>, x: string, owns: map<nat, string>)
    requires LeasesOwned(b, owns) && x != id && (env != None && env.value in b.handoffs ==> b.handoffs[env.value] == id)
    ensures var c := ReleaseAdmission(b, id);
            SameHandoff(b, c.(handoffs := if env == None then c.handoffs else c.handoffs - {env.value}, claimed := c.claimed - {id}), x)
  {
    ReleaseLeavesOthers(b, id, x, owns);
    hide ReleaseAdmission, LeasesOwned;
  }

  lemma DeleteLeavesOthers(b: Bus, env: nat, id: string, fault: Fault, x: string)
    requires b.holder.Free? && x != id
    ensures SameHandoff(b, CompleteSection(b, env, id, fault), x)
  {
  }

  lemma SettleLeavesOthers(b: Bus, id: string, healthy: bool, x: string, owns: map<nat, string>)
    requires LeasesOwned(b, owns) && x != id
    ensures SameHandoff(b, SettleSection(b, id, healthy), x)
  {
    var c := b.(rows := b.rows - {id}, claimed := b.claimed - {id});
    ReleaseLeavesOthers(c, id, x, owns);
    hide ReleaseAdmission, LeasesOwned;
  }

  lemma CloseLeavesOthers(b: Bus, a: Action, x: string, owns: map<nat, string>, stranded: set<string>)
    requires Inv(b, owns, stranded) && Enabled(b, a) && (a.CloseDone? || a.DrainEntry?) && x !in Subjects(b, a)
    ensures SameHandoff(b, Step(b, a), x)
  {
    if a.DrainEntry? {
      EndingLeavesOthers(b, a.id, b.admissions[a.id].envelope, x, owns);
    } else if b.holder.Finalizing? {
      EndingLeavesOthers(b, b.holder.id, Some(b.holder.env), x, owns);
    }
    hide WellKeyed, ReleaseAdmission, LeasesOwned;
  }

  /** Main result: short of a crash, a step changes nothing about a handoff it is not about:
      not its row, its admission or lease, its claim, or the envelopes bound to it. */
  lemma OthersAreUntouched(b: Bus, a: Action, x: string, owns: map<nat, string>, stranded: set<string>)
    requires Inv(b, owns, stranded) && Enabled(b, a) && !a.Crash? && x !in Subjects(b, a)
    ensures SameHandoff(b, Step(b, a), x)
  {
    hide ReserveSection, PrepareSection, CompleteSection, RetrySection, SettleSection, FinalizeSection, RetainedSection, DrainSection,
         SameHandoff, Inv, InFlight;
    match a
    case DoReserve(r, lease, healthy) =>
      KeysOf(b, owns, stranded);
      ReserveLeavesOthers(b, r, lease, healthy, x);
    case DoPrepare(r, env, lease, healthy) =>
      KeysOf(b, owns, stranded);
      PrepareLeavesOthers(b, r, env, lease, healthy, x);
    case DoComplete(env, id, fault) => DeleteLeavesOthers(b, env, id, fault, x);
    case DoRetry(env, fault) => RetryLeavesOthers(b, env, fault, x);
    case DoSettle(id, healthy) =>
      KeysOf(b, owns, stranded);
      SettleLeavesOthers(b, id, healthy, x, owns);
    case CloseDone => CloseLeavesOthers(b, a, x, owns, stranded);
    case DrainEntry(_) => CloseLeavesOthers(b, a, x, owns, stranded);
    case _ => QuietLeavesOthers(b, a, x);
  }

  lemma RetryLeavesOthers(b: Bus, env: nat, fault: Fault, x: string)
    requires b.holder.Free? && x !in Subjects(b, DoRetry(env, fault))
    ensures SameHandoff(b, RetrySection(b, env, fault), x)
  {
  }

  lemma KeysOf(b: Bus, owns: map<nat, string>, stranded: set<string>)
    requires Inv(b, owns, stranded)
    ensures WellKeyed(b.rows) && LeasesOwned(b, owns)
  {
  }

  lemma ReserveLeavesOthers(b: Bus, r: Row, lease: Option<nat>, healthy: bool, x: string)
    requires WellKeyed(b.rows) && (lease != None ==> lease.value !in b.leases) && x != r.id
    ensures SameHandoff(b, ReserveSection(b, r, lease, healthy).0, x)
  {
    ReserveAnswers(b, r, lease, healthy);
    hide ReserveSection, WellKeyed, Unseen, Proper;
  }

  lemma QuietLeavesOthers(b: Bus, a: Action, x: string)
    requires Enabled(b, a) && x !in Subjects(b, a)
    requires a.DoRetain? || a.CloseFailed? || a.DoDefer? || a.Claim? || a.Unclaim? || a.CloseBus? || a.DrainStart? || a.DrainEnd?
    ensures SameHandoff(b, Step(b, a), x)
  {
  }

  /** Sections that find nothing of theirs change nothing: an envelope that does not hold the
      handoff cannot complete or retain it, a bound one is neither deferred nor settled, and
      nothing is settled without its row. */
  lemma NothingToDo(b: Bus, env: nat, id: string, fault: Fault, healthy: bool)
    requires Inverse(b) && b.holder.Free?
    ensures !(env in b.handoffs && b.handoffs[env] == id) ==> CompleteSection(b, env, id, fault) == b
    ensures env !in b.handoffs ==> RetainSection(b, env) == b
    ensures env in b.handoffs ==> RetainSection(b, env) == b.(holder := Retaining(env, b.handoffs[env]))
    ensures id in b.handoffs.Values ==> DeferSection(b, id) == b && SettleSection(b, id, healthy) == b
    ensures id !in b.admissions ==> DeferSection(b, id) == b
    ensures id !in b.rows || !healthy ==> SettleSection(b, id, healthy) == b
  {
  }

  /** Main result: a retained message keeps its row and its lease and is free again: no
      envelope holds it, and recovery may claim it at once, whether or not an earlier scan
      claimed it before. */
  lemma RetainedIsFree(b: Bus, env: nat, owns: map<nat, string>, stranded: set<string>)
    requires Inv(b, owns, stranded) && b.holder.Free? && env in b.handoffs
    ensures var id := b.handoffs[env];
            var c := Step(Step(b, DoRetain(env)), CloseDone);
            && c.holder.Free? && c.rows == b.rows && c.leases == b.leases && c.handoffs == b.handoffs - {env}
            && c.admissions == b.admissions[id := Admission(b.admissions[id].lease, None, false, true)]
            && c.claimed == b.claimed - {id}
            && (id in b.rows ==> Enabled(c, Claim({id})))
  {
    NothingToDo(b, env, b.handoffs[env], Healthy, true);
    hide LeasesOwned, RowsKept, WellKeyed;
  }
}
