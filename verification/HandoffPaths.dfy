/** What becomes of one handoff: the courses of steps a message can take through the bus,
    from its reservation to its end, on any bus and whatever else the bus holds. */
module HandoffPaths {
  import opened Handoff
  import opened InboundStore
  import opened Wrappers

  /** The state after a list of steps, if they are possible one after the other. */
  ghost function After(b: Bus, acts: seq<Action>): Option<Bus>
    decreases |acts|
  {
    if acts == [] then Some(b)
    else
      var c := After(b, acts[..|acts| - 1]);
      var a := acts[|acts| - 1];
      if c == None || !Enabled(c.value, a) then None else Some(Step(c.value, a))
  }

  lemma Then(b: Bus, acts: seq<Action>, c: Bus, a: Action)
    requires After(b, acts) == Some(c) && Enabled(c, a)
    ensures After(b, acts + [a]) == Some(Step(c, a))
  {
    assert (acts + [a])[..|acts|] == acts;
  }

  /** A message nobody has seen, with a lease and an envelope nobody uses. */
  ghost predicate New(b: Bus, r: Row, lease: nat, env: nat) {
    && WellKeyed(b.rows) && b.holder.Free? && !b.closed
    && Complete(r) && r.id !in b.rows && !HasDedupe(b.rows, r.identity.dedupe)
    && r.id !in b.admissions && r.id !in b.claimed && r.id !in b.handoffs.Values
    && lease !in b.leases && env !in b.handoffs
  }

  /** The bus while the message is held: bound to an envelope, or waiting for one. */
  function Holding(b: Bus, r: Row, a: Admission, claimed: bool): Bus {
    b.(rows := b.rows[r.id := r], leases := b.leases[a.lease := r.identity.session],
       admissions := b.admissions[r.id := a],
       handoffs := if a.envelope == None then b.handoffs else b.handoffs[a.envelope.value := r.id],
       claimed := if claimed then b.claimed + {r.id} else b.claimed)
  }

  lemma KnownRow(b: Bus, r: Row, lease: nat, env: nat)
    requires New(b, r, lease, env)
    ensures Reserve(b.rows, r) == Created && Reserve(b.rows[r.id := r], r) == Existing(r.id)
    ensures WellKeyed(b.rows[r.id := r])
  {
    var rows := b.rows[r.id := r];
    assert rows[r.id] == r;
  }

  lemma ReserveHolds(b: Bus, r: Row, lease: nat, env: nat)
    requires New(b, r, lease, env)
    ensures Enabled(b, DoReserve(r, Some(lease), true))
    ensures Step(b, DoReserve(r, Some(lease), true)) == Holding(b, r, Admission(lease, None, false, false), false)
  {
    KnownRow(b, r, lease, env);
    hide Reserve;
  }

  /** Binding works from any unbound state of the message, and the lease offered is not taken. */
  lemma PrepareHolds(b: Bus, r: Row, lease: nat, env: nat, recoverable: bool, claimed: bool)
    requires New(b, r, lease, env)
    ensures var c := Holding(b, r, Admission(lease, None, false, recoverable), claimed);
            Enabled(c, DoPrepare(r, env, None, true)) &&
            Step(c, DoPrepare(r, env, None, true)) == Holding(b, r, Admission(lease, Some(env), false, false), claimed)
  {
    KnownRow(b, r, lease, env);
    var a := Admission(lease, None, false, recoverable);
    assert b.admissions[r.id := a][r.id := a.(envelope := Some(env), recoverable := false)] ==
           b.admissions[r.id := a.(envelope := Some(env), recoverable := false)];
    hide Reserve;
  }

  lemma DeleteAndRelease(b: Bus, r: Row, lease: nat, env: nat, claimed: bool, pending: bool)
    requires New(b, r, lease, env)
    ensures var c := Holding(b, r, Admission(lease, Some(env), pending, false), claimed);
            FinalizeSection(c.(rows := c.rows - {r.id}, holder := Finalizing(env, r.id)), env, r.id) == b
  {
    var c := Holding(b, r, Admission(lease, Some(env), pending, false), claimed);
    assert c.rows - {r.id} == b.rows;
    assert c.leases - {lease} == b.leases;
    assert c.admissions - {r.id} == b.admissions;
    assert c.handoffs - {env} == b.handoffs;
    assert c.claimed - {r.id} == b.claimed;
  }

  /** Taking a message to its end from any state in which an envelope holds it. */
  lemma EndsFrom(start: Bus, b: Bus, r: Row, lease: nat, env: nat, claimed: bool, acts: seq<Action>)
    requires New(b, r, lease, env)
    requires After(start, acts) == Some(Holding(b, r, Admission(lease, Some(env), false, false), claimed))
    ensures After(start, acts + [DoComplete(env, r.id, Healthy), CloseDone]) == Some(b)
  {
    var c := Holding(b, r, Admission(lease, Some(env), false, false), claimed);
    var d := c.(rows := c.rows - {r.id}, holder := Finalizing(env, r.id));
    hide After;
    Then(start, acts, c, DoComplete(env, r.id, Healthy));
    assert Step(c, DoComplete(env, r.id, Healthy)) == d;
    Then(start, acts + [DoComplete(env, r.id, Healthy)], d, CloseDone);
    assert acts + [DoComplete(env, r.id, Healthy), CloseDone] == acts + [DoComplete(env, r.id, Healthy)] + [CloseDone];
    DeleteAndRelease(b, r, lease, env, claimed, false);
  }

  /** Main result: reserve, prepare, complete and close leave the bus exactly as it was: no
      row, lease, admission, binding or claim of the message stays behind. */
  lemma HandledLeavesNoTrace(b: Bus, r: Row, lease: nat, env: nat)
    requires New(b, r, lease, env)
    ensures After(b, [DoReserve(r, Some(lease), true), DoPrepare(r, env, None, true),
                      DoComplete(env, r.id, Healthy), CloseDone]) == Some(b)
  {
    var acts := ToEnvelope(b, r, lease, env);
    EndsFrom(b, b, r, lease, env, false, acts);
    assert acts + [DoComplete(env, r.id, Healthy), CloseDone] ==
           [DoReserve(r, Some(lease), true), DoPrepare(r, env, None, true), DoComplete(env, r.id, Healthy), CloseDone];
  }

  lemma ToEnvelope(b: Bus, r: Row, lease: nat, env: nat) returns (acts: seq<Action>)
    requires New(b, r, lease, env)
    ensures acts == [DoReserve(r, Some(lease), true), DoPrepare(r, env, None, true)]
    ensures After(b, acts) == Some(Holding(b, r, Admission(lease, Some(env), false, false), false))
  {
    ReserveHolds(b, r, lease, env);
    PrepareHolds(b, r, lease, env, false, false);
    hide Step, Enabled, Holding;
    Then(b, [], b, DoReserve(r, Some(lease), true));
    assert [] + [DoReserve(r, Some(lease), true)] == [DoReserve(r, Some(lease), true)];
    Then(b, [DoReserve(r, Some(lease), true)], Holding(b, r, Admission(lease, None, false, false), false),
         DoPrepare(r, env, None, true));
    acts := [DoReserve(r, Some(lease), true)] + [DoPrepare(r, env, None, true)];
  }

  /** Two steps in a row. */
  lemma ThenTwo(b: Bus, acts: seq<Action>, c: Bus, x: Action, d: Bus, y: Action)
    requires After(b, acts) == Some(c) && Enabled(c, x) && Step(c, x) == d && Enabled(d, y)
    ensures After(b, acts + [x, y]) == Some(Step(d, y))
  {
    hide Step, Enabled;
    Then(b, acts, c, x);
    Then(b, acts + [x], d, y);
    assert acts + [x, y] == acts + [x] + [y];
  }

  /** A failing delete, and what completing and retrying do after it. */
  lemma PendingSections(b: Bus, r: Row, lease: nat, env: nat)
    requires New(b, r, lease, env)
    ensures var c := Holding(b, r, Admission(lease, Some(env), false, false), false);
            var d := Holding(b, r, Admission(lease, Some(env), true, false), false);
            CompleteSection(c, env, r.id, OsError) == d && CompleteSection(d, env, r.id, Healthy) == d &&
            RetrySection(d, env, OsError) == d && c.holder.Free? && d.holder.Free? &&
            RetrySection(d, env, Healthy) == d.(rows := d.rows - {r.id}, holder := Finalizing(env, r.id))
  {
    var c := Holding(b, r, Admission(lease, Some(env), false, false), false);
    var d := Holding(b, r, Admission(lease, Some(env), true, false), false);
    assert c.admissions[r.id := d.admissions[r.id]] == d.admissions;
  }

  /** A delete that fails for now is not forgotten: the row and the lease stay, completing
      again changes nothing, and the retry ends the message without a trace. */
  lemma FailedDeleteIsRetried(b: Bus, r: Row, lease: nat, env: nat)
    requires New(b, r, lease, env)
    ensures var held := [DoReserve(r, Some(lease), true), DoPrepare(r, env, None, true), DoComplete(env, r.id, OsError)];
            After(b, held) == Some(Holding(b, r, Admission(lease, Some(env), true, false), false)) &&
            After(b, held + [DoComplete(env, r.id, Healthy)]) == After(b, held) &&
            After(b, held + [DoRetry(env, OsError)]) == After(b, held) &&
            After(b, held + [DoRetry(env, Healthy), CloseDone]) == Some(b)
  {
    var acts := ToEnvelope(b, r, lease, env);
    var c := Holding(b, r, Admission(lease, Some(env), false, false), false);
    var d := Holding(b, r, Admission(lease, Some(env), true, false), false);
    PendingSections(b, r, lease, env);
    DeleteAndRelease(b, r, lease, env, false, true);
    hide New, Holding, CompleteSection, RetrySection, FinalizeSection, After;
    Then(b, acts, c, DoComplete(env, r.id, OsError));
    var held := acts + [DoComplete(env, r.id, OsError)];
    Then(b, held, d, DoComplete(env, r.id, Healthy));
    Then(b, held, d, DoRetry(env, OsError));
    var e := d.(rows := d.rows - {r.id}, holder := Finalizing(env, r.id));
    ThenTwo(b, held, d, DoRetry(env, Healthy), e, CloseDone);
    assert Step(e, CloseDone) == b;
    assert held == [DoReserve(r, Some(lease), true), DoPrepare(r, env, None, true), DoComplete(env, r.id, OsError)];
  }

  // ---------------------------------------------------------------------------
  // Recovery
  // ---------------------------------------------------------------------------

  /** Recovery may claim the message, and with the claim a new envelope takes it to its end. */
  lemma RecoveredFrom(b: Bus, r: Row, lease: nat, env: nat, acts: seq<Action>)
    requires New(b, r, lease, env)
    requires After(b, acts) == Some(Holding(b, r, Admission(lease, None, false, true), false))
    ensures After(b, acts + [Claim({r.id}), DoPrepare(r, env, None, true), DoComplete(env, r.id, Healthy), CloseDone]) == Some(b)
  {
    var c := Holding(b, r, Admission(lease, None, false, true), false);
    var d := Holding(b, r, Admission(lease, None, false, true), true);
    assert Enabled(c, Claim({r.id})) && Step(c, Claim({r.id})) == d;
    PrepareHolds(b, r, lease, env, true, true);
    hide Step, Enabled, Holding, After;
    var more := acts + [Claim({r.id}), DoPrepare(r, env, None, true)];
    ThenTwo(b, acts, c, Claim({r.id}), d, DoPrepare(r, env, None, true));
    EndsFrom(b, b, r, lease, env, true, more);
    assert acts + [Claim({r.id}), DoPrepare(r, env, None, true), DoComplete(env, r.id, Healthy), CloseDone] ==
           more + [DoComplete(env, r.id, Healthy), CloseDone];
  }

  lemma RetainSections(b: Bus, r: Row, lease: nat, env: nat, pending: bool)
    requires New(b, r, lease, env)
    ensures var c := Holding(b, r, Admission(lease, Some(env), pending, false), false);
            RetainSection(c, env) == c.(holder := Retaining(env, r.id)) && c.holder.Free? &&
            RetainedSection(c.(holder := Retaining(env, r.id)), env, r.id) ==
            Holding(b, r, Admission(lease, None, false, true), false)
  {
    var c := Holding(b, r, Admission(lease, Some(env), pending, false), false);
    var d := Holding(b, r, Admission(lease, None, false, true), false);
    assert c.admissions[r.id := d.admissions[r.id]] == d.admissions;
    assert c.handoffs - {env} == b.handoffs && c.claimed - {r.id} == b.claimed;
  }

  /** Main result: a retained message, also one whose delete had failed, keeps its row and
      its lease, and recovery takes it to its end under a new envelope without a trace. */
  lemma RetainedIsRecovered(b: Bus, r: Row, lease: nat, env: nat, next: nat, fails: bool)
    requires New(b, r, lease, env) && New(b, r, lease, next)
    ensures After(b, [DoReserve(r, Some(lease), true), DoPrepare(r, env, None, true)] +
                     (if fails then [DoComplete(env, r.id, OsError)] else []) + [DoRetain(env), CloseDone] +
                     [Claim({r.id}), DoPrepare(r, next, None, true), DoComplete(next, r.id, Healthy), CloseDone]) == Some(b)
  {
    var acts := ToEnvelope(b, r, lease, env);
    var c := Holding(b, r, Admission(lease, Some(env), fails, false), false);
    PendingSections(b, r, lease, env);
    RetainSections(b, r, lease, env, fails);
    var held := acts + (if fails then [DoComplete(env, r.id, OsError)] else []);
    hide New, Holding, CompleteSection, RetainSection, RetainedSection, After;
    if fails {
      Then(b, acts, Holding(b, r, Admission(lease, Some(env), false, false), false), DoComplete(env, r.id, OsError));
    } else {
      assert held == acts;
    }
    ThenTwo(b, held, c, DoRetain(env), c.(holder := Retaining(env, r.id)), CloseDone);
    RecoveredFrom(b, r, lease, next, held + [DoRetain(env), CloseDone]);
  }

  lemma DeferSections(b: Bus, r: Row, lease: nat, env: nat, claimed: bool)
    requires New(b, r, lease, env)
    ensures DeferSection(Holding(b, r, Admission(lease, None, false, claimed), claimed), r.id) ==
            Holding(b, r, Admission(lease, None, false, true), false)
  {
    var c := Holding(b, r, Admission(lease, None, false, claimed), claimed);
    var d := Holding(b, r, Admission(lease, None, false, true), false);
    assert c.admissions[r.id := d.admissions[r.id]] == d.admissions;
    assert c.claimed - {r.id} == b.claimed;
  }

  /** A message is claimed only after it was deferred; deferring gives a claim back, and the
      next claim takes the message to its end. */
  lemma DeferredIsRecovered(b: Bus, r: Row, lease: nat, env: nat)
    requires New(b, r, lease, env)
    ensures After(b, [DoReserve(r, Some(lease), true), Claim({r.id})]) == None
    ensures After(b, [DoReserve(r, Some(lease), true), DoDefer(r.id), Claim({r.id}), DoDefer(r.id)] +
                     [Claim({r.id}), DoPrepare(r, env, None, true), DoComplete(env, r.id, Healthy), CloseDone]) == Some(b)
  {
    var one := [DoReserve(r, Some(lease), true)];
    ReserveHolds(b, r, lease, env);
    Then(b, [], b, one[0]);
    assert [] + one == one;
    var c := Holding(b, r, Admission(lease, None, false, false), false);
    var d := Holding(b, r, Admission(lease, None, false, true), false);
    var e := Holding(b, r, Admission(lease, None, false, true), true);
    assert c.admissions[r.id] == Admission(lease, None, false, false) && r.id in InFlight(c);
    assert [one[0], Claim({r.id})][..1] == one;
    assert After(b, [one[0], Claim({r.id})]) == None;
    DeferSections(b, r, lease, env, false);
    DeferSections(b, r, lease, env, true);
    assert c.holder.Free? && d.holder.Free? && e.holder.Free?;
    assert Enabled(d, Claim({r.id})) && Step(d, Claim({r.id})) == e;
    hide New, Holding, DeferSection, After, InFlight;
    ThenTwo(b, one, c, DoDefer(r.id), d, Claim({r.id}));
    Then(b, one + [DoDefer(r.id), Claim({r.id})], e, DoDefer(r.id));
    var acts := one + [DoDefer(r.id), Claim({r.id})] + [DoDefer(r.id)];
    assert acts == [DoReserve(r, Some(lease), true), DoDefer(r.id), Claim({r.id}), DoDefer(r.id)];
    RecoveredFrom(b, r, lease, env, acts);
  }

  /** After a crash only the row is left; recovery claims it with a new lease. */
  lemma RebootSections(b: Bus, r: Row, lease: nat, env: nat, held: Bus)
    requires New(Reboot(b), r, lease, env) && held.rows == b.rows[r.id := r]
    ensures var c := Step(held, Crash);
            Enabled(held, Crash) && Enabled(c, Claim({r.id})) && Enabled(Step(c, Claim({r.id})), DoPrepare(r, env, Some(lease), true)) &&
            Step(Step(c, Claim({r.id})), DoPrepare(r, env, Some(lease), true)) ==
            Holding(Reboot(b), r, Admission(lease, Some(env), false, false), true)
  {
    KnownRow(Reboot(b), r, lease, env);
    hide Reserve;
    var c := Step(held, Crash);
    assert InFlight(c) == {};
    var a := Admission(lease, None, false, false);
    assert c.admissions[r.id := a][r.id := a.(envelope := Some(env))] == c.admissions[r.id := a.(envelope := Some(env))];
  }

  /** Main result: a crash at any time before the delete loses nothing.  The next process
      finds the row, claims it, and takes the message to its end; only what memory held of
      other messages is gone. */
  lemma CrashedIsRecovered(b: Bus, r: Row, lease: nat, env: nat, bound: bool, lease': nat, env': nat)
    requires New(b, r, lease, env)
    ensures After(b, [DoReserve(r, Some(lease), true)] + (if bound then [DoPrepare(r, env, None, true)] else []) +
                     [Crash, Claim({r.id})] + [DoPrepare(r, env', Some(lease'), true)] +
                     [DoComplete(env', r.id, Healthy), CloseDone]) == Some(Reboot(b))
  {
    hide Holding, After, Step, Enabled, Reboot, New;
    var acts, held := ToHeld(b, r, lease, env, bound);
    NewAfterReboot(b, r, lease, env, lease', env');
    RebootSections(b, r, lease', env', held);
    var c := Step(held, Crash);
    var d := Step(c, Claim({r.id}));
    ThenTwo(b, acts, held, Crash, c, Claim({r.id}));
    Then(b, acts + [Crash, Claim({r.id})], d, DoPrepare(r, env', Some(lease'), true));
    EndsFrom(b, Reboot(b), r, lease', env', true, acts + [Crash, Claim({r.id})] + [DoPrepare(r, env', Some(lease'), true)]);
  }

  lemma NewAfterReboot(b: Bus, r: Row, lease: nat, env: nat, lease': nat, env': nat)
    requires New(b, r, lease, env)
    ensures New(Reboot(b), r, lease', env')
  {
  }

  lemma ToHeld(b: Bus, r: Row, lease: nat, env: nat, bound: bool) returns (acts: seq<Action>, held: Bus)
    requires New(b, r, lease, env)
    ensures acts == [DoReserve(r, Some(lease), true)] + (if bound then [DoPrepare(r, env, None, true)] else [])
    ensures After(b, acts) == Some(held) && held.rows == b.rows[r.id := r]
  {
    var one := [DoReserve(r, Some(lease), true)];
    held := Holding(b, r, Admission(lease, if bound then Some(env) else None, false, false), false);
    if bound {
      acts := ToEnvelope(b, r, lease, env);
      hide After;
      assert acts == one + [DoPrepare(r, env, None, true)];
    } else {
      ReserveHolds(b, r, lease, env);
      Then(b, [], b, one[0]);
      hide Step, Enabled;
      acts := one;
      assert [] + one == one == one + [];
    }
  }

  // ---------------------------------------------------------------------------
  // Rejection and failures
  // ---------------------------------------------------------------------------

  lemma SettleSections(b: Bus, r: Row, lease: nat, env: nat, claimed: bool)
    requires New(b, r, lease, env)
    ensures var c := Holding(b, r, Admission(lease, None, false, claimed), claimed);
            c.holder.Free? && SettleSection(c, r.id, true) == b && SettleSection(c, r.id, false) == c
    ensures var d := Holding(b, r, Admission(lease, Some(env), false, false), claimed);
            d.holder.Free? && SettleSection(d, r.id, true) == d
  {
    var c := Holding(b, r, Admission(lease, None, false, claimed), claimed);
    assert c.rows - {r.id} == b.rows && c.leases - {lease} == b.leases && c.admissions - {r.id} == b.admissions;
    assert c.claimed - {r.id} == b.claimed;
  }

  /** Settling a rejected message leaves no trace of it, a failing store keeps it, and a
      message that an envelope holds is not settled. */
  lemma SettledLeavesNoTrace(b: Bus, r: Row, lease: nat, env: nat)
    requires New(b, r, lease, env)
    ensures var one, two := [DoReserve(r, Some(lease), true)], [DoReserve(r, Some(lease), true), DoPrepare(r, env, None, true)];
            After(b, one + [DoSettle(r.id, true)]) == Some(b) &&
            After(b, one + [DoSettle(r.id, false)]) == After(b, one) != None &&
            After(b, two + [DoSettle(r.id, true)]) == After(b, two) != None
  {
    var one, c := ToHeld(b, r, lease, env, false);
    var two := ToEnvelope(b, r, lease, env);
    ReserveHolds(b, r, lease, env);
    SettleSections(b, r, lease, env, false);
    hide New, Holding, SettleSection;
    assert After(b, []) == Some(b);
    assert one == [] + [DoReserve(r, Some(lease), true)];
    hide After;
    Then(b, [], b, DoReserve(r, Some(lease), true));
    Then(b, one, c, DoSettle(r.id, true));
    Then(b, one, c, DoSettle(r.id, false));
    Then(b, two, Holding(b, r, Admission(lease, Some(env), false, false), false), DoSettle(r.id, true));
    assert one == [DoReserve(r, Some(lease), true)];
  }

  /** Every attempt to delete a bound message has one outcome: it goes on to the close, it
      is marked for another attempt, or the bus stops; a retry that has nothing to do, or an
      envelope that holds nothing, stops the bus too. */
  lemma DeletesAreAccountedFor(b: Bus, env: nat, id: string, fault: Fault)
    requires Inverse(b) && b.holder.Free? && !b.fatal
    requires env in b.handoffs && b.handoffs[env] == id
    ensures var c := if b.admissions[id].cleanupPending then RetrySection(b, env, fault) else CompleteSection(b, env, id, fault);
            && (c.fatal <==> fault == Broken || (fault == Healthy && id !in b.rows))
            && (c.holder.Finalizing? <==> fault == Healthy && id in b.rows)
            && (c.holder.Finalizing? ==> c == b.(rows := b.rows - {id}, holder := Finalizing(env, id)))
            && (!c.holder.Finalizing? ==> c.rows == b.rows && c.handoffs == b.handoffs && c.leases == b.leases)
            && (fault == OsError ==> id in c.admissions && c.admissions[id] == b.admissions[id].(cleanupPending := true))
    ensures !b.admissions[id].cleanupPending ==> RetrySection(b, env, fault) == b.(fatal := true)
    ensures b.admissions[id].cleanupPending ==> CompleteSection(b, env, id, fault) == b
    ensures forall e: nat :: e !in b.handoffs ==> RetrySection(b, e, fault) == b.(fatal := true)
  {
  }

  /** A message for a session that is gone but has to exist is refused without a trace; any
      other new message is taken. */
  lemma GoneSessionIsRefused(b: Bus, r: Row, lease: nat, env: nat, known: bool, requireExisting: bool)
    requires New(b, r, lease, env)
    ensures var offered := LeaseFor(known, requireExisting, lease);
            if requireExisting && !known then
              ReserveSection(b, r, offered, true) == (b, Raised) && PrepareSection(b, r, env, offered, true) == (b, Raised)
            else
              ReserveSection(b, r, offered, true).1 == Accepted && PrepareSection(b, r, env, offered, true).1 == Accepted
  {
    KnownRow(b, r, lease, env);
    hide Reserve;
  }

  // ---------------------------------------------------------------------------
  // Claims and shutdown
  // ---------------------------------------------------------------------------

  /** A scan that fails gives its claims back, and nothing else has changed. */
  lemma ClaimsAreGivenBack(b: Bus, ids: set<string>)
    requires Enabled(b, Claim(ids))
    ensures After(b, [Claim(ids), Unclaim(ids)]) == Some(b)
  {
    var c := b.(claimed := b.claimed + ids);
    assert c.claimed - ids == b.claimed;
    ThenTwo(b, [], b, Claim(ids), c, Unclaim(ids));
    assert [] + [Claim(ids), Unclaim(ids)] == [Claim(ids), Unclaim(ids)];
  }

  lemma {:induction false} DrainPath(b: Bus, acts: seq<Action>, c: Bus, owns: map<nat, string>, stranded: set<string>)
    returns (more: seq<Action>, d: Bus, w: map<nat, string>)
    requires After(b, acts) == Some(c) && c.holder.Draining? && Inv(c, owns, stranded)
    ensures After(b, acts + more) == Some(d) && Inv(d, w, stranded) && d.holder.Draining? && d.admissions == map[]
    ensures d.rows == c.rows && d.closed == c.closed && d.claimed == c.claimed - c.admissions.Keys
    decreases c.admissions.Keys
  {
    hide Inv, DrainSection, After;
    if c.admissions == map[] {
      more, d, w := [], c, owns;
      assert acts + [] == acts && c.claimed - c.admissions.Keys == c.claimed;
    } else {
      var id :| id in c.admissions;
      var next := DrainSection(c, id);
      var v := DrainKeepsInv(c, id, owns, stranded);
      DrainRemoves(c, id);
      Then(b, acts, c, DrainEntry(id));
      more, d, w := DrainPath(b, acts + [DrainEntry(id)], next, v, stranded);
      assert acts + ([DrainEntry(id)] + more) == acts + [DrainEntry(id)] + more;
      more := [DrainEntry(id)] + more;
      assert c.claimed - {id} - (c.admissions.Keys - {id}) == c.claimed - c.admissions.Keys;
    }
  }

  lemma DrainRemoves(b: Bus, id: string)
    requires id in b.admissions
    ensures var c := DrainSection(b, id);
            && c.rows == b.rows && c.closed == b.closed && c.holder == b.holder && c.claimed == b.claimed - {id}
            && c.admissions.Keys == b.admissions.Keys - {id}
  {
  }

  /** Main result: closing the bus and draining it is always possible.  It ends with no
      admission, lease, binding or claim of an admitted message left, every row stays for
      the next process, and no message is taken any more. */
  lemma ShutdownDrains(b: Bus, owns: map<nat, string>, stranded: set<string>) returns (acts: seq<Action>, d: Bus)
    requires Inv(b, owns, stranded) && b.holder.Free?
    ensures After(b, acts) == Some(d) && d.closed && d.holder.Free?
    ensures d.rows == b.rows && d.leases == map[] && d.handoffs == map[] && d.admissions == map[]
    ensures d.claimed == b.claimed - b.admissions.Keys
    ensures forall r: Row, lease: Option<nat>, healthy: bool :: ReserveSection(d, r, lease, healthy).0 == d
    ensures forall r: Row, env: nat, lease: Option<nat>, healthy: bool :: PrepareSection(d, r, env, lease, healthy).0 == d
  {
    hide ReserveSection, PrepareSection;
    var c := b.(closed := true);
    var e := b.(closed := true, holder := Draining);
    ThenTwo(b, [], b, CloseBus, c, DrainStart);
    assert [] + [CloseBus, DrainStart] == [CloseBus, DrainStart];
    var more, f, w := DrainPath(b, [CloseBus, DrainStart], e, owns, stranded);
    Then(b, [CloseBus, DrainStart] + more, f, DrainEnd);
    acts, d := [CloseBus, DrainStart] + more + [DrainEnd], f.(holder := Free);
    hide After, Enabled;
    NothingOwned(f, w, stranded);
    ClosedTakesNothing(d);
  }

  lemma ClosedTakesNothing(b: Bus)
    requires b.closed
    ensures forall r: Row, lease: Option<nat>, healthy: bool :: ReserveSection(b, r, lease, healthy).0 == b
    ensures forall r: Row, env: nat, lease: Option<nat>, healthy: bool :: PrepareSection(b, r, env, lease, healthy).0 == b
  {
  }

  lemma NothingOwned(b: Bus, owns: map<nat, string>, stranded: set<string>)
    requires Inv(b, owns, stranded) && b.admissions == map[]
    ensures b.leases == map[] && b.handoffs == map[]
  {
  }
}
