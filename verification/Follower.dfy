/** Followers of a session: they subscribe before they read, and sleep only until the
    next wakeup.

    A commit and the scheduling of its wakeups happen under the log's lock; the scheduled
    wakeup runs later, in the follower's event loop.  Everything else may interleave. */
module Follower {
  import opened Wrappers
  import opened Readers

  const BATCH := 1000

  datatype Pc = Clearing | Reading | Yielding(batch: seq<Row>) | Waiting | Parked | Gone

  /** `flag` is the follower's event, `scheduled` the wakeups on their way to it. */
  datatype Task = Task(start: int, after: int, pc: Pc, flag: bool, scheduled: nat, yielded: seq<Row>)

  datatype Sys = Sys(rows: seq<Row>, closed: bool, tasks: map<nat, Task>)

  const NOBODY := Sys([], false, map[])

  // ---------------------------------------------------------------------------
  // Sections
  // ---------------------------------------------------------------------------

  function Fresh(start: int): Task {
    Task(start, start, Clearing, false, 0, [])
  }

  /** One read under the lock. */
  function ReadTask(t: Task, rows: seq<Row>, closed: bool): Task {
    if closed || t.after < -1 then t.(pc := Gone)
    else
      var batch := First(Range(rows, t.after, Head(rows)), BATCH);
      t.(pc := if batch == [] then Waiting else Yielding(batch))
  }

  function YieldTask(t: Task): Task
    requires t.pc.Yielding? && t.pc.batch != []
  {
    var m, rest := t.pc.batch[0], t.pc.batch[1..];
    t.(after := m.seqNo, yielded := t.yielded + [m], pc := if rest == [] then Clearing else Yielding(rest))
  }

  /** Schedules a wakeup for everyone who is still subscribed. */
  function Notified(tasks: map<nat, Task>): map<nat, Task> {
    map f | f in tasks :: if tasks[f].pc == Gone then tasks[f] else tasks[f].(scheduled := tasks[f].scheduled + 1)
  }

  // ---------------------------------------------------------------------------
  // The log with its followers
  // ---------------------------------------------------------------------------

  class FollowedLog {
    var rows: seq<Row>
    var closed: bool
    var tasks: map<nat, Task>

    ghost function View(): Sys
      reads this
    {
      Sys(rows, closed, tasks)
    }

    constructor ()
      ensures View() == NOBODY
    {
      rows, closed, tasks := [], false, map[];
    }

    method NotifyAll()
      modifies this`tasks
      ensures tasks == Notified(old(tasks))
    {
      var rest := tasks.Keys;
      while rest != {}
        invariant rest <= tasks.Keys
        invariant tasks == map f | f in old(tasks) ::
            if f in rest || old(tasks[f]).pc == Gone then old(tasks[f])
            else old(tasks[f]).(scheduled := old(tasks[f]).scheduled + 1)
        decreases rest
      {
        var f :| f in rest;
        if tasks[f].pc != Gone {
          tasks := tasks[f := tasks[f].(scheduled := tasks[f].scheduled + 1)];
        }
        rest := rest - {f};
      }
    }

    method CommitRows(added: seq<Row>)
      modifies this
      ensures View() == Sys(old(rows) + added, old(closed), Notified(old(tasks)))
    {
      rows := rows + added;
      NotifyAll();
    }

    method Close()
      modifies this
      ensures View() == if old(closed) then old(View()) else Sys(old(rows), true, Notified(old(tasks)))
    {
      if closed {
        return;
      }
      closed := true;
      NotifyAll();
    }

    method ReadBatch(f: nat)
      requires f in tasks
      modifies this`tasks
      ensures tasks == old(tasks)[f := ReadTask(old(tasks[f]), rows, closed)]
    {
      var t := tasks[f];
      if closed || t.after < -1 {
        tasks := tasks[f := t.(pc := Gone)];
        return;
      }
      var batch := First(Range(rows, t.after, Head(rows)), BATCH);
      tasks := tasks[f := t.(pc := if batch == [] then Waiting else Yielding(batch))];
    }
  }

  // ---------------------------------------------------------------------------
  // Steps
  // ---------------------------------------------------------------------------

  datatype Action =
    | Subscribe(f: nat, start: int)
    | Clear(f: nat)
    | DoRead(f: nat)
    | DoYield(f: nat)
    | DoWait(f: nat)
    | Wake(f: nat)
    | RunSet(f: nat)
    | Cancel(f: nat)
    | Commit(added: seq<Row>)
    | CloseLog

  /** Commits append, as the message log does. */
  ghost predicate Enabled(s: Sys, a: Action) {
    match a
    case Subscribe(f, _) => f !in s.tasks
    case Clear(f) => f in s.tasks && s.tasks[f].pc == Clearing
    case DoRead(f) => f in s.tasks && s.tasks[f].pc == Reading
    case DoYield(f) => f in s.tasks && s.tasks[f].pc.Yielding? && s.tasks[f].pc.batch != []
    case DoWait(f) => f in s.tasks && s.tasks[f].pc == Waiting
    case Wake(f) => f in s.tasks && s.tasks[f].pc == Parked && s.tasks[f].flag
    case RunSet(f) => f in s.tasks && s.tasks[f].scheduled > 0
    case Cancel(f) => f in s.tasks
    case Commit(added) => !s.closed && Sorted(s.rows + added)
    case CloseLog => true
  }

  ghost function Step(s: Sys, a: Action): Sys
    requires Enabled(s, a)
  {
    match a
    case Subscribe(f, start) => if s.closed then s else s.(tasks := s.tasks[f := Fresh(start)])
    case Clear(f) => s.(tasks := s.tasks[f := s.tasks[f].(flag := false, pc := Reading)])
    case DoRead(f) => s.(tasks := s.tasks[f := ReadTask(s.tasks[f], s.rows, s.closed)])
    case DoYield(f) => s.(tasks := s.tasks[f := YieldTask(s.tasks[f])])
    case DoWait(f) => s.(tasks := s.tasks[f := s.tasks[f].(pc := if s.tasks[f].flag then Clearing else Parked)])
    case Wake(f) => s.(tasks := s.tasks[f := s.tasks[f].(pc := Clearing)])
    case RunSet(f) => s.(tasks := s.tasks[f := s.tasks[f].(flag := true, scheduled := s.tasks[f].scheduled - 1)])
    case Cancel(f) => s.(tasks := s.tasks[f := s.tasks[f].(pc := Gone)])
    case Commit(added) => Sys(s.rows + added, s.closed, Notified(s.tasks))
    case CloseLog => if s.closed then s else Sys(s.rows, true, Notified(s.tasks))
  }

  ghost predicate Moves(s: Sys, a: Action, t: Sys) {
    Enabled(s, a) && t == Step(s, a)
  }

  ghost predicate IsRun(states: seq<Sys>, acts: seq<Action>) {
    |states| == |acts| + 1 && states[0] == NOBODY && forall i :: 0 <= i < |acts| ==> Moves(states[i], acts[i], states[i + 1])
  }

  // ---------------------------------------------------------------------------
  // The invariant
  // ---------------------------------------------------------------------------

  predicate Pending(t: Task) {
    t.flag || t.scheduled > 0
  }

  /** A sleeper has nothing to do or a wakeup on its way, and what was yielded is the
      session up to the point reached. */
  predicate TaskFits(t: Task, rows: seq<Row>, closed: bool) {
    && (t.pc == Waiting || t.pc == Parked ==> Pending(t) || (!closed && Range(rows, t.after, Head(rows)) == []))
    && t.start <= t.after
    && (t.start == t.after || -1 <= t.start)
    && (t.pc.Yielding? || t.pc == Waiting || t.pc == Parked ==> -1 <= t.start)
    && (t.start == t.after || t.after <= Head(rows))
    && t.yielded == Range(rows, t.start, t.after)
    && (t.pc.Yielding? ==> BatchFits(t.pc.batch, t.after, rows))
  }

  /** The batch is what comes next. */
  predicate BatchFits(batch: seq<Row>, after: int, rows: seq<Row>) {
    && batch != []
    && batch[|batch| - 1].seqNo <= Head(rows)
    && after < batch[|batch| - 1].seqNo
    && batch == Range(rows, after, batch[|batch| - 1].seqNo)
  }

  ghost predicate Inv(s: Sys) {
    Sorted(s.rows) && forall f :: f in s.tasks ==> TaskFits(s.tasks[f], s.rows, s.closed)
  }

  lemma FreshFits(start: int, rows: seq<Row>, closed: bool)
    ensures TaskFits(Fresh(start), rows, closed)
  {
    RangeEmpty(rows, start);
  }

  lemma ReadFits(t: Task, rows: seq<Row>, closed: bool)
    requires Sorted(rows) && TaskFits(t, rows, closed) && t.pc == Reading
    ensures TaskFits(ReadTask(t, rows, closed), rows, closed)
  {
    hide Range, Sorted;
    var all := Range(rows, t.after, Head(rows));
    if all != [] {
      FirstOfRange(rows, t.after, Head(rows), if |all| <= BATCH then |all| else BATCH);
      assert all[..|all|] == all;
    }
  }

  lemma YieldFits(t: Task, rows: seq<Row>, closed: bool)
    requires Sorted(rows) && TaskFits(t, rows, closed) && t.pc.Yielding?
    ensures TaskFits(YieldTask(t), rows, closed)
  {
    hide Range, Sorted;
    var batch := t.pc.batch;
    var last, m: int := batch[|batch| - 1].seqNo, batch[0].seqNo;
    FirstOfRange(rows, t.after, last, 1);
    assert batch[..1] == [batch[0]];
    RangeSplits(rows, t.start, t.after, m);
    RangeSplits(rows, t.after, m, last);
    assert batch == [batch[0]] + batch[1..];
    if |batch| == 1 {
    } else {
      assert batch[1..] == Range(rows, m, last);
      LastBatch(rows, m, last, batch[1..]);
    }
  }

  lemma LastBatch(rows: seq<Row>, lo: int, hi: int, batch: seq<Row>)
    requires Sorted(rows) && batch == Range(rows, lo, hi) && batch != []
    ensures lo < batch[|batch| - 1].seqNo
  {
    hide Range, Sorted;
    FirstOfRange(rows, lo, hi, |batch|);
  }

  /** New rows, all beyond the head, disturb nobody who was notified. */
  lemma GrowthFits(t: Task, rows: seq<Row>, more: seq<Row>)
    requires Sorted(rows) && Sorted(more) && rows <= more && TaskFits(t, rows, false)
    ensures TaskFits(if t.pc == Gone then t else t.(scheduled := t.scheduled + 1), more, false)
  {
    hide Range, Sorted;
    HeadGrows(rows, more);
    if t.after == t.start {
      RangeEmpty(rows, t.start);
      RangeEmpty(more, t.start);
    } else {
      LongerSameRange(rows, more, t.start, t.after);
    }
    if t.pc.Yielding? {
      LongerSameRange(rows, more, t.after, t.pc.batch[|t.pc.batch| - 1].seqNo);
    }
  }

  lemma StepKeepsInv(s: Sys, a: Action)
    requires Inv(s) && Enabled(s, a)
    ensures Inv(Step(s, a))
  {
    hide Range, Sorted, BatchFits;
    match a
    case Subscribe(_, start) => FreshFits(start, s.rows, s.closed);
    case DoRead(f) =>
      hide TaskFits;
      ReadFits(s.tasks[f], s.rows, s.closed);
    case DoYield(f) =>
      hide TaskFits;
      YieldFits(s.tasks[f], s.rows, s.closed);
    case Commit(added) =>
      PrefixIsSorted(s.rows + added, |s.rows|);
      forall f | f in s.tasks
        ensures TaskFits(Notified(s.tasks)[f], s.rows + added, s.closed)
      {
        GrowthFits(s.tasks[f], s.rows, s.rows + added);
      }
    case CloseLog =>
    case _ =>
  }

  lemma {:induction false} RunsKeepInv(states: seq<Sys>, acts: seq<Action>, i: nat)
    requires IsRun(states, acts) && i < |states|
    ensures Inv(states[i])
  {
    if i > 0 {
      RunsKeepInv(states, acts, i - 1);
      assert Moves(states[i - 1], acts[i - 1], states[i - 1 + 1]);
      hide Step, Inv, Enabled;
      StepKeepsInv(states[i - 1], acts[i - 1]);
    }
  }

  /** Main result: in every interleaving a follower that sleeps while messages are unread,
      or while the log is closed, has its event set or a wakeup on its way. */
  lemma NoLostWakeup(states: seq<Sys>, acts: seq<Action>, i: nat, f: nat)
    requires IsRun(states, acts) && i < |states| && f in states[i].tasks
    requires var t := states[i].tasks[f];
             t.pc == Parked && (states[i].closed || Range(states[i].rows, t.after, Head(states[i].rows)) != [])
    ensures states[i].tasks[f].flag || states[i].tasks[f].scheduled > 0
  {
    RunsKeepInv(states, acts, i);
  }

  /** Main result: at every point what a follower has yielded is exactly the session's
      messages after its start and up to the point reached, each once and in order. */
  lemma YieldsSessionInOrder(states: seq<Sys>, acts: seq<Action>, i: nat, f: nat)
    requires IsRun(states, acts) && i < |states| && f in states[i].tasks
    ensures var t := states[i].tasks[f];
            t.yielded == Range(states[i].rows, t.start, t.after) && Sorted(t.yielded) &&
            forall r :: r in t.yielded <==> r in states[i].rows && t.start < r.seqNo <= t.after
  {
    hide IsRun, Range;
    RunsKeepInv(states, acts, i);
    RangeHolds(states[i].rows, states[i].tasks[f].start, states[i].tasks[f].after);
  }

  /** A follower that sleeps with no wakeup on its way has yielded the whole session. */
  lemma QuietFollowerIsUpToDate(states: seq<Sys>, acts: seq<Action>, i: nat, f: nat)
    requires IsRun(states, acts) && i < |states| && f in states[i].tasks
    requires states[i].tasks[f].pc == Parked && !Pending(states[i].tasks[f])
    ensures !states[i].closed
    ensures states[i].tasks[f].yielded == Range(states[i].rows, states[i].tasks[f].start, Head(states[i].rows))
  {
    RunsKeepInv(states, acts, i);
    var t, rows := states[i].tasks[f], states[i].rows;
    hide Range, Sorted, IsRun;
    if t.after <= Head(rows) {
      RangeSplits(rows, t.start, t.after, Head(rows));
      assert t.yielded + [] == t.yielded;
    } else {
      RangeEmpty(rows, t.start);
      RangeBackwards(rows, t.start, Head(rows));
    }
  }

  // ---------------------------------------------------------------------------
  // Progress: what a follower does when only its own steps run
  // ---------------------------------------------------------------------------

  predicate Idle(t: Task) {
    t.pc == Gone || (t.pc == Parked && !Pending(t))
  }

  /** The next step of a follower that has one; a wakeup on its way counts as its own. */
  function Own(t: Task, f: nat): Action
    requires !Idle(t)
  {
    match t.pc
    case Clearing => Clear(f)
    case Reading => DoRead(f)
    case Yielding(_) => DoYield(f)
    case Waiting => DoWait(f)
    case _ => if t.flag then Wake(f) else RunSet(f)
  }

  function Unread(t: Task, rows: seq<Row>): nat {
    |Range(rows, t.after, Head(rows))|
  }

  /** How far a follower is from its next sleep, with the event clear and with it set. */
  function Rank(t: Task): nat {
    match t.pc
    case Gone => 0
    case Parked => if t.flag then 4 else 0
    case Yielding(_) => 1
    case Waiting => if t.flag then 4 else 1
    case Reading => if t.flag then 5 else 2
    case Clearing => 3
  }

  lemma OwnIsEnabled(s: Sys, f: nat)
    requires f in s.tasks && !Idle(s.tasks[f]) && TaskFits(s.tasks[f], s.rows, s.closed)
    ensures Enabled(s, Own(s.tasks[f], f))
  {
    hide Range, Sorted;
  }

  lemma YieldShortens(t: Task, rows: seq<Row>, closed: bool)
    requires Sorted(rows) && TaskFits(t, rows, closed) && t.pc.Yielding?
    ensures Unread(YieldTask(t), rows) < Unread(t, rows)
  {
    hide Range, Sorted;
    var last, m: int := t.pc.batch[|t.pc.batch| - 1].seqNo, t.pc.batch[0].seqNo;
    FirstOfRange(rows, t.after, last, 1);
    assert t.pc.batch[..1] == [t.pc.batch[0]];
    RangeSplits(rows, t.after, m, Head(rows));
  }

  /** `u` is closer to the next sleep than `t`. */
  predicate Closer(u: Task, t: Task, rows: seq<Row>) {
    Unread(u, rows) < Unread(t, rows) ||
    (Unread(u, rows) == Unread(t, rows) &&
     (u.scheduled < t.scheduled || (u.scheduled == t.scheduled && Rank(u) < Rank(t))))
  }

  /** An own step touches nobody else. */
  lemma OwnStepIsOwn(s: Sys, f: nat)
    requires f in s.tasks && !Idle(s.tasks[f]) && Enabled(s, Own(s.tasks[f], f))
    ensures var n := Step(s, Own(s.tasks[f], f));
            f in n.tasks && n == s.(tasks := s.tasks[f := n.tasks[f]]) && n.tasks[f].start == s.tasks[f].start
  {
    hide Range, Sorted;
    var t := s.tasks[f];
    assert ReadTask(t, s.rows, s.closed).start == t.start;
  }

  /** Each own step comes closer to the next sleep. */
  lemma OwnStepAdvances(s: Sys, f: nat)
    requires Sorted(s.rows) && f in s.tasks && TaskFits(s.tasks[f], s.rows, s.closed)
    requires !Idle(s.tasks[f]) && Enabled(s, Own(s.tasks[f], f)) && f in Step(s, Own(s.tasks[f], f)).tasks
    ensures var t, u := s.tasks[f], Step(s, Own(s.tasks[f], f)).tasks[f];
            Closer(u, t, s.rows) && (u.pc == Gone ==> s.closed || t.start < -1)
  {
    hide Range, Sorted, BatchFits;
    var t := s.tasks[f];
    if t.pc.Yielding? {
      YieldShortens(t, s.rows, s.closed);
      hide TaskFits, Unread, Rank;
    } else {
      SameUnread(t, Step(s, Own(t, f)).tasks[f], s.rows);
      hide Unread;
    }
  }

  lemma SameUnread(t: Task, u: Task, rows: seq<Row>)
    requires t.after == u.after
    ensures Unread(t, rows) == Unread(u, rows)
  {
  }

  /** Up to `n` own steps of one follower, until it is idle. */
  ghost function OwnSteps(s: Sys, f: nat, n: nat): (t: Sys)
    requires Inv(s) && f in s.tasks
    ensures Inv(t) && f in t.tasks
    decreases n
  {
    if n == 0 || Idle(s.tasks[f]) then s
    else
      OwnIsEnabled(s, f);
      OwnStepIsOwn(s, f);
      StepKeepsInv(s, Own(s.tasks[f], f));
      OwnSteps(Step(s, Own(s.tasks[f], f)), f, n - 1)
  }

  /** Where a follower ends that is left to its own steps. */
  predicate CaughtUp(t: Task, was: Task, rows: seq<Row>, closed: bool) {
    && Idle(t)
    && t.start == was.start
    && (t.pc == Gone <==> was.pc == Gone || closed || was.start < -1)
    && (t.pc != Gone ==> t.yielded == Range(rows, t.start, Head(rows)))
  }

  /** The two states differ at most in one follower. */
  predicate SameOthers(s: Sys, t: Sys, f: nat)
    requires f in t.tasks
  {
    t == s.(tasks := s.tasks[f := t.tasks[f]])
  }

  lemma SameOthersChain(s: Sys, t: Sys, u: Sys, f: nat)
    requires f in s.tasks && f in t.tasks && f in u.tasks
    ensures SameOthers(s, s, f)
    ensures SameOthers(s, t, f) && SameOthers(t, u, f) ==> SameOthers(s, u, f)
  {
    assert s.tasks == s.tasks[f := s.tasks[f]];
    assert s.tasks[f := t.tasks[f]][f := u.tasks[f]] == s.tasks[f := u.tasks[f]];
  }

  lemma IdleIsCaughtUp(s: Sys, f: nat)
    requires Inv(s) && f in s.tasks && Idle(s.tasks[f])
    ensures OwnSteps(s, f, 0) == s && CaughtUp(s.tasks[f], s.tasks[f], s.rows, s.closed)
  {
    var t, rows := s.tasks[f], s.rows;
    hide Range, Sorted;
    if t.pc != Gone {
      if t.after <= Head(rows) {
        RangeSplits(rows, t.start, t.after, Head(rows));
        assert t.yielded + [] == t.yielded;
      } else {
        RangeEmpty(rows, t.start);
        RangeBackwards(rows, t.start, Head(rows));
      }
    }
  }

  /** The state after one own step, which is one step less from rest. */
  lemma OwnStep(s: Sys, f: nat) returns (next: Sys)
    requires Inv(s) && f in s.tasks && !Idle(s.tasks[f])
    ensures Inv(next) && f in next.tasks && SameOthers(s, next, f) && next.rows == s.rows
    ensures Closer(next.tasks[f], s.tasks[f], s.rows)
    ensures next.tasks[f].start == s.tasks[f].start
    ensures next.tasks[f].pc == Gone ==> s.closed || s.tasks[f].start < -1
    ensures forall m: nat :: OwnSteps(s, f, m + 1) == OwnSteps(next, f, m)
  {
    OwnIsEnabled(s, f);
    OwnStepIsOwn(s, f);
    OwnStepAdvances(s, f);
    StepKeepsInv(s, Own(s.tasks[f], f));
    next := Step(s, Own(s.tasks[f], f));
    hide Inv, Enabled, TaskFits, Own, Rank, Unread, Range, Step;
  }

  /** Main result: from every reachable state a follower that only takes its own steps
      comes to rest after finitely many.  On an open log it then sleeps and has yielded the
      whole session; on a closed one it has ended; nobody else is touched. */
  lemma {:induction false} FollowerCatchesUp(s: Sys, f: nat) returns (n: nat)
    requires Inv(s) && f in s.tasks
    ensures var t := OwnSteps(s, f, n);
            SameOthers(s, t, f) && CaughtUp(t.tasks[f], s.tasks[f], s.rows, s.closed)
    decreases Unread(s.tasks[f], s.rows), s.tasks[f].scheduled, Rank(s.tasks[f])
  {
    hide Range, Sorted, Inv, TaskFits, Idle, Unread, Rank, OwnSteps, SameOthers, CaughtUp;
    if Idle(s.tasks[f]) {
      IdleIsCaughtUp(s, f);
      SameOthersChain(s, s, s, f);
      n := 0;
    } else {
      var next := OwnStep(s, f);
      var m := FollowerCatchesUp(next, f);
      n := m + 1;
      RestsLater(s, next, OwnSteps(s, f, n), f);
    }
  }

  lemma RestsLater(s: Sys, next: Sys, t: Sys, f: nat)
    requires f in s.tasks && f in next.tasks && f in t.tasks
    requires !Idle(s.tasks[f]) && SameOthers(s, next, f) && SameOthers(next, t, f)
    requires next.tasks[f].start == s.tasks[f].start && (next.tasks[f].pc == Gone ==> s.closed || s.tasks[f].start < -1)
    requires CaughtUp(t.tasks[f], next.tasks[f], next.rows, next.closed)
    ensures SameOthers(s, t, f) && CaughtUp(t.tasks[f], s.tasks[f], s.rows, s.closed)
  {
    hide Range;
    SameOthersChain(s, next, t, f);
  }

  /** A start below -1 is refused before anything is read. */
  lemma NothingYielded(s: Sys, f: nat)
    requires Inv(s) && f in s.tasks && s.tasks[f].start < -1
    ensures s.tasks[f].yielded == []
  {
    RangeEmpty(s.rows, s.tasks[f].start);
  }

  /** A new follower of an open log is on the way to the whole session after its start; a
      closed log takes no followers. */
  lemma SubscriberReadsSession(s: Sys, f: nat, start: int) returns (n: nat)
    requires Inv(s) && f !in s.tasks
    ensures s.closed ==> f !in Step(s, Subscribe(f, start)).tasks
    ensures !s.closed ==>
              var b := Step(s, Subscribe(f, start));
              Inv(b) && f in b.tasks && OwnSteps(b, f, n).rows == s.rows &&
              OwnSteps(b, f, n).tasks[f].yielded == if start < -1 then [] else Range(s.rows, start, Head(s.rows))
  {
    hide Range, Sorted, Inv, TaskFits, OwnSteps;
    if s.closed {
      n := 0;
    } else {
      var b := Step(s, Subscribe(f, start));
      StepKeepsInv(s, Subscribe(f, start));
      n := FollowerCatchesUp(b, f);
      if start < -1 {
        NothingYielded(OwnSteps(b, f, n), f);
      }
    }
  }

  /** Closing the log ends every follower by its own steps. */
  lemma CloseEndsFollowers(s: Sys, f: nat) returns (n: nat)
    requires Inv(s) && f in s.tasks
    ensures var c := Step(s, CloseLog);
            Inv(c) && f in c.tasks && OwnSteps(c, f, n).tasks[f].pc == Gone &&
            forall added :: !Enabled(c, Commit(added))
  {
    hide Range, Sorted, Inv, TaskFits, OwnSteps;
    StepKeepsInv(s, CloseLog);
    n := FollowerCatchesUp(Step(s, CloseLog), f);
  }

  /** A cancelled follower yields nothing any more. */
  lemma {:induction false} CancelledYieldsNoMore(states: seq<Sys>, acts: seq<Action>, i: nat, j: nat, f: nat)
    requires IsRun(states, acts) && i < j < |states| && acts[i] == Cancel(f)
    ensures f in states[i].tasks && f in states[j].tasks
    ensures states[j].tasks[f].pc == Gone && states[j].tasks[f].yielded == states[i].tasks[f].yielded
    decreases j
  {
    assert Moves(states[j - 1], acts[j - 1], states[j - 1 + 1]);
    assert Moves(states[i], acts[i], states[i + 1]);
    if i < j - 1 {
      CancelledYieldsNoMore(states, acts, i, j - 1, f);
    }
  }

  /** The log closes once: its followers are woken by the first close, and by no other; one
      that has ended is not woken at all. */
  lemma WokenOnce(s: Sys, added: seq<Row>)
    ensures Step(Step(s, CloseLog), CloseLog) == Step(s, CloseLog)
    ensures forall a, f :: a in {CloseLog, Commit(added)} && Enabled(s, a) && f in s.tasks ==>
              f in Step(s, a).tasks &&
              Step(s, a).tasks[f] == s.tasks[f].(scheduled := Step(s, a).tasks[f].scheduled) &&
              Step(s, a).tasks[f].scheduled ==
                s.tasks[f].scheduled + (if s.tasks[f].pc == Gone || (a.CloseLog? && s.closed) then 0 else 1)
  {
  }

  /** How often the follower yields between two states of a run. */
  function Yields(acts: seq<Action>, i: nat, j: nat, f: nat): nat
    requires i <= j <= |acts|
  {
    if i == j then 0 else Yields(acts, i, j - 1, f) + if acts[j - 1] == DoYield(f) then 1 else 0
  }

  /** Main result: what one read gave is yielded to its end and in order, also when the log
      is closed or grows meanwhile, unless the follower is cancelled. */
  lemma {:induction false} BatchIsYielded(states: seq<Sys>, acts: seq<Action>, i: nat, j: nat, f: nat)
    requires IsRun(states, acts) && i <= j < |states| && f in states[i].tasks && states[i].tasks[f].pc.Yielding?
    requires forall k :: i <= k < j ==> acts[k] != Cancel(f)
    requires Yields(acts, i, j, f) <= |states[i].tasks[f].pc.batch|
    ensures f in states[j].tasks
    ensures var t, n := states[i].tasks[f], Yields(acts, i, j, f);
            && states[j].tasks[f].yielded == t.yielded + t.pc.batch[..n]
            && (n < |t.pc.batch| ==> states[j].tasks[f].pc == Yielding(t.pc.batch[n..]) && Enabled(states[j], DoYield(f)))
    decreases j
  {
    var t := states[i].tasks[f];
    if i < j {
      assert Moves(states[j - 1], acts[j - 1], states[j - 1 + 1]);
      BatchIsYielded(states, acts, i, j - 1, f);
      var n := Yields(acts, i, j - 1, f);
      if acts[j - 1] == DoYield(f) {
        assert t.pc.batch[..n + 1] == t.pc.batch[..n] + [t.pc.batch[n]];
        assert t.pc.batch[n..][1..] == t.pc.batch[n + 1..];
      }
    } else {
      assert t.yielded + t.pc.batch[..0] == t.yielded;
      assert t.pc.batch[0..] == t.pc.batch;
    }
  }
}
