/** The table of lane states: one per chat, created on demand and dropped when idle.

    Callers keep the state object they took, so the program relies on a dropped state
    never being in use.  The proof compares the table with one that never drops
    anything: dropping only renumbers tickets, which no caller can observe. */
module LaneTable {
  import opened ChatLane
  import opened Wrappers

  type Key = (string, string)

  /** Nothing distinguishes this lane from a fresh one except where its tickets start. */
  predicate Droppable(l: Lane) {
    l.users == 0 && l.turns == 0 && l.sends == 0 && !l.sending && l.next == l.serving && l.cancelled == {}
  }

  class ChatLanes {
    var states: map<Key, LaneState>

    constructor ()
      ensures states == map[]
    {
      states := map[];
    }

    method AcquireState(key: Key) returns (state: LaneState)
      modifies this, states.Values`activeUsers
      ensures key in old(states) ==> state == old(states[key])
      ensures key in old(states) ==> state.View() == old(states[key].View()).(users := old(states[key].activeUsers) + 1)
      ensures key !in old(states) ==> fresh(state) && state.View() == FRESH.(users := 1)
      ensures states == old(states)[key := state]
      ensures forall k :: k in old(states) && old(states[k]) != state ==> states[k].View() == old(states[k].View())
    {
      if key in states {
        state := states[key];
      } else {
        state := new LaneState();
        states := states[key := state];
      }
      state.activeUsers := state.activeUsers + 1;
    }

    method ReleaseState(key: Key, state: LaneState)
      modifies this, state`activeUsers
      ensures state.View() == old(state.View()).(users := old(state.activeUsers) - 1)
      ensures states == if Droppable(state.View()) && key in old(states) && old(states[key]) == state
                        then old(states) - {key} else old(states)
    {
      state.activeUsers := state.activeUsers - 1;
      if state.activeUsers != 0 || state.passiveTurns != 0 || state.passiveSends != 0 || state.sending ||
         state.nextTicket != state.servingTicket || state.cancelledTickets != {} {
        return;
      }
      if key in states && states[key] == state {
        states := states - {key};
      }
    }
  }

  // ---------------------------------------------------------------------------
  // Renumbering tickets
  // ---------------------------------------------------------------------------

  function ShiftSet(ts: set<nat>, k: nat): set<nat> {
    set t | t in ts :: t + k
  }

  lemma ShiftSetLaws(ts: set<nat>, k: nat, t: nat)
    ensures t + k in ShiftSet(ts, k) <==> t in ts
    ensures ShiftSet(ts - {t}, k) == ShiftSet(ts, k) - {t + k}
    ensures ShiftSet(ts + {t}, k) == ShiftSet(ts, k) + {t + k}
  {
    forall u | u in ShiftSet(ts, k) && u != t + k
      ensures u in ShiftSet(ts - {t}, k)
    {
      var w :| w in ts && u == w + k;
      assert w in ts - {t};
    }
  }

  function ShiftLane(l: Lane, k: nat): Lane {
    l.(next := l.next + k, serving := l.serving + k, cancelled := ShiftSet(l.cancelled, k))
  }

  function ShiftPhase(p: Phase, k: nat): Phase {
    match p
    case NonPassiveParked(t, w) => NonPassiveParked(t + k, w)
    case NonPassiveSending(t) => NonPassiveSending(t + k)
    case NonPassiveLeaving(t, sent) => if t < 0 then p else NonPassiveLeaving(t + k, sent)
    case _ => p
  }

  function ShiftSys(s: Sys, k: nat): Sys {
    Sys(ShiftLane(s.lane, k), map c | c in s.callers :: ShiftPhase(s.callers[c], k))
  }

  lemma {:induction false} SkipCommutes(l: Lane, k: nat)
    ensures Skip(ShiftLane(l, k)) == ShiftLane(Skip(l), k)
    decreases l.cancelled
  {
    ShiftSetLaws(l.cancelled, k, l.serving);
    if l.serving in l.cancelled {
      SkipCommutes(l.(cancelled := l.cancelled - {l.serving}, serving := l.serving + 1), k);
    }
  }

  lemma LeaveCommutes(l: Lane, k: nat, t: nat, sent: bool)
    ensures NonPassiveLeave(ShiftLane(l, k), t + k, sent) == ShiftLane(NonPassiveLeave(l, t, sent), k)
  {
    if sent {
      SkipCommutes(l.(serving := l.serving + 1, sending := false), k);
    } else {
      ShiftSetLaws(l.cancelled, k, t);
      SkipCommutes(l.(cancelled := l.cancelled + {t}), k);
    }
  }

  lemma TryCommutes(l: Lane, k: nat, t: nat)
    ensures NonPassiveTry(ShiftLane(l, k), t + k) == (ShiftLane(NonPassiveTry(l, t).0, k), NonPassiveTry(l, t).1)
  {
    SkipCommutes(l, k);
  }

  lemma MoveCommutes(s: Sys, c: nat, l: Lane, p: Phase, k: nat)
    requires c in s.callers
    ensures ShiftSys(Moved(s, c, l, p), k) == Moved(ShiftSys(s, k), c, ShiftLane(l, k), ShiftPhase(p, k))
  {
  }

  lemma GoneCommutes(s: Sys, c: nat, l: Lane, notify: bool, k: nat)
    ensures ShiftSys(Gone(l, s.callers, c, notify), k) == Gone(ShiftLane(l, k), ShiftSys(s, k).callers, c, notify)
  {
    var rest := s.callers - {c};
    var moved := ShiftSys(s, k).callers - {c};
    assert forall d :: d in rest ==> Wake(ShiftPhase(rest[d], k)) == ShiftPhase(Wake(rest[d]), k);
    assert ShiftSys(Sys(l, rest), k).callers == moved;
    assert ShiftSys(Sys(l, WakeAll(rest)), k).callers == WakeAll(moved);
  }

  lemma LeavingCommutes(s: Sys, c: nat, k: nat)
    requires c in s.callers
    requires s.callers[c].Marking? || s.callers[c].PassiveLeaving? || s.callers[c].NonPassiveLeaving?
    ensures RunStep(ShiftSys(s, k), c) == ShiftSys(RunStep(s, c), k)
  {
    match s.callers[c] {
      case Marking(kind) => GoneCommutes(s, c, Mark(s.lane, kind), true, k);
      case PassiveLeaving(owns, sent) =>
        var (l, raised) := PassiveLeave(s.lane, owns, sent);
        GoneCommutes(s, c, l, owns && !raised, k);
      case NonPassiveLeaving(t, sent) =>
        if t >= 0 {
          LeaveCommutes(s.lane, k, t, sent);
        }
        GoneCommutes(s, c, NonPassiveLeave(s.lane, t, sent), true, k);
    }
  }

  lemma StayingCommutes(s: Sys, c: nat, k: nat)
    requires c in s.callers
    requires !(s.callers[c].Marking? || s.callers[c].PassiveLeaving? || s.callers[c].NonPassiveLeaving?)
    ensures RunStep(ShiftSys(s, k), c) == ShiftSys(RunStep(s, c), k)
  {
    match s.callers[c] {
      case NonPassiveEntered => TryCommutes(s.lane.(next := s.lane.next + 1), k, s.lane.next);
      case NonPassiveParked(t, _) => TryCommutes(s.lane, k, t);
      case _ =>
    }
    MoveCommutes(s, c, RunStep(s, c).lane, RunStep(s, c).callers[c], k);
  }

  /** Renumbering all tickets of a lane commutes with every step. */
  lemma StepCommutes(s: Sys, a: Action, k: nat)
    ensures Enabled(ShiftSys(s, k), a) == Enabled(s, a)
    ensures Enabled(s, a) ==> Step(ShiftSys(s, k), a) == ShiftSys(Step(s, a), k)
    ensures Enabled(s, a) ==> Releases(ShiftSys(s, k), a) == Releases(s, a)
  {
    if Enabled(s, a) {
      match a
      case Enter(c, p) => MoveCommutes(Sys(s.lane, s.callers[c := p]), c, s.lane.(users := s.lane.users + 1), p, k);
      case Run(c) =>
        if s.callers[c].Marking? || s.callers[c].PassiveLeaving? || s.callers[c].NonPassiveLeaving? {
          LeavingCommutes(s, c, k);
        } else {
          StayingCommutes(s, c, k);
        }
      case Interrupt(c) =>
        if s.callers[c].Marking? {
          GoneCommutes(s, c, s.lane, false, k);
        } else {
          MoveCommutes(s, c, s.lane, InterruptStep(s, c).callers[c], k);
        }
    }
  }

  // ---------------------------------------------------------------------------
  // Two tables
  // ---------------------------------------------------------------------------

  datatype Call = Call(key: Key, action: Action)

  /** A state object and the chat it was made for. */
  datatype Cell = Cell(key: Key, sys: Sys)

  /** The program's table.  `cells` are the state objects ever made, `live` is the
      dictionary, and `home` records which object each caller took. */
  datatype Table = Table(cells: seq<Cell>, live: map<Key, nat>, home: map<nat, (Key, nat)>)

  /** The table that never drops a state. */
  datatype Keeper = Keeper(lanes: map<Key, Sys>, home: map<nat, Key>)

  predicate InRange(t: Table) {
    && (forall k :: k in t.live ==> t.live[k] < |t.cells|)
    && (forall c :: c in t.home ==> t.home[c].1 < |t.cells|)
  }

  predicate TableEnabled(t: Table, x: Call)
    requires InRange(t)
  {
    var c := x.action.c;
    if x.action.Enter? then c !in t.home && Initial(x.action.phase)
    else c in t.home && t.home[c].0 == x.key && Enabled(t.cells[t.home[c].1].sys, x.action)
  }

  function TableStep(t: Table, x: Call): Table
    requires InRange(t) && TableEnabled(t, x)
  {
    var c := x.action.c;
    if x.action.Enter? then
      var id := if x.key in t.live then t.live[x.key] else |t.cells|;
      var cells := if x.key in t.live then t.cells else t.cells + [Cell(x.key, IDLE)];
      Table(cells[id := cells[id].(sys := Entered(cells[id].sys, x.action))], t.live[x.key := id],
            t.home[c := (x.key, id)])
    else
      var id := t.home[c].1;
      var s := Step(t.cells[id].sys, x.action);
      var cells := t.cells[id := t.cells[id].(sys := s)];
      if !Releases(t.cells[id].sys, x.action) then t.(cells := cells)
      else
        Table(cells,
              if Droppable(s.lane) && x.key in t.live && t.live[x.key] == id then t.live - {x.key} else t.live,
              t.home - {c})
  }

  function Entered(s: Sys, a: Action): Sys
    requires a.Enter?
  {
    Sys(s.lane.(users := s.lane.users + 1), s.callers[a.c := a.phase])
  }

  function LaneOf(n: Keeper, key: Key): Sys {
    if key in n.lanes then n.lanes[key] else IDLE
  }

  predicate KeeperEnabled(n: Keeper, x: Call) {
    var c := x.action.c;
    if x.action.Enter? then c !in n.home && Initial(x.action.phase)
    else c in n.home && n.home[c] == x.key && Enabled(LaneOf(n, x.key), x.action)
  }

  function KeeperStep(n: Keeper, x: Call): Keeper
    requires KeeperEnabled(n, x)
  {
    var c := x.action.c;
    var s := LaneOf(n, x.key);
    if x.action.Enter? then
      Keeper(n.lanes[x.key := Entered(s, x.action)], n.home[c := x.key])
    else
      Keeper(n.lanes[x.key := Step(s, x.action)], if Releases(s, x.action) then n.home - {c} else n.home)
  }

  function ShiftOf(shift: map<Key, nat>, k: Key): nat {
    if k in shift then shift[k] else 0
  }

  /** The keeper's lane is the live state with its tickets moved up, or an idle lane. */
  ghost predicate LaneFits(t: Table, n: Keeper, shift: map<Key, nat>, k: Key) {
    if k in t.live then
      && t.live[k] < |t.cells| && t.cells[t.live[k]].key == k
      && LaneOf(n, k) == ShiftSys(t.cells[t.live[k]].sys, ShiftOf(shift, k))
      && Inv(t.cells[t.live[k]].sys)
      && (forall c :: c in t.cells[t.live[k]].sys.callers ==> c in t.home && t.home[c] == (k, t.live[k]))
    else
      LaneOf(n, k) == ShiftSys(IDLE, ShiftOf(shift, k))
  }

  /** Every caller sits in the one live state of its chat. */
  ghost predicate HomeFits(t: Table, n: Keeper, c: nat)
    requires c in t.home
  {
    var (k, id) := t.home[c];
    && c in n.home && n.home[c] == k && k in t.live && t.live[k] == id < |t.cells|
    && c in t.cells[id].sys.callers
  }

  ghost predicate Related(t: Table, n: Keeper, shift: map<Key, nat>) {
    && InRange(t) && t.home.Keys == n.home.Keys
    && (forall k {:trigger LaneFits(t, n, shift, k)} :: LaneFits(t, n, shift, k))
    && (forall c {:trigger HomeFits(t, n, c)} :: c in t.home ==> HomeFits(t, n, c))
  }

  /** A lane that a step does not touch. */
  lemma LaneFrame(t: Table, n: Keeper, shift: map<Key, nat>, t': Table, n': Keeper, s': map<Key, nat>, m: Key)
    requires LaneFits(t, n, shift, m)
    requires m in t.live <==> m in t'.live
    requires m in t.live ==>
               t'.live[m] == t.live[m] && t.live[m] < |t'.cells| && t'.cells[t.live[m]] == t.cells[t.live[m]] &&
               forall c :: c in t.cells[t.live[m]].sys.callers ==> c in t'.home && t'.home[c] == t.home[c]
    requires LaneOf(n', m) == LaneOf(n, m) && ShiftOf(s', m) == ShiftOf(shift, m)
    ensures LaneFits(t', n', s', m)
  {
  }

  /** The lane a caller entered, told by its state before and after only. */
  lemma EnteredLaneFrame(t: Table, n: Keeper, shift: map<Key, nat>, t': Table, n': Keeper, k: Key, c: nat, after: Sys)
    requires LaneFits(t, n, shift, k)
    requires k in t'.live && t'.live[k] < |t'.cells| && t'.cells[t'.live[k]] == Cell(k, after) && Inv(after)
    requires LaneOf(n', k) == ShiftSys(after, ShiftOf(shift, k))
    requires k in t.live ==> t'.live[k] == t.live[k]
    requires t'.home == t.home[c := (k, t'.live[k])]
    requires forall d :: d in after.callers && d != c ==> k in t.live && d in t.cells[t.live[k]].sys.callers
    ensures LaneFits(t', n', shift, k)
  {
  }

  lemma EnteredLaneState(s: Sys, x: Call, k: nat) returns (after: Sys)
    requires Inv(s) && x.action.Enter? && Enabled(s, x.action)
    ensures after == Entered(s, x.action) && Inv(after)
    ensures Entered(ShiftSys(s, k), x.action) == ShiftSys(after, k)
  {
    after := Step(s, x.action);
    StepKeepsInv(s, x.action);
    StepCommutes(s, x.action, k);
  }

  lemma EnteredLaneFits(t: Table, n: Keeper, x: Call, shift: map<Key, nat>)
    requires Related(t, n, shift) && x.action.Enter? && TableEnabled(t, x)
    ensures KeeperEnabled(n, x) && LaneFits(TableStep(t, x), KeeperStep(n, x), shift, x.key)
  {
    assert LaneFits(t, n, shift, x.key);
    var before := if x.key in t.live then t.cells[t.live[x.key]].sys else IDLE;
    assert Tracked(IDLE, map[], -1);
    var after := EnteredLaneState(before, x, ShiftOf(shift, x.key));
    EnteredLaneFrame(t, n, shift, TableStep(t, x), KeeperStep(n, x), x.key, x.action.c, after);
  }

  lemma OtherLaneAfterEnter(t: Table, n: Keeper, x: Call, shift: map<Key, nat>, m: Key)
    requires Related(t, n, shift) && x.action.Enter? && TableEnabled(t, x) && m != x.key
    ensures KeeperEnabled(n, x) && LaneFits(TableStep(t, x), KeeperStep(n, x), shift, m)
  {
    assert LaneFits(t, n, shift, m) && LaneFits(t, n, shift, x.key);
    LaneFrame(t, n, shift, TableStep(t, x), KeeperStep(n, x), shift, m);
  }

  lemma HomeAfterEnter(t: Table, n: Keeper, x: Call, c: nat)
    requires InRange(t) && x.action.Enter? && TableEnabled(t, x) && KeeperEnabled(n, x)
    requires c in t.home ==> HomeFits(t, n, c)
    requires c in TableStep(t, x).home
    ensures HomeFits(TableStep(t, x), KeeperStep(n, x), c)
  {
  }

  lemma EnterStaysRelated(t: Table, n: Keeper, x: Call, shift: map<Key, nat>)
    requires Related(t, n, shift) && x.action.Enter? && TableEnabled(t, x)
    ensures KeeperEnabled(n, x) && Related(TableStep(t, x), KeeperStep(n, x), shift)
  {
    EnteredLaneFits(t, n, x, shift);
    var t', n' := TableStep(t, x), KeeperStep(n, x);
    assert InRange(t') && t'.home.Keys == n'.home.Keys;
    forall m
      ensures LaneFits(t', n', shift, m)
    {
      if m != x.key {
        OtherLaneAfterEnter(t, n, x, shift, m);
      }
    }
    forall c | c in t'.home
      ensures HomeFits(t', n', c)
    {
      assert c in t.home ==> HomeFits(t, n, c);
      HomeAfterEnter(t, n, x, c);
    }
  }

  /** An idle lane has no caller left, so it is a fresh one with its tickets moved up. */
  lemma DroppableIsShiftedIdle(s: Sys)
    requires Inv(s) && Droppable(s.lane)
    ensures s == ShiftSys(IDLE, s.lane.next)
  {
    var who, occupant :| Tracked(s, who, occupant);
    assert s.callers == map[];
    assert ShiftSys(IDLE, s.lane.next).callers == map[];
  }

  lemma ShiftTwice(j: nat, k: nat)
    ensures ShiftSys(ShiftSys(IDLE, j), k) == ShiftSys(IDLE, j + k)
  {
    assert ShiftSys(ShiftSys(IDLE, j), k).callers == ShiftSys(IDLE, j + k).callers;
  }

  lemma OnlyReleaseRemoves(s: Sys, a: Action)
    requires Enabled(s, a) && !a.Enter?
    ensures Step(s, a).callers.Keys == if Releases(s, a) then s.callers.Keys - {a.c} else s.callers.Keys
  {
  }

  /** The lane a caller worked on, told by its state before and after only. */
  lemma WorkedLaneFrame(t: Table, n: Keeper, shift: map<Key, nat>, t': Table, n': Keeper, k: Key, c: nat, after: Sys)
    returns (up: nat)
    requires LaneFits(t, n, shift, k) && k in t.live && t.live[k] < |t'.cells|
    requires t'.cells[t.live[k]] == Cell(k, after) && Inv(after)
    requires LaneOf(n', k) == ShiftSys(after, ShiftOf(shift, k))
    requires k in t'.live ==> t'.live == t.live
    requires k !in t'.live ==> Droppable(after.lane)
    requires after.callers.Keys <= t.cells[t.live[k]].sys.callers.Keys
    requires forall d :: d in t.home && (d != c || d in after.callers) ==> d in t'.home && t'.home[d] == t.home[d]
    ensures LaneFits(t', n', shift[k := up], k)
  {
    up := ShiftOf(shift, k);
    if k !in t'.live {
      DroppableIsShiftedIdle(after);
      ShiftTwice(after.lane.next, up);
      up := after.lane.next + up;
    }
  }

  lemma WorkedLaneFacts(t: Table, n: Keeper, x: Call, shift: map<Key, nat>) returns (after: Sys)
    requires Related(t, n, shift) && !x.action.Enter? && TableEnabled(t, x)
    ensures KeeperEnabled(n, x) && HomeFits(t, n, x.action.c) && x.key in t.live && Inv(after)
    ensures LaneOf(KeeperStep(n, x), x.key) == ShiftSys(after, ShiftOf(shift, x.key))
    ensures var t', before := TableStep(t, x), t.cells[t.live[x.key]].sys;
            && |t'.cells| == |t.cells| && t'.cells[t.live[x.key]] == Cell(x.key, after)
            && after.callers.Keys <= before.callers.Keys
            && (x.key in t'.live ==> t'.live == t.live)
            && (x.key !in t'.live ==> Droppable(after.lane))
            && (forall d :: d in t.home && (d != x.action.c || d in after.callers) ==>
                  d in t'.home && t'.home[d] == t.home[d])
  {
    assert HomeFits(t, n, x.action.c) && LaneFits(t, n, shift, x.key);
    var before := t.cells[t.live[x.key]].sys;
    StepKeepsInv(before, x.action);
    StepCommutes(before, x.action, ShiftOf(shift, x.key));
    OnlyReleaseRemoves(before, x.action);
    after := Step(before, x.action);
  }

  lemma WorkedLaneFits(t: Table, n: Keeper, x: Call, shift: map<Key, nat>) returns (k: nat)
    requires Related(t, n, shift) && !x.action.Enter? && TableEnabled(t, x)
    ensures KeeperEnabled(n, x) && LaneFits(TableStep(t, x), KeeperStep(n, x), shift[x.key := k], x.key)
  {
    var after := WorkedLaneFacts(t, n, x, shift);
    assert LaneFits(t, n, shift, x.key);
    k := WorkedLaneFrame(t, n, shift, TableStep(t, x), KeeperStep(n, x), x.key, x.action.c, after);
  }

  lemma OtherLaneAfterWork(t: Table, n: Keeper, x: Call, shift: map<Key, nat>, k: nat, m: Key)
    requires Related(t, n, shift) && !x.action.Enter? && TableEnabled(t, x) && KeeperEnabled(n, x) && m != x.key
    ensures LaneFits(TableStep(t, x), KeeperStep(n, x), shift[x.key := k], m)
  {
    KeysTellStatesApart(t, n, shift, m, x.key);
    assert HomeFits(t, n, x.action.c) && LaneFits(t, n, shift, m);
    LaneFrame(t, n, shift, TableStep(t, x), KeeperStep(n, x), shift[x.key := k], m);
  }

  lemma WorkStaysRelated(t: Table, n: Keeper, x: Call, shift: map<Key, nat>) returns (s': map<Key, nat>)
    requires Related(t, n, shift) && !x.action.Enter? && TableEnabled(t, x)
    ensures KeeperEnabled(n, x) && Related(TableStep(t, x), KeeperStep(n, x), s')
  {
    var k := WorkedLaneFits(t, n, x, shift);
    s' := shift[x.key := k];
    var t', n' := TableStep(t, x), KeeperStep(n, x);
    assert HomeFits(t, n, x.action.c) && LaneFits(t, n, shift, x.key);
    StepCommutes(t.cells[t.live[x.key]].sys, x.action, ShiftOf(shift, x.key));
    assert InRange(t') && t'.home.Keys == n'.home.Keys;
    forall m
      ensures LaneFits(t', n', s', m)
    {
      if m != x.key {
        OtherLaneAfterWork(t, n, x, shift, k, m);
      }
    }
    forall c | c in t'.home
      ensures HomeFits(t', n', c)
    {
      assert HomeFits(t, n, c);
      LaneInUse(t, n, x, c);
    }
  }

  /** Whoever stays inside a lane keeps its state object in the table. */
  lemma LaneInUse(t: Table, n: Keeper, x: Call, c: nat)
    requires InRange(t) && !x.action.Enter? && TableEnabled(t, x) && c in TableStep(t, x).home
    requires HomeFits(t, n, c) && HomeFits(t, n, x.action.c) && Inv(t.cells[t.home[x.action.c].1].sys)
    ensures var t' := TableStep(t, x);
            t'.home[c] == t.home[c] && t'.home[c].0 in t'.live && t'.live[t'.home[c].0] == t'.home[c].1 &&
            c in t'.cells[t'.home[c].1].sys.callers
  {
    var before := t.cells[t.home[x.action.c].1].sys;
    OnlyReleaseRemoves(before, x.action);
    StepKeepsInv(before, x.action);
    if t.home[c] == t.home[x.action.c] {
      UsedLaneIsNotDroppable(Step(before, x.action), c);
    }
  }

  lemma UsedLaneIsNotDroppable(s: Sys, c: nat)
    requires Inv(s) && c in s.callers
    ensures !Droppable(s.lane)
  {
    var who, occupant :| Tracked(s, who, occupant);
  }

  // ---------------------------------------------------------------------------
  // Whole runs
  // ---------------------------------------------------------------------------

  const EMPTY_TABLE := Table([], map[], map[])
  const EMPTY_KEEPER := Keeper(map[], map[])

  /** The state after a list of calls, or None as soon as one of them is impossible. */
  function TableAfter(calls: seq<Call>): Option<Table>
    ensures TableAfter(calls).Some? ==> InRange(TableAfter(calls).value)
  {
    if calls == [] then Some(EMPTY_TABLE)
    else
      var t := TableAfter(calls[..|calls| - 1]);
      var x := calls[|calls| - 1];
      if t.Some? && TableEnabled(t.value, x) then Some(TableStep(t.value, x)) else None
  }

  function KeeperAfter(calls: seq<Call>): Option<Keeper> {
    if calls == [] then Some(EMPTY_KEEPER)
    else
      var n := KeeperAfter(calls[..|calls| - 1]);
      var x := calls[|calls| - 1];
      if n.Some? && KeeperEnabled(n.value, x) then Some(KeeperStep(n.value, x)) else None
  }

  lemma SameEnabled(t: Table, n: Keeper, x: Call, shift: map<Key, nat>)
    requires Related(t, n, shift)
    ensures TableEnabled(t, x) == KeeperEnabled(n, x)
  {
    var c := x.action.c;
    if !x.action.Enter? && c in t.home && t.home[c].0 == x.key {
      assert HomeFits(t, n, c) && LaneFits(t, n, shift, x.key);
      StepCommutes(t.cells[t.home[c].1].sys, x.action, ShiftOf(shift, x.key));
    }
  }

  lemma {:induction false} RunsStayRelated(calls: seq<Call>) returns (shift: map<Key, nat>)
    ensures TableAfter(calls).Some? == KeeperAfter(calls).Some?
    ensures TableAfter(calls).Some? ==> Related(TableAfter(calls).value, KeeperAfter(calls).value, shift)
  {
    shift := map[];
    if calls != [] {
      var x := calls[|calls| - 1];
      shift := RunsStayRelated(calls[..|calls| - 1]);
      var t, n := TableAfter(calls[..|calls| - 1]), KeeperAfter(calls[..|calls| - 1]);
      if t.Some? {
        SameEnabled(t.value, n.value, x, shift);
        if TableEnabled(t.value, x) {
          if x.action.Enter? {
            EnterStaysRelated(t.value, n.value, x, shift);
          } else {
            shift := WorkStaysRelated(t.value, n.value, x, shift);
          }
        }
      }
    }
  }

  /** What a caller can tell about itself: everything but its ticket number. */
  function Observed(p: Phase): Phase {
    match p
    case NonPassiveParked(_, w) => NonPassiveParked(0, w)
    case NonPassiveSending(_) => NonPassiveSending(0)
    case NonPassiveLeaving(t, sent) => NonPassiveLeaving(if t < 0 then -1 else 0, sent)
    case _ => p
  }

  /** Main result: dropping idle lane states is unobservable.  The same lists of calls
      are possible with and without it, and they leave every caller in the same place. */
  lemma DroppingIsUnobservable(calls: seq<Call>)
    ensures TableAfter(calls).Some? <==> KeeperAfter(calls).Some?
    ensures TableAfter(calls).Some? ==>
              var t, n := TableAfter(calls).value, KeeperAfter(calls).value;
              t.home.Keys == n.home.Keys &&
              forall c :: c in t.home ==>
                c in t.cells[t.home[c].1].sys.callers && c in LaneOf(n, n.home[c]).callers &&
                Observed(t.cells[t.home[c].1].sys.callers[c]) == Observed(LaneOf(n, n.home[c]).callers[c])
  {
    var shift := RunsStayRelated(calls);
    if TableAfter(calls).Some? {
      var t, n := TableAfter(calls).value, KeeperAfter(calls).value;
      forall c | c in t.home
        ensures c in t.cells[t.home[c].1].sys.callers && c in LaneOf(n, n.home[c]).callers
        ensures Observed(t.cells[t.home[c].1].sys.callers[c]) == Observed(LaneOf(n, n.home[c]).callers[c])
      {
        assert HomeFits(t, n, c) && LaneFits(t, n, shift, n.home[c]);
      }
    }
  }

  /** Main result: two live states of one chat never coexist.  Whoever is inside a lane
      holds the object the table has for that chat, and no idle state is kept. */
  lemma LiveStateIsUnique(calls: seq<Call>, c: nat, d: nat)
    requires TableAfter(calls).Some?
    requires c in TableAfter(calls).value.home && d in TableAfter(calls).value.home
    requires TableAfter(calls).value.home[c].0 == TableAfter(calls).value.home[d].0
    ensures var t := TableAfter(calls).value;
            t.home[c].1 == t.home[d].1 && t.home[c].0 in t.live && t.live[t.home[c].0] == t.home[c].1
  {
    var shift := RunsStayRelated(calls);
    assert HomeFits(TableAfter(calls).value, KeeperAfter(calls).value, c);
    assert HomeFits(TableAfter(calls).value, KeeperAfter(calls).value, d);
  }

  ghost predicate NoIdleState(t: Table)
    requires InRange(t)
  {
    forall k :: k in t.live ==> !Droppable(t.cells[t.live[k]].sys.lane)
  }

  lemma TouchedLaneIsNotIdle(t: Table, n: Keeper, x: Call, shift: map<Key, nat>)
    requires Related(t, n, shift) && TableEnabled(t, x) && x.key in TableStep(t, x).live
    ensures InRange(TableStep(t, x))
    ensures !Droppable(TableStep(t, x).cells[TableStep(t, x).live[x.key]].sys.lane)
  {
    if x.action.Enter? {
      EnterStaysRelated(t, n, x, shift);
      var t', n' := TableStep(t, x), KeeperStep(n, x);
      assert HomeFits(t', n', x.action.c) && LaneFits(t', n', shift, x.key);
      UsedLaneIsNotDroppable(t'.cells[t'.live[x.key]].sys, x.action.c);
    } else {
      assert HomeFits(t, n, x.action.c) && LaneFits(t, n, shift, x.key);
      var before := t.cells[t.live[x.key]].sys;
      StepKeepsInv(before, x.action);
      OnlyReleaseRemoves(before, x.action);
      if !Releases(before, x.action) {
        UsedLaneIsNotDroppable(Step(before, x.action), x.action.c);
      }
    }
  }

  lemma KeysTellStatesApart(t: Table, n: Keeper, shift: map<Key, nat>, k: Key, m: Key)
    requires Related(t, n, shift)
    ensures k in t.live ==> t.live[k] < |t.cells|
    ensures k in t.live && m in t.live && k != m ==> t.live[k] != t.live[m]
  {
    assert LaneFits(t, n, shift, k) && LaneFits(t, n, shift, m);
  }

  lemma OtherLaneIsKept(t: Table, n: Keeper, x: Call, shift: map<Key, nat>, k: Key)
    requires Related(t, n, shift) && TableEnabled(t, x) && k in TableStep(t, x).live && k != x.key
    ensures k in t.live && TableStep(t, x).live[k] == t.live[k] < |t.cells| <= |TableStep(t, x).cells|
    ensures TableStep(t, x).cells[t.live[k]] == t.cells[t.live[k]]
  {
    KeysTellStatesApart(t, n, shift, k, x.key);
    if !x.action.Enter? {
      assert HomeFits(t, n, x.action.c);
    }
  }

  lemma StepKeepsNoIdleState(t: Table, n: Keeper, x: Call, shift: map<Key, nat>)
    requires Related(t, n, shift) && TableEnabled(t, x) && NoIdleState(t)
    ensures InRange(TableStep(t, x)) && NoIdleState(TableStep(t, x))
  {
    var t' := TableStep(t, x);
    forall k | k in t'.live
      ensures t'.live[k] < |t'.cells| && !Droppable(t'.cells[t'.live[k]].sys.lane)
    {
      if k == x.key {
        TouchedLaneIsNotIdle(t, n, x, shift);
      } else {
        OtherLaneIsKept(t, n, x, shift, k);
      }
    }
  }

  /** Nothing idle stays behind: each state in the table is still needed. */
  lemma {:induction false} TableKeepsNoIdleState(calls: seq<Call>)
    requires TableAfter(calls).Some?
    ensures NoIdleState(TableAfter(calls).value)
  {
    if calls != [] {
      var t, n := TableAfter(calls[..|calls| - 1]).value, KeeperAfter(calls[..|calls| - 1]);
      TableKeepsNoIdleState(calls[..|calls| - 1]);
      var shift := RunsStayRelated(calls[..|calls| - 1]);
      StepKeepsNoIdleState(t, n.value, calls[|calls| - 1], shift);
    }
  }
}
