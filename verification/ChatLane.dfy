/** The per-chat send lane: a ticket lock on which passive sends have priority.

    Every stretch of code between two awaits is one atomic step.  `Lane` holds the
    counters of one lane state, the functions on it are the critical sections, and
    `Sys` adds the callers with the point each of them has reached. */
module ChatLane {

  datatype Lane = Lane(
    users: int,
    turns: int,
    sends: int,
    next: nat,
    serving: nat,
    cancelled: set<nat>,
    sending: bool)

  const FRESH := Lane(0, 0, 0, 0, 0, {}, false)

  datatype MarkKind = TurnPending | TurnDone | SendPending | SendDone

  // ---------------------------------------------------------------------------
  // Critical sections
  // ---------------------------------------------------------------------------

  /** Moves the serving ticket past every cancelled one. */
  function Skip(l: Lane): Lane
    decreases l.cancelled
  {
    if l.serving in l.cancelled then
      Skip(l.(cancelled := l.cancelled - {l.serving}, serving := l.serving + 1))
    else l
  }

  function Mark(l: Lane, kind: MarkKind): Lane {
    match kind
    case TurnPending => l.(turns := l.turns + 1)
    case TurnDone => if l.turns > 0 then l.(turns := l.turns - 1) else l
    case SendPending => l.(sends := l.sends + 1)
    case SendDone => if l.sends > 0 then l.(sends := l.sends - 1) else l
  }

  datatype Entry = Refused | Waits | Starts

  /** A passive caller starts as soon as nobody is sending; `registered` callers were
      counted when they were queued. */
  function PassiveEnter(l: Lane, registered: bool): (Lane, Entry) {
    if registered && l.sends <= 0 then (l, Refused)
    else PassiveTry(if registered then l else l.(sends := l.sends + 1))
  }

  function PassiveTry(l: Lane): (Lane, Entry) {
    if l.sending then (l, Waits) else (l.(sending := true), Starts)
  }

  /** Gives back what one passive call owns; the flag tells whether the section raised. */
  function PassiveLeave(l: Lane, owns: bool, sent: bool): (Lane, bool) {
    if !owns then (l, false)
    else if l.sends <= 0 then (l, true)
    else (l.(sends := l.sends - 1, sending := l.sending && !sent), false)
  }

  predicate Blocked(l: Lane, ticket: nat) {
    l.sending || l.turns > 0 || l.sends > 0 || ticket != l.serving
  }

  function NonPassiveEnter(l: Lane): (Lane, Entry) {
    NonPassiveTry(l.(next := l.next + 1), l.next)
  }

  function NonPassiveTry(l: Lane, ticket: nat): (Lane, Entry) {
    var m := Skip(l);
    if Blocked(m, ticket) then (m, Waits) else (m.(sending := true), Starts)
  }

  function NonPassiveLeave(l: Lane, ticket: int, sent: bool): Lane {
    if ticket < 0 then l
    else if sent then Skip(l.(serving := l.serving + 1, sending := false))
    else Skip(l.(cancelled := l.cancelled + {ticket}))
  }

  /** The lane object as the program keeps it, updated in place. */
  class LaneState {
    var activeUsers: int
    var passiveTurns: int
    var passiveSends: int
    var nextTicket: nat
    var servingTicket: nat
    var cancelledTickets: set<nat>
    var sending: bool

    function View(): Lane
      reads this
    {
      Lane(activeUsers, passiveTurns, passiveSends, nextTicket, servingTicket, cancelledTickets, sending)
    }

    constructor ()
      ensures View() == FRESH
    {
      activeUsers, passiveTurns, passiveSends := 0, 0, 0;
      nextTicket, servingTicket, cancelledTickets, sending := 0, 0, {}, false;
    }

    method SkipCancelled()
      modifies this
      ensures View() == Skip(old(View()))
    {
      while servingTicket in cancelledTickets
        invariant Skip(View()) == Skip(old(View()))
        decreases cancelledTickets
      {
        cancelledTickets := cancelledTickets - {servingTicket};
        servingTicket := servingTicket + 1;
      }
    }

    method RunMark(kind: MarkKind)
      modifies this
      ensures View() == Mark(old(View()), kind)
    {
      match kind
      case TurnPending => passiveTurns := passiveTurns + 1;
      case TurnDone =>
        if passiveTurns > 0 {
          passiveTurns := passiveTurns - 1;
        }
      case SendPending => passiveSends := passiveSends + 1;
      case SendDone =>
        if passiveSends > 0 {
          passiveSends := passiveSends - 1;
        }
    }

    method RunPassiveEnter(registered: bool) returns (entry: Entry)
      modifies this
      ensures (View(), entry) == PassiveEnter(old(View()), registered)
    {
      if registered {
        if passiveSends <= 0 {
          return Refused;
        }
      } else {
        passiveSends := passiveSends + 1;
      }
      entry := RunPassiveTry();
    }

    method RunPassiveTry() returns (entry: Entry)
      modifies this
      ensures (View(), entry) == PassiveTry(old(View()))
    {
      if sending {
        return Waits;
      }
      sending := true;
      entry := Starts;
    }

    method RunPassiveLeave(owns: bool, sent: bool) returns (raised: bool)
      modifies this
      ensures (View(), raised) == PassiveLeave(old(View()), owns, sent)
    {
      raised := false;
      if owns {
        if passiveSends <= 0 {
          return true;
        }
        passiveSends := passiveSends - 1;
        if sent {
          sending := false;
        }
      }
    }

    method RunNonPassiveEnter() returns (ticket: nat, entry: Entry)
      modifies this
      ensures ticket == old(nextTicket)
      ensures (View(), entry) == NonPassiveEnter(old(View()))
    {
      ticket := nextTicket;
      nextTicket := nextTicket + 1;
      entry := RunNonPassiveTry(ticket);
    }

    method RunNonPassiveTry(ticket: nat) returns (entry: Entry)
      modifies this
      ensures (View(), entry) == NonPassiveTry(old(View()), ticket)
    {
      SkipCancelled();
      if sending || passiveTurns > 0 || passiveSends > 0 || ticket != servingTicket {
        return Waits;
      }
      sending := true;
      entry := Starts;
    }

    method RunNonPassiveLeave(ticket: int, sent: bool)
      modifies this
      ensures View() == NonPassiveLeave(old(View()), ticket, sent)
    {
      if ticket >= 0 {
        if sent {
          servingTicket := servingTicket + 1;
          sending := false;
        } else {
          cancelledTickets := cancelledTickets + {ticket};
        }
        SkipCancelled();
      }
    }
  }

  // ---------------------------------------------------------------------------
  // Callers
  // ---------------------------------------------------------------------------

  /** Where one call stands.  A parked caller waits on the condition until a
      `notify_all` wakes it; a leaving caller has yet to run its `finally` section. */
  datatype Phase =
    | Marking(kind: MarkKind)
    | PassiveEntered(registered: bool)
    | PassiveParked(woken: bool)
    | PassiveSending
    | PassiveLeaving(owns: bool, sent: bool)
    | NonPassiveEntered
    | NonPassiveParked(ticket: nat, woken: bool)
    | NonPassiveSending(ticket: nat)
    | NonPassiveLeaving(drawn: int, sent: bool)

  predicate Initial(p: Phase) {
    p.Marking? || p.PassiveEntered? || p.NonPassiveEntered?
  }

  datatype Sys = Sys(lane: Lane, callers: map<nat, Phase>)

  const IDLE := Sys(FRESH, map[])

  /** Enter takes the lane state, Run executes the caller's next atomic section, and
      Interrupt cancels it.  A leaving caller is never interrupted again. */
  datatype Action = Enter(c: nat, phase: Phase) | Run(c: nat) | Interrupt(c: nat)

  function Wake(p: Phase): Phase {
    match p
    case PassiveParked(_) => PassiveParked(true)
    case NonPassiveParked(t, _) => NonPassiveParked(t, true)
    case _ => p
  }

  function WakeAll(callers: map<nat, Phase>): map<nat, Phase> {
    map c | c in callers :: Wake(callers[c])
  }

  predicate Enabled(s: Sys, a: Action) {
    match a
    case Enter(c, p) => c !in s.callers && Initial(p)
    case Run(c) =>
      c in s.callers &&
      (s.callers[c].PassiveParked? ==> s.callers[c].woken) &&
      (s.callers[c].NonPassiveParked? ==> s.callers[c].woken)
    case Interrupt(c) =>
      c in s.callers && !s.callers[c].PassiveLeaving? && !s.callers[c].NonPassiveLeaving?
  }

  /** The step lets go of the lane state, which is when an idle one may be dropped. */
  predicate Releases(s: Sys, a: Action)
    requires Enabled(s, a)
  {
    match a
    case Enter(_, _) => false
    case Run(c) => s.callers[c].Marking? || s.callers[c].PassiveLeaving? || s.callers[c].NonPassiveLeaving?
    case Interrupt(c) => s.callers[c].Marking?
  }

  function Gone(l: Lane, callers: map<nat, Phase>, c: nat, notify: bool): Sys {
    var rest := callers - {c};
    Sys(l.(users := l.users - 1), if notify then WakeAll(rest) else rest)
  }

  function Moved(s: Sys, c: nat, l: Lane, p: Phase): Sys {
    Sys(l, s.callers[c := p])
  }

  function RunStep(s: Sys, c: nat): Sys
    requires c in s.callers
  {
    match s.callers[c]
    case Marking(kind) => Gone(Mark(s.lane, kind), s.callers, c, true)
    case PassiveEntered(registered) =>
      var (l, e) := PassiveEnter(s.lane, registered);
      Moved(s, c, l, match e
                     case Refused => PassiveLeaving(true, false)
                     case Waits => PassiveParked(false)
                     case Starts => PassiveSending)
    case PassiveParked(_) =>
      var (l, e) := PassiveTry(s.lane);
      Moved(s, c, l, if e == Starts then PassiveSending else PassiveParked(false))
    case PassiveSending => Moved(s, c, s.lane, PassiveLeaving(true, true))
    case PassiveLeaving(owns, sent) =>
      var (l, raised) := PassiveLeave(s.lane, owns, sent);
      Gone(l, s.callers, c, owns && !raised)
    case NonPassiveEntered =>
      var (l, e) := NonPassiveEnter(s.lane);
      Moved(s, c, l, if e == Starts then NonPassiveSending(s.lane.next) else NonPassiveParked(s.lane.next, false))
    case NonPassiveParked(t, _) =>
      var (l, e) := NonPassiveTry(s.lane, t);
      Moved(s, c, l, if e == Starts then NonPassiveSending(t) else NonPassiveParked(t, false))
    case NonPassiveSending(t) => Moved(s, c, s.lane, NonPassiveLeaving(t, true))
    case NonPassiveLeaving(t, sent) => Gone(NonPassiveLeave(s.lane, t, sent), s.callers, c, true)
  }

  function InterruptStep(s: Sys, c: nat): Sys
    requires Enabled(s, Interrupt(c))
  {
    match s.callers[c]
    case Marking(_) => Gone(s.lane, s.callers, c, false)
    case PassiveEntered(registered) => Moved(s, c, s.lane, PassiveLeaving(registered, false))
    case PassiveParked(_) => Moved(s, c, s.lane, PassiveLeaving(true, false))
    case PassiveSending => Moved(s, c, s.lane, PassiveLeaving(true, true))
    case NonPassiveEntered => Moved(s, c, s.lane, NonPassiveLeaving(-1, false))
    case NonPassiveParked(t, _) => Moved(s, c, s.lane, NonPassiveLeaving(t, false))
    case NonPassiveSending(t) => Moved(s, c, s.lane, NonPassiveLeaving(t, true))
    case PassiveLeaving(_, _) => s
    case NonPassiveLeaving(_, _) => s
  }

  function Step(s: Sys, a: Action): Sys
    requires Enabled(s, a)
  {
    match a
    case Enter(c, p) => Sys(s.lane.(users := s.lane.users + 1), s.callers[c := p])
    case Run(c) => RunStep(s, c)
    case Interrupt(c) => InterruptStep(s, c)
  }

  /** An interleaving: `states[i]` is reached after the first `i` actions. */
  ghost predicate IsRun(states: seq<Sys>, acts: seq<Action>) {
    |states| == |acts| + 1 && states[0] == IDLE &&
    forall i :: 0 <= i < |acts| ==> Enabled(states[i], acts[i]) && states[i + 1] == Step(states[i], acts[i])
  }

  // ---------------------------------------------------------------------------
  // The invariant
  // ---------------------------------------------------------------------------

  /** The caller counts as the lane's one sender. */
  predicate Occupies(p: Phase) {
    p.PassiveSending? || p.NonPassiveSending? ||
    (p.PassiveLeaving? && p.sent) || (p.NonPassiveLeaving? && p.sent)
  }

  /** The ticket the caller still answers for, or -1. */
  function Held(p: Phase): int {
    match p
    case NonPassiveParked(t, _) => t
    case NonPassiveSending(t) => t
    case NonPassiveLeaving(t, _) => t
    case _ => -1
  }

  /** What holds of each caller: its ticket is registered to it, only the occupant sends
      (a non-passive one on the serving ticket), and nobody is parked without a pending
      wakeup unless it would not get through. */
  ghost predicate CallerFits(l: Lane, who: map<nat, nat>, occupant: int, c: nat, p: Phase) {
    && (Held(p) >= 0 ==> Held(p) in who && who[Held(p)] == c)
    && (Occupies(p) ==> occupant == c && l.sending && (Held(p) >= 0 ==> Held(p) == l.serving))
    && (p.NonPassiveLeaving? && p.sent ==> p.drawn >= 0)
    && (p.PassiveParked? && !p.woken ==> l.sending)
    && (p.NonPassiveParked? && !p.woken ==> Blocked(l, p.ticket))
  }

  ghost predicate LaneFits(l: Lane, who: map<nat, nat>) {
    && l.turns >= 0 && l.sends >= 0
    && l.serving <= l.next && l.serving !in l.cancelled
    && (forall t :: t in l.cancelled ==> l.serving <= t < l.next)
    && (forall t :: t in who <==> l.serving <= t < l.next && t !in l.cancelled)
  }

  /** `who` names the caller behind each live ticket and `occupant` the sender, if any. */
  ghost predicate Tracked(s: Sys, who: map<nat, nat>, occupant: int) {
    && s.lane.users == |s.callers|
    && LaneFits(s.lane, who)
    && (forall t :: t in who ==> who[t] in s.callers && Held(s.callers[who[t]]) == t)
    && (forall c :: c in s.callers ==> CallerFits(s.lane, who, occupant, c, s.callers[c]))
  }

  ghost predicate Inv(s: Sys) {
    exists who, occupant :: Tracked(s, who, occupant)
  }

  /** Skip drops exactly the cancelled tickets it passes and stops at the first live one. */
  lemma {:induction false} SkipStopsAtLive(l: Lane)
    ensures var m := Skip(l);
            && m == l.(serving := m.serving, cancelled := m.cancelled)
            && l.serving <= m.serving && m.serving !in m.cancelled
            && (forall t :: l.serving <= t < m.serving ==> t in l.cancelled)
            && (forall t :: t in m.cancelled <==> t in l.cancelled && !(l.serving <= t < m.serving))
    decreases l.cancelled
  {
    if l.serving in l.cancelled {
      SkipStopsAtLive(l.(cancelled := l.cancelled - {l.serving}, serving := l.serving + 1));
    }
  }

  /** The lane after a non-passive caller left, before and after skipping. */
  lemma LeaveLane(l: Lane, who: map<nat, nat>, drawn: nat, sent: bool) returns (rest: map<nat, nat>)
    requires LaneFits(l, who) && drawn in who && (sent ==> drawn == l.serving)
    ensures rest == who - {drawn} && LaneFits(NonPassiveLeave(l, drawn, sent), rest)
    ensures NonPassiveLeave(l, drawn, sent).serving >= if sent then l.serving + 1 else l.serving
    ensures NonPassiveLeave(l, drawn, sent).sending == (l.sending && !sent)
    ensures !sent && drawn != l.serving ==> NonPassiveLeave(l, drawn, sent).serving == l.serving
    ensures NonPassiveLeave(l, drawn, sent).users == l.users
    ensures NonPassiveLeave(l, drawn, sent).sends == l.sends
  {
    rest := who - {drawn};
    var before := if sent then l.(serving := l.serving + 1, sending := false)
                  else l.(cancelled := l.cancelled + {drawn});
    SkipStopsAtLive(before);
    assert Skip(before).serving > l.next ==> l.next in before.cancelled;
  }

  lemma EnterStep(s: Sys, c: nat, p: Phase, who: map<nat, nat>, occupant: int)
    requires Tracked(s, who, occupant) && Enabled(s, Enter(c, p))
    ensures Tracked(Step(s, Enter(c, p)), who, occupant)
  {
  }

  lemma NonPassiveEnterStep(s: Sys, c: nat, who: map<nat, nat>, occupant: int) returns (w: map<nat, nat>, o: int)
    requires Tracked(s, who, occupant) && c in s.callers && s.callers[c].NonPassiveEntered?
    ensures Tracked(RunStep(s, c), w, o)
  {
    w := who[s.lane.next := c];
    o := if RunStep(s, c).callers[c].NonPassiveSending? then c else occupant;
    assert |s.callers[c := RunStep(s, c).callers[c]]| == |s.callers|;
  }

  lemma RetryStep(s: Sys, c: nat, who: map<nat, nat>, occupant: int) returns (o: int)
    requires Tracked(s, who, occupant) && c in s.callers && s.callers[c].NonPassiveParked?
    ensures Tracked(RunStep(s, c), who, o)
  {
    o := if RunStep(s, c).callers[c].NonPassiveSending? then c else occupant;
  }

  lemma GoneCount(callers: map<nat, Phase>, c: nat)
    requires c in callers
    ensures |callers - {c}| == |callers| - 1 == |WakeAll(callers - {c})|
  {
    assert (callers - {c}).Keys == callers.Keys - {c};
    assert WakeAll(callers - {c}).Keys == callers.Keys - {c};
  }

  /** The user count plays no part in what holds of a caller. */
  lemma FitsWhateverUsers(l: Lane, n: Lane, w: map<nat, nat>, occupant: int, d: nat, p: Phase)
    requires n == l.(users := n.users)
    ensures CallerFits(n, w, occupant, d, p) == CallerFits(l, w, occupant, d, p)
  {
  }

  /** Taking caller `c` out, with the lane and the ticket register it leaves behind. */
  lemma Depart(s: Sys, c: nat, l: Lane, notify: bool, who: map<nat, nat>, w: map<nat, nat>, occupant: int)
    requires Tracked(s, who, occupant) && c in s.callers && LaneFits(l, w) && l.users == s.lane.users
    requires forall t :: t in w ==> t in who && who[t] == w[t] != c
    requires forall d :: d in s.callers && d != c ==>
               CallerFits(l, w, occupant, d, if notify then Wake(s.callers[d]) else s.callers[d])
    ensures Tracked(Gone(l, s.callers, c, notify), w, occupant)
  {
    GoneCount(s.callers, c);
    var n := Gone(l, s.callers, c, notify);
    forall t | t in w
      ensures w[t] in n.callers && Held(n.callers[w[t]]) == t
    {
      assert who[t] in s.callers && Held(s.callers[who[t]]) == t;
    }
    forall d | d in n.callers
      ensures CallerFits(n.lane, w, occupant, d, n.callers[d])
    {
      assert d in s.callers && d != c;
      FitsWhateverUsers(l, n.lane, w, occupant, d, n.callers[d]);
    }
  }

  lemma LeaveStep(s: Sys, c: nat, who: map<nat, nat>, occupant: int) returns (w: map<nat, nat>)
    requires Tracked(s, who, occupant) && c in s.callers && s.callers[c].NonPassiveLeaving?
    ensures Tracked(RunStep(s, c), w, occupant)
  {
    w := who;
    var p := s.callers[c];
    assert CallerFits(s.lane, who, occupant, c, p);
    if p.drawn >= 0 {
      w := LeaveLane(s.lane, who, p.drawn, p.sent);
    }
    var l := NonPassiveLeave(s.lane, p.drawn, p.sent);
    forall d | d in s.callers && d != c
      ensures CallerFits(l, w, occupant, d, Wake(s.callers[d]))
    {
      assert CallerFits(s.lane, who, occupant, d, s.callers[d]);
    }
    Depart(s, c, l, true, who, w, occupant);
  }

  lemma MarkStep(s: Sys, c: nat, who: map<nat, nat>, occupant: int)
    requires Tracked(s, who, occupant) && c in s.callers && s.callers[c].Marking?
    ensures Tracked(RunStep(s, c), who, occupant)
  {
    var l := Mark(s.lane, s.callers[c].kind);
    forall d | d in s.callers && d != c
      ensures CallerFits(l, who, occupant, d, Wake(s.callers[d]))
    {
      assert CallerFits(s.lane, who, occupant, d, s.callers[d]);
    }
    Depart(s, c, l, true, who, who, occupant);
  }

  lemma PassiveLeaveStep(s: Sys, c: nat, who: map<nat, nat>, occupant: int)
    requires Tracked(s, who, occupant) && c in s.callers && s.callers[c].PassiveLeaving?
    ensures Tracked(RunStep(s, c), who, occupant)
  {
    var p := s.callers[c];
    var (l, raised) := PassiveLeave(s.lane, p.owns, p.sent);
    assert CallerFits(s.lane, who, occupant, c, p);
    forall d | d in s.callers && d != c
      ensures CallerFits(l, who, occupant, d, if p.owns && !raised then Wake(s.callers[d]) else s.callers[d])
    {
      assert CallerFits(s.lane, who, occupant, d, s.callers[d]);
    }
    Depart(s, c, l, p.owns && !raised, who, who, occupant);
  }

  lemma PassiveTryStep(s: Sys, c: nat, who: map<nat, nat>, occupant: int) returns (o: int)
    requires Tracked(s, who, occupant) && c in s.callers
    requires s.callers[c].PassiveEntered? || s.callers[c].PassiveParked? || s.callers[c].PassiveSending?
    ensures Tracked(RunStep(s, c), who, o)
  {
    o := if RunStep(s, c).callers[c].PassiveSending? then c else occupant;
  }

  lemma NonPassiveSentStep(s: Sys, c: nat, who: map<nat, nat>, occupant: int)
    requires Tracked(s, who, occupant) && c in s.callers && s.callers[c].NonPassiveSending?
    ensures Tracked(RunStep(s, c), who, occupant)
  {
  }

  lemma InterruptKeepsTracked(s: Sys, c: nat, who: map<nat, nat>, occupant: int)
    requires Tracked(s, who, occupant) && Enabled(s, Interrupt(c))
    ensures Tracked(Step(s, Interrupt(c)), who, occupant)
  {
    if s.callers[c].Marking? {
      Depart(s, c, s.lane, false, who, who, occupant);
    }
  }

  lemma StepKeepsInv(s: Sys, a: Action)
    requires Inv(s) && Enabled(s, a)
    ensures Inv(Step(s, a))
  {
    var who, occupant :| Tracked(s, who, occupant);
    match a
    case Enter(c, p) => EnterStep(s, c, p, who, occupant);
    case Interrupt(c) => InterruptKeepsTracked(s, c, who, occupant);
    case Run(c) =>
      match s.callers[c] {
        case NonPassiveEntered => var w, o := NonPassiveEnterStep(s, c, who, occupant);
        case NonPassiveParked(_, _) => var o := RetryStep(s, c, who, occupant);
        case NonPassiveSending(_) => NonPassiveSentStep(s, c, who, occupant);
        case NonPassiveLeaving(_, _) => var w := LeaveStep(s, c, who, occupant);
        case Marking(_) => MarkStep(s, c, who, occupant);
        case PassiveLeaving(_, _) => PassiveLeaveStep(s, c, who, occupant);
        case _ => var o := PassiveTryStep(s, c, who, occupant);
      }
  }

  /** The invariant holds in every state of every interleaving. */
  lemma {:induction false} RunsKeepInv(states: seq<Sys>, acts: seq<Action>, i: nat)
    requires IsRun(states, acts) && i < |states|
    ensures Inv(states[i])
  {
    if i == 0 {
      assert Tracked(IDLE, map[], -1);
    } else {
      RunsKeepInv(states, acts, i - 1);
      StepKeepsInv(states[i - 1], acts[i - 1]);
    }
  }

  // ---------------------------------------------------------------------------
  // What the invariant says
  // ---------------------------------------------------------------------------

  /** Main result: in every reachable state the tickets in [serving, next) are the
      disjoint union of the cancelled ones and those held by exactly one caller, and the
      serving ticket is not cancelled. */
  lemma TicketsSplit(states: seq<Sys>, acts: seq<Action>, i: nat, t: nat)
    requires IsRun(states, acts) && i < |states|
    ensures var s := states[i];
            && s.lane.serving <= s.lane.next && s.lane.serving !in s.lane.cancelled
            && (s.lane.serving <= t < s.lane.next <==>
                (t in s.lane.cancelled) != (exists c :: c in s.callers && Held(s.callers[c]) == t))
            && (forall c, d :: c in s.callers && d in s.callers && Held(s.callers[c]) == t && Held(s.callers[d]) == t ==> c == d)
  {
    RunsKeepInv(states, acts, i);
    var s := states[i];
    var who, occupant :| Tracked(s, who, occupant);
    if t in who {
      assert Held(s.callers[who[t]]) == t;
    }
  }

  /** Main result: at most one caller of a lane is ever sending, and a non-passive sender
      is the one whose ticket is being served. */
  lemma OneSender(states: seq<Sys>, acts: seq<Action>, i: nat, c: nat, d: nat)
    requires IsRun(states, acts) && i < |states|
    requires c in states[i].callers && d in states[i].callers
    requires Occupies(states[i].callers[c]) && Occupies(states[i].callers[d])
    ensures c == d && states[i].lane.sending
    ensures Held(states[i].callers[c]) >= 0 ==> Held(states[i].callers[c]) == states[i].lane.serving
  {
    RunsKeepInv(states, acts, i);
    var who, occupant :| Tracked(states[i], who, occupant);
    assert CallerFits(states[i].lane, who, occupant, c, states[i].callers[c]);
    assert CallerFits(states[i].lane, who, occupant, d, states[i].callers[d]);
  }

  // ---------------------------------------------------------------------------
  // Order of non-passive sends
  // ---------------------------------------------------------------------------

  /** The step makes `a.c` a non-passive sender with ticket `t`. */
  predicate StartsNonPassive(s: Sys, a: Action, t: nat)
    requires Enabled(s, a)
  {
    a.Run? && !s.callers[a.c].NonPassiveSending? &&
    a.c in Step(s, a).callers && Step(s, a).callers[a.c] == NonPassiveSending(t)
  }

  /** A non-passive send starts only on the serving ticket and with no passive work counted. */
  lemma NonPassiveStartsAlone(s: Sys, a: Action, t: nat)
    requires Inv(s) && Enabled(s, a) && StartsNonPassive(s, a, t)
    ensures s.lane.turns == 0 && s.lane.sends == 0 && !s.lane.sending
    ensures t == Step(s, a).lane.serving == s.lane.serving
    ensures forall d :: d in s.callers ==> !Occupies(s.callers[d])
  {
    var who, occupant :| Tracked(s, who, occupant);
    assert forall d :: d in s.callers ==> CallerFits(s.lane, who, occupant, d, s.callers[d]);
  }

  /** Ticket `t` has been served, or its holder is being served right now. */
  ghost predicate Started(s: Sys, t: nat) {
    t < s.lane.serving ||
    (t == s.lane.serving && exists c :: c in s.callers && Occupies(s.callers[c]) && Held(s.callers[c]) == t)
  }

  lemma SkipsKeepTurns()
    ensures forall l :: Skip(l).turns == l.turns
  {
    forall l
      ensures Skip(l).turns == l.turns
    {
      SkipStopsAtLive(l);
    }
  }

  /** What a step does to the number of announced turns. */
  function TurnsAfter(turns: int, s: Sys, a: Action): int
    requires Enabled(s, a)
  {
    if a.Run? && s.callers[a.c] == Marking(TurnPending) then turns + 1
    else if a.Run? && s.callers[a.c] == Marking(TurnDone) && turns > 0 then turns - 1
    else turns
  }

  lemma TurnsStep(s: Sys, a: Action)
    requires Enabled(s, a)
    ensures Step(s, a).lane.turns == TurnsAfter(s.lane.turns, s, a)
  {
    SkipsKeepTurns();
    hide Skip;
  }

  /** The announced turns: marks done so far, less those taken back. */
  ghost function MarkedTurns(states: seq<Sys>, acts: seq<Action>, i: nat): int
    requires IsRun(states, acts) && i < |states|
  {
    if i == 0 then 0 else TurnsAfter(MarkedTurns(states, acts, i - 1), states[i - 1], acts[i - 1])
  }

  /** The lane counts exactly the announced turns. */
  lemma {:induction false} TurnsCountMarks(states: seq<Sys>, acts: seq<Action>, i: nat)
    requires IsRun(states, acts) && i < |states|
    ensures states[i].lane.turns == MarkedTurns(states, acts, i)
  {
    if i > 0 {
      TurnsCountMarks(states, acts, i - 1);
      assert Enabled(states[i - 1], acts[i - 1]) && states[i - 1 + 1] == Step(states[i - 1], acts[i - 1]);
      hide Step, Enabled;
      TurnsStep(states[i - 1], acts[i - 1]);
    }
  }

  /** No non-passive send starts before all announced turns are done. */
  lemma NonPassiveWaitsForTurns(states: seq<Sys>, acts: seq<Action>, i: nat, t: nat)
    requires IsRun(states, acts) && i < |acts|
    requires Enabled(states[i], acts[i]) && StartsNonPassive(states[i], acts[i], t)
    ensures MarkedTurns(states, acts, i) == 0
  {
    RunsKeepInv(states, acts, i);
    TurnsCountMarks(states, acts, i);
    hide IsRun, MarkedTurns;
    NonPassiveStartsAlone(states[i], acts[i], t);
  }

  lemma ServingNeverDrops(s: Sys, a: Action)
    requires Inv(s) && Enabled(s, a)
    ensures Step(s, a).lane.serving >= s.lane.serving
    ensures a.Run? && s.callers[a.c].NonPassiveLeaving? && s.callers[a.c].sent ==>
              Step(s, a).lane.serving > s.lane.serving
    ensures Step(s, a).lane.serving == s.lane.serving || (a.Run? && s.callers[a.c].NonPassiveLeaving? && s.callers[a.c].drawn >= 0)
  {
    var who, occupant :| Tracked(s, who, occupant);
    if a.Run? && s.callers[a.c].NonPassiveLeaving? {
      assert CallerFits(s.lane, who, occupant, a.c, s.callers[a.c]);
      if s.callers[a.c].drawn >= 0 {
        var rest := LeaveLane(s.lane, who, s.callers[a.c].drawn, s.callers[a.c].sent);
      }
    }
  }

  /** Only its own section, or an interrupt, moves a caller out of its phase. */
  lemma OthersKeepTicket(s: Sys, a: Action, c: nat)
    requires Enabled(s, a) && c in s.callers && c != a.c
    ensures c in Step(s, a).callers
    ensures Occupies(Step(s, a).callers[c]) == Occupies(s.callers[c])
    ensures Held(Step(s, a).callers[c]) == Held(s.callers[c])
  {
  }

  lemma StartedStays(s: Sys, a: Action, t: nat)
    requires Inv(s) && Enabled(s, a) && Started(s, t)
    ensures Started(Step(s, a), t)
  {
    ServingNeverDrops(s, a);
    if t == s.lane.serving {
      var c :| c in s.callers && Occupies(s.callers[c]) && Held(s.callers[c]) == t;
      if c != a.c {
        OthersKeepTicket(s, a, c);
      } else if !s.callers[c].NonPassiveLeaving? {
        assert c in Step(s, a).callers && Occupies(Step(s, a).callers[c]) && Held(Step(s, a).callers[c]) == t;
      }
    }
  }

  lemma {:induction false} StartedStaysInRun(states: seq<Sys>, acts: seq<Action>, i: nat, j: nat, t: nat)
    requires IsRun(states, acts) && i <= j < |states| && Started(states[i], t)
    ensures Started(states[j], t)
    decreases j - i
  {
    if i < j {
      StartedStaysInRun(states, acts, i, j - 1, t);
      RunsKeepInv(states, acts, j - 1);
      StartedStays(states[j - 1], acts[j - 1], t);
    }
  }

  /** Non-passive sends start in ticket order, which is arrival order. */
  lemma NonPassiveSendsStartInTicketOrder(states: seq<Sys>, acts: seq<Action>, i: nat, j: nat, t: nat, u: nat)
    requires IsRun(states, acts) && i < j < |acts|
    requires Enabled(states[i], acts[i]) && StartsNonPassive(states[i], acts[i], t)
    requires Enabled(states[j], acts[j]) && StartsNonPassive(states[j], acts[j], u)
    ensures t < u
  {
    RunsKeepInv(states, acts, i);
    RunsKeepInv(states, acts, j);
    NonPassiveStartsAlone(states[i], acts[i], t);
    NonPassiveStartsAlone(states[j], acts[j], u);
    var n := states[i + 1];
    assert acts[i].c in n.callers && Occupies(n.callers[acts[i].c]) && Held(n.callers[acts[i].c]) == t;
    StartedStaysInRun(states, acts, i + 1, j, t);
  }

  // ---------------------------------------------------------------------------
  // Progress
  // ---------------------------------------------------------------------------

  predicate Parked(p: Phase) {
    p.PassiveParked? || p.NonPassiveParked?
  }

  /** The caller is scheduled, and its next section makes it the sender. */
  ghost predicate Ready(s: Sys, c: nat) {
    Enabled(s, Run(c)) && c in RunStep(s, c).callers && Occupies(RunStep(s, c).callers[c])
  }

  /** A quiet lane with someone parked always has a parked caller that is woken and
      gets through: the queue can never hang on its own. */
  lemma QuietLaneHasReadyWaiter(s: Sys)
    requires Inv(s) && s.callers != map[]
    requires forall c :: c in s.callers ==> Parked(s.callers[c])
    requires !s.lane.sending && s.lane.turns == 0
    requires s.lane.sends == 0 || exists c :: c in s.callers && s.callers[c].PassiveParked?
    ensures exists c :: c in s.callers && Ready(s, c)
  {
    if c :| c in s.callers && s.callers[c].PassiveParked? {
      var who, occupant :| Tracked(s, who, occupant);
      assert CallerFits(s.lane, who, occupant, c, s.callers[c]);
      assert Ready(s, c);
    } else {
      var c := ServedWaiter(s);
      assert Ready(s, c);
    }
  }

  /** With only non-passive callers parked, the serving ticket belongs to one of them. */
  lemma ServedWaiter(s: Sys) returns (c: nat)
    requires Inv(s) && s.callers != map[] && !s.lane.sending && s.lane.turns == 0 && s.lane.sends == 0
    requires forall d :: d in s.callers ==> s.callers[d].NonPassiveParked?
    ensures c in s.callers && s.callers[c] == NonPassiveParked(s.lane.serving, true)
  {
    var who, occupant :| Tracked(s, who, occupant);
    var any :| any in s.callers;
    assert CallerFits(s.lane, who, occupant, any, s.callers[any]);
    assert s.lane.serving in who;
    c := who[s.lane.serving];
    assert CallerFits(s.lane, who, occupant, c, s.callers[c]);
  }

  // ---------------------------------------------------------------------------
  // The pending-send discipline
  // ---------------------------------------------------------------------------

  /** The caller answers for one unit of `sends`. */
  predicate OwnsSend(p: Phase) {
    match p
    case Marking(kind) => kind == SendDone
    case PassiveEntered(registered) => registered
    case PassiveParked(_) => true
    case PassiveSending => true
    case PassiveLeaving(owns, _) => owns
    case _ => false
  }

  function Owners(callers: map<nat, Phase>): set<nat> {
    set c | c in callers && OwnsSend(callers[c])
  }

  /** `pending` units were marked by the queue and not yet handed to a caller. */
  predicate Disciplined(pending: nat, a: Action) {
    a.Enter? && OwnsSend(a.phase) ==> pending > 0
  }

  function PendingAfter(pending: nat, s: Sys, a: Action): int
    requires Enabled(s, a)
  {
    match a
    case Enter(_, p) => if OwnsSend(p) then pending - 1 else pending
    case Run(c) => if s.callers[c] == Marking(SendPending) then pending + 1 else pending
    case Interrupt(c) => if s.callers[c] == Marking(SendDone) then pending + 1 else pending
  }

  /** Every counted send is either pending or owned, and the lane is held only by a live sender. */
  ghost predicate Balanced(s: Sys, pending: nat) {
    && s.lane.sends == pending + |Owners(s.callers)|
    && (s.lane.sending ==> exists c :: c in s.callers && Occupies(s.callers[c]))
    && (forall c :: c in s.callers && s.callers[c].PassiveLeaving? && s.callers[c].sent ==> s.callers[c].owns)
  }

  lemma WakeKeepsOwners(callers: map<nat, Phase>)
    ensures Owners(WakeAll(callers)) == Owners(callers)
  {
    assert forall c :: c in callers ==> OwnsSend(Wake(callers[c])) == OwnsSend(callers[c]);
  }

  lemma OwnersAfter(callers: map<nat, Phase>, c: nat, p: Phase)
    ensures Owners(callers[c := p]) == if OwnsSend(p) then Owners(callers) + {c} else Owners(callers) - {c}
    ensures Owners(callers - {c}) == Owners(callers) - {c}
  {
  }

  lemma LeaveKeepsSends(s: Sys, c: nat)
    requires Inv(s) && c in s.callers && s.callers[c].NonPassiveLeaving?
    ensures RunStep(s, c).lane.sends == s.lane.sends
    ensures RunStep(s, c).lane.sending ==> s.lane.sending && !s.callers[c].sent
  {
    var who, occupant :| Tracked(s, who, occupant);
    assert CallerFits(s.lane, who, occupant, c, s.callers[c]);
    if s.callers[c].drawn >= 0 {
      var rest := LeaveLane(s.lane, who, s.callers[c].drawn, s.callers[c].sent);
    }
  }

  /** A section that keeps its caller changes `sends` by what the caller then owns. */
  lemma SendsFollowOwner(s: Sys, a: Action)
    requires Inv(s) && Enabled(s, a)
    ensures var n := Step(s, a);
            var before := if a.c in s.callers && OwnsSend(s.callers[a.c]) then 1 else 0;
            var after := if a.c in n.callers && OwnsSend(n.callers[a.c]) then 1 else 0;
            var given := PendingAfter(0, s, a);
            s.lane.sends >= before ==> n.lane.sends - s.lane.sends == given + after - before
  {
    if a.Run? && s.callers[a.c].NonPassiveLeaving? {
      LeaveKeepsSends(s, a.c);
    }
  }

  lemma OwnersStep(s: Sys, a: Action, pending: nat)
    requires Inv(s) && Balanced(s, pending) && Enabled(s, a) && Disciplined(pending, a)
    ensures PendingAfter(pending, s, a) >= 0
    ensures Step(s, a).lane.sends == PendingAfter(pending, s, a) + |Owners(Step(s, a).callers)|
  {
    SendsFollowOwner(s, a);
    OwnersOfStep(s, a);
    assert PendingAfter(pending, s, a) == pending + PendingAfter(0, s, a);
    assert a.c in s.callers && OwnsSend(s.callers[a.c]) <==> a.c in Owners(s.callers);
  }

  lemma OwnersOfStep(s: Sys, a: Action)
    requires Enabled(s, a)
    ensures var n := Step(s, a);
            Owners(n.callers) == if a.c in n.callers && OwnsSend(n.callers[a.c]) then Owners(s.callers) + {a.c}
                                 else Owners(s.callers) - {a.c}
  {
    var n := Step(s, a);
    if a.c in n.callers {
      OwnersAfter(s.callers, a.c, n.callers[a.c]);
    } else {
      OwnersAfter(s.callers, a.c, Marking(TurnDone));
      WakeKeepsOwners(s.callers - {a.c});
    }
  }

  lemma FlagStep(s: Sys, a: Action, pending: nat)
    requires Inv(s) && Balanced(s, pending) && Enabled(s, a) && Step(s, a).lane.sending
    ensures exists c :: c in Step(s, a).callers && Occupies(Step(s, a).callers[c])
  {
    var n := Step(s, a);
    if s.lane.sending {
      var c :| c in s.callers && Occupies(s.callers[c]);
      if c != a.c {
        OthersKeepTicket(s, a, c);
      } else {
        if s.callers[c].NonPassiveLeaving? {
          LeaveKeepsSends(s, c);
        }
        assert OwnsSend(s.callers[c]) ==> c in Owners(s.callers) && |Owners(s.callers)| >= 1;
        assert c in n.callers && Occupies(n.callers[c]);
      }
    } else {
      if a.Run? && s.callers[a.c].NonPassiveLeaving? {
        LeaveKeepsSends(s, a.c);
      }
      assert a.c in n.callers && Occupies(n.callers[a.c]);
    }
  }

  lemma BalancedStep(s: Sys, a: Action, pending: nat)
    requires Inv(s) && Balanced(s, pending) && Enabled(s, a) && Disciplined(pending, a)
    ensures PendingAfter(pending, s, a) >= 0
    ensures Balanced(Step(s, a), PendingAfter(pending, s, a))
  {
    OwnersStep(s, a, pending);
    if Step(s, a).lane.sending {
      FlagStep(s, a, pending);
    }
    SentImpliesOwns(s, a);
  }

  lemma SentImpliesOwns(s: Sys, a: Action)
    requires Enabled(s, a)
    requires forall c :: c in s.callers && s.callers[c].PassiveLeaving? && s.callers[c].sent ==> s.callers[c].owns
    ensures var n := Step(s, a);
            forall c :: c in n.callers && n.callers[c].PassiveLeaving? && n.callers[c].sent ==> n.callers[c].owns
  {
    forall c | c in Step(s, a).callers && c != a.c
      ensures c in s.callers && (Step(s, a).callers[c].PassiveLeaving? ==> Step(s, a).callers[c] == s.callers[c])
    {
    }
  }

  /** The pending count along a run that respects the discipline. */
  ghost predicate IsDisciplinedRun(states: seq<Sys>, acts: seq<Action>, pending: seq<nat>) {
    IsRun(states, acts) && |pending| == |states| && pending[0] == 0 &&
    forall i :: 0 <= i < |acts| ==>
      Disciplined(pending[i], acts[i]) && pending[i + 1] == PendingAfter(pending[i], states[i], acts[i])
  }

  /** With every `mark_passive_send_done` and registered send matched to a mark, the
      count is exact and the sending flag is held by a live caller in every state. */
  lemma {:induction false} DisciplinedRunsStayBalanced(states: seq<Sys>, acts: seq<Action>, pending: seq<nat>, i: nat)
    requires IsDisciplinedRun(states, acts, pending) && i < |states|
    ensures Balanced(states[i], pending[i])
  {
    if i > 0 {
      DisciplinedRunsStayBalanced(states, acts, pending, i - 1);
      RunsKeepInv(states, acts, i - 1);
      BalancedStep(states[i - 1], acts[i - 1], pending[i - 1]);
    }
  }

  /** Under the discipline a lane with nothing pending, no passive turn and only parked
      callers always has one of them ready. */
  lemma DisciplinedLaneNeverHangs(states: seq<Sys>, acts: seq<Action>, pending: seq<nat>, i: nat)
    requires IsDisciplinedRun(states, acts, pending) && i < |states|
    requires pending[i] == 0 && states[i].lane.turns == 0 && states[i].callers != map[]
    requires forall c :: c in states[i].callers ==> Parked(states[i].callers[c])
    ensures exists c :: c in states[i].callers && Ready(states[i], c)
  {
    DisciplinedRunsStayBalanced(states, acts, pending, i);
    RunsKeepInv(states, acts, i);
    if states[i].lane.sends > 0 {
      var c :| c in Owners(states[i].callers);
      assert states[i].callers[c].PassiveParked?;
    }
    QuietLaneHasReadyWaiter(states[i]);
  }

  /** A finished passive send frees the lane exactly when its count is still there. */
  lemma PassiveLeaveFreesIffCounted(s: Sys, c: nat)
    requires Inv(s) && c in s.callers && s.callers[c] == PassiveLeaving(true, true)
    ensures !RunStep(s, c).lane.sending <==> s.lane.sends > 0
    ensures PassiveLeave(s.lane, true, true).1 <==> RunStep(s, c).lane.sending
  {
  }

  /** One unmatched `mark_passive_send_done` during a send is enough to take that count
      away: the lane then stays locked although no caller is left. */
  lemma UnmatchedDoneLocksLane() returns (states: seq<Sys>, acts: seq<Action>)
    ensures IsRun(states, acts)
    ensures states[|acts|].callers == map[] && states[|acts|].lane.sending
  {
    acts := [Enter(0, PassiveEntered(false)), Run(0), Enter(1, Marking(SendDone)), Run(1), Run(0), Run(0)];
    var s1 := Step(IDLE, acts[0]);
    var s2 := Step(s1, acts[1]);
    var s3 := Step(s2, acts[2]);
    var s4 := Step(s3, acts[3]);
    assert s4.callers == map[0 := PassiveSending];
    var s5 := Step(s4, acts[4]);
    assert s5.callers == map[0 := PassiveLeaving(true, true)];
    var s6 := Step(s5, acts[5]);
    assert s6.callers == map[];
    states := [IDLE, s1, s2, s3, s4, s5, s6];
  }
}
