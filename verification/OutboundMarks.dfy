/** The outbound queue and the lane of one conversation, side by side.

    The queue marks a passive delivery before it is queued, and hands that mark over when
    the delivery leaves the queue: to the lane call that sends it, or to a done mark.
    Nobody else makes or takes such marks.  While the worker is at a delivery of the
    conversation, its steps are those of its lane call. */
module OutboundMarks {
  import L = ChatLane
  import O = Outbound
  import opened Wrappers

  /** `pending` counts the marks that were made and not yet handed over; `call` is the lane
      call of the worker. */
  datatype Joint = Joint(bus: O.Bus, lane: L.Sys, pending: int, call: nat)

  const START := Joint(O.EMPTY, L.IDLE, 0, 0)

  /** Steps of one side alone, and those in which the queue uses the lane: publisher `c`
      has made its mark and goes on, a delivery leaves the queue, and the worker moves on
      inside its lane call.  `d` is a new lane call. */
  datatype Action =
    | OnBus(a: O.Action)
    | OnLane(l: L.Action)
    | Resumes(id: nat, c: nat, d: nat)
    | Dequeues(a: O.Action, d: nat)
    | InCall(a: O.Action)

  /** A delivery of the conversation is next to leave the queue. */
  predicate ChatFront(b: O.Bus, chat: set<nat>) {
    b.queue != [] && b.queue[0] in chat && b.queue[0] in b.items
  }

  predicate MarkedFront(b: O.Bus, chat: set<nat>) {
    ChatFront(b, chat) && b.items[b.queue[0]].passive
  }

  /** The worker is at a delivery of the conversation. */
  predicate AtChat(b: O.Bus, chat: set<nat>) {
    O.Held(b.worker).Some? && O.Held(b.worker).value in chat
  }

  predicate FromQueue(a: O.Action) {
    a.DoTake? || a.DoDrain?
  }

  predicate ByWorker(a: O.Action) {
    O.OnWorker(a) || a.LookAtWorker?
  }

  // Where a lane call stands, for passive and other calls alike.

  predicate Waits(p: L.Phase) {
    p.PassiveEntered? || p.PassiveParked? || p.NonPassiveEntered? || p.NonPassiveParked?
  }

  predicate Sends(p: L.Phase) {
    p.PassiveSending? || p.NonPassiveSending?
  }

  predicate Leaves(p: L.Phase) {
    p.PassiveLeaving? || p.NonPassiveLeaving?
  }

  /** The next section of the call refuses it. */
  predicate Refuses(l: L.Lane, p: L.Phase) {
    p.PassiveEntered? && L.PassiveEnter(l, p.registered).1 == L.Refused
  }

  /** The last section of the call raises. */
  predicate Raises(l: L.Lane, p: L.Phase) {
    p.PassiveLeaving? && L.PassiveLeave(l, p.owns, p.sent).1
  }

  /** The lane call is where the worker's next step needs it. */
  predicate CallAllows(j: Joint, a: O.Action) {
    j.call in j.lane.callers &&
    var p := j.lane.callers[j.call];
    match a
    case LaneRefuses => Refuses(j.lane.lane, p)
    case DoSend(_) => Sends(p)
    case DoLeave(balanced) => Leaves(p) && (balanced <==> !Raises(j.lane.lane, p))
    case _ => true
  }

  /** A step of the lane alone; the worker's own call only waits for its turn by itself. */
  predicate LaneAllows(j: Joint, l: L.Action, chat: set<nat>) {
    match l
    case Enter(_, p) => !L.OwnsSend(p)
    case Run(c) =>
      c in j.lane.callers && j.lane.callers[c] != L.Marking(L.SendPending) &&
      (AtChat(j.bus, chat) && c == j.call ==> Waits(j.lane.callers[c]) && !Refuses(j.lane.lane, j.lane.callers[c]))
    case Interrupt(c) => !(AtChat(j.bus, chat) && c == j.call)
  }

  predicate Allowed(j: Joint, a: Action, chat: set<nat>) {
    match a
    case OnBus(act) =>
      O.Enabled(j.bus, act) && (act.DoResume? ==> act.id !in chat) && (FromQueue(act) ==> !ChatFront(j.bus, chat)) &&
      (ByWorker(act) ==> !AtChat(j.bus, chat))
    case OnLane(l) => LaneAllows(j, l, chat)
    case Resumes(id, c, _) =>
      id in chat && id in j.bus.marking && c in j.lane.callers && j.lane.callers[c] == L.Marking(L.SendPending)
    case Dequeues(act, _) => FromQueue(act) && O.Enabled(j.bus, act) && ChatFront(j.bus, chat)
    case InCall(act) => ByWorker(act) && O.Enabled(j.bus, act) && AtChat(j.bus, chat) && CallAllows(j, act)
  }

  function BusAct(a: Action): O.Action
    requires !a.OnLane?
  {
    match a
    case OnBus(act) => act
    case Resumes(id, _, _) => O.DoResume(id)
    case Dequeues(act, _) => act
    case InCall(act) => act
  }

  /** The lane call that a delivery leaving the queue begins, if any. */
  function Begins(b: O.Bus, act: O.Action): seq<L.Phase>
    requires b.queue != [] && b.queue[0] in b.items
  {
    var passive := b.items[b.queue[0]].passive;
    if act.DoTake? && !b.closed then [if passive then L.PassiveEntered(true) else L.NonPassiveEntered]
    else if passive then [L.Marking(L.SendDone)]
    else []
  }

  /** What a step of the worker is for its lane call. */
  function CallActs(j: Joint, act: O.Action): seq<L.Action>
    requires act.DoSend? ==> j.bus.worker.InLane? && j.bus.worker.id in j.bus.items
  {
    match act
    case DoSend(gate) => if O.StartSend(j.bus, gate).worker.Calling? then [] else [L.Run(j.call)]
    case DoCancel => if j.bus.worker.Leaving? then [] else [L.Interrupt(j.call)]
    case LookAtWorker => if j.bus.worker.InLane? then [L.Interrupt(j.call)] else []
    case _ => [L.Run(j.call)]
  }

  function LaneActs(j: Joint, a: Action): seq<L.Action>
    requires a.Dequeues? ==> j.bus.queue != [] && j.bus.queue[0] in j.bus.items
    requires a.InCall? && a.a.DoSend? ==> j.bus.worker.InLane? && j.bus.worker.id in j.bus.items
  {
    match a
    case OnBus(_) => []
    case OnLane(l) => [l]
    case Resumes(_, c, d) =>
      [L.Run(c)] + if j.bus.closed || j.bus.stopped then [L.Enter(d, L.Marking(L.SendDone))] else []
    case Dequeues(act, d) => if Begins(j.bus, act) == [] then [] else [L.Enter(d, Begins(j.bus, act)[0])]
    case InCall(act) => CallActs(j, act)
  }

  /** The lane takes some steps, and the pending marks are counted along. */
  ghost predicate LaneMoves(s: L.Sys, pending: int, ls: seq<L.Action>, t: L.Sys, after: int)
    decreases |ls|
  {
    if ls == [] then t == s && after == pending
    else L.Enabled(s, ls[0]) && LaneMoves(L.Step(s, ls[0]), pending + L.PendingAfter(0, s, ls[0]), ls[1..], t, after)
  }

  ghost predicate Moves(j: Joint, a: Action, chat: set<nat>, n: Joint) {
    && O.Known(j.bus) && Allowed(j, a, chat)
    && (if a.OnLane? then n.bus == j.bus else O.Moves(j.bus, BusAct(a), n.bus))
    && LaneMoves(j.lane, j.pending, LaneActs(j, a), n.lane, n.pending)
    && n.call == if a.Dequeues? && a.a.DoTake? then a.d else j.call
  }

  /** The deliveries numbered in `chat` are those of the lane's conversation. */
  ghost predicate IsRun(states: seq<Joint>, acts: seq<Action>, chat: set<nat>) {
    |states| == |acts| + 1 && states[0] == START &&
    forall i :: 0 <= i < |acts| ==> Moves(states[i], acts[i], chat, states[i + 1])
  }

  /** The queued deliveries whose marks the queue answers for. */
  function MarkedIn(b: O.Bus, chat: set<nat>): set<nat> {
    set id | id in b.queue && id in chat && id in b.items && b.items[id].passive
  }

  // ---------------------------------------------------------------------------
  // The queue never hands over a mark that was not made
  // ---------------------------------------------------------------------------

  lemma QueueIsDistinct(b: O.Bus, place: map<nat, O.Place>, head: int)
    requires O.Inv(b, place, head)
    ensures forall i, k :: 0 <= i < k < |b.queue| ==> b.queue[i] != b.queue[k]
    ensures forall id :: id in b.marking ==> id !in b.queue
  {
  }

  /** What one step of the bus does to its queue. */
  function QueueAfter(b: O.Bus, act: O.Action): seq<nat>
    requires O.Enabled(b, act)
  {
    match act
    case DoPublish(id, passive) => if b.closed || b.stopped || passive then b.queue else b.queue + [id]
    case DoResume(id) => if b.closed || b.stopped then b.queue else b.queue + [id]
    case DoTake => b.queue[1..]
    case DoDrain => if b.queue == [] then [] else b.queue[1..]
    case _ => b.queue
  }

  lemma StepQueue(b: O.Bus, act: O.Action)
    requires O.Known(b) && O.Enabled(b, act)
    ensures O.Step(b, act).queue == QueueAfter(b, act)
  {
    hide O.Known;
  }

  /** No step changes whether an item is passive. */
  lemma StepPassive(b: O.Bus, act: O.Action, id: nat)
    requires O.Known(b) && O.Enabled(b, act) && id in O.Step(b, act).items
    ensures if act.DoPublish? && act.id == id then O.Step(b, act).items[id].passive == act.passive
            else id in b.items && O.Step(b, act).items[id].passive == b.items[id].passive
  {
    if O.OnWorker(act) {
      WorkerKeepsPassive(b, act, id);
      hide O.Step;
    }
  }

  ghost predicate SamePassive(b: O.Bus, n: O.Bus) {
    n.items.Keys == b.items.Keys && forall id :: id in b.items ==> n.items[id].passive == b.items[id].passive
  }

  lemma DeathKeepsPassive(b: O.Bus, id: nat, error: bool)
    requires id in b.items
    ensures SamePassive(b, O.Die(b, id, error))
  {
  }

  lemma EndKeepsPassive(b: O.Bus, balanced: bool)
    requires O.Held(b.worker).Some? ==> O.Held(b.worker).value in b.items
    ensures b.worker.Leaving? ==> SamePassive(b, O.LeaveLane(b, balanced))
    ensures SamePassive(b, O.Cancel(b))
  {
    if b.worker.Leaving? {
      DeathKeepsPassive(b, b.worker.id, true);
      DeathKeepsPassive(b, b.worker.id, false);
    }
    hide O.Die;
  }

  lemma WorkerKeepsPassive(b: O.Bus, act: O.Action, id: nat)
    requires O.Known(b) && O.Enabled(b, act) && O.OnWorker(act)
    ensures SamePassive(b, O.Step(b, act))
  {
    EndKeepsPassive(b, act.DoLeave? && act.balanced);
    hide O.LeaveLane, O.Cancel;
  }

  /** Only passive deliveries are registering with the lane. */
  predicate MarkingIsPassive(b: O.Bus) {
    forall id :: id in b.marking ==> id in b.items && b.items[id].passive
  }

  lemma StepMarking(b: O.Bus, act: O.Action)
    requires O.Known(b) && O.Enabled(b, act) && MarkingIsPassive(b)
    ensures MarkingIsPassive(O.Step(b, act))
  {
    forall id | id in O.Step(b, act).marking
      ensures id in O.Step(b, act).items && O.Step(b, act).items[id].passive
    {
      MarkingBefore(b, act, id);
      if id in O.Step(b, act).items {
        StepPassive(b, act, id);
      }
      hide O.Step;
    }
  }

  lemma MarkingBefore(b: O.Bus, act: O.Action, id: nat)
    requires O.Known(b) && O.Enabled(b, act) && id in O.Step(b, act).marking
    ensures id in O.Step(b, act).items
    ensures id in b.marking || (act.DoPublish? && act.id == id && act.passive)
  {
    if O.OnWorker(act) {
      WorkerKeepsPassive(b, act, id);
      WorkerKeepsMarking(b, act);
      hide O.Step;
    }
  }

  lemma WorkerKeepsMarking(b: O.Bus, act: O.Action)
    requires O.Known(b) && O.Enabled(b, act) && O.OnWorker(act)
    ensures O.Step(b, act).marking == b.marking
  {
  }

  /** A step leaves a marked delivery in the queue if it was there and not taken, or if its
      publisher has just gone on. */
  lemma MarkedStep(b: O.Bus, act: O.Action, chat: set<nat>, id: nat)
    requires O.Known(b) && O.Enabled(b, act) && MarkingIsPassive(b)
    requires act.DoPublish? ==> act.id !in b.queue
    requires forall k :: 0 < k < |b.queue| ==> b.queue[k] != b.queue[0]
    requires forall x :: x in b.marking ==> x !in b.queue
    ensures id in MarkedIn(O.Step(b, act), chat) <==>
              (id in MarkedIn(b, chat) && !(FromQueue(act) && b.queue != [] && id == b.queue[0])) ||
              (act.DoResume? && act.id == id && id in chat && !b.closed && !b.stopped)
  {
    StepQueue(b, act);
    if id in b.items {
      KeepsQueued(b, act, id);
    }
    if id in O.Step(b, act).items {
      StepPassive(b, act, id);
    }
    hide O.Step;
    assert id in b.queue <==> (b.queue != [] && id == b.queue[0]) || (b.queue != [] && id in b.queue[1..]);
  }

  lemma KeepsQueued(b: O.Bus, act: O.Action, id: nat)
    requires O.Known(b) && O.Enabled(b, act) && id in b.items && (id in b.queue ==> id !in b.marking)
    ensures id in b.queue || act.DoResume? ==> id in O.Step(b, act).items
  {
    if O.OnWorker(act) {
      WorkerKeepsPassive(b, act, id);
      hide O.Step;
    }
  }

  lemma MarkedAfter(b: O.Bus, act: O.Action, chat: set<nat>, place: map<nat, O.Place>, head: int)
    requires O.Inv(b, place, head) && O.Known(b) && O.Enabled(b, act) && MarkingIsPassive(b)
    ensures MarkedIn(O.Step(b, act), chat) ==
              MarkedIn(b, chat) + (if act.DoResume? && !b.closed && !b.stopped && act.id in chat then {act.id} else {})
                                - (if FromQueue(act) && b.queue != [] then {b.queue[0]} else {})
    ensures act.DoResume? ==> act.id !in MarkedIn(b, chat)
  {
    QueueIsDistinct(b, place, head);
    forall id: nat
      ensures id in MarkedIn(O.Step(b, act), chat) <==>
                (id in MarkedIn(b, chat) && !(FromQueue(act) && b.queue != [] && id == b.queue[0])) ||
                (act.DoResume? && act.id == id && id in chat && !b.closed && !b.stopped)
    {
      MarkedStep(b, act, chat, id);
    }
    hide O.Inv, O.Step;
  }

  /** A done mark is cut short: its caller is interrupted before the mark was made, and
      nobody makes it any more. */
  predicate CutsShort(j: Joint, a: Action) {
    a.OnLane? && a.l.Interrupt? && a.l.c in j.lane.callers && j.lane.callers[a.l.c] == L.Marking(L.SendDone)
  }

  function CutShort(states: seq<Joint>, acts: seq<Action>, i: nat): nat
    requires i <= |acts| && i <= |states|
  {
    if i == 0 then 0 else CutShort(states, acts, i - 1) + if CutsShort(states[i - 1], acts[i - 1]) then 1 else 0
  }

  /** What the bus and the pending count owe each other: one pending mark for each queued
      passive delivery, and those of the `lost` done marks. */
  ghost predicate Covered(j: Joint, chat: set<nat>, place: map<nat, O.Place>, head: int, lost: nat) {
    O.Inv(j.bus, place, head) && O.Known(j.bus) && MarkingIsPassive(j.bus) && |MarkedIn(j.bus, chat)| + lost == j.pending
  }

  /** A step that hands a mark over. */
  predicate HandsOver(b: O.Bus, a: Action, chat: set<nat>) {
    a.Dequeues? && MarkedFront(b, chat)
  }

  /** How many marks a step makes, less those it hands over, as the queue sees it. */
  function Gain(b: O.Bus, a: Action, chat: set<nat>): int {
    if HandsOver(b, a, chat) then -1 else if a.Resumes? && !b.closed && !b.stopped then 1 else 0
  }

  lemma MarkedGain(j: Joint, a: Action, chat: set<nat>, n: Joint, place: map<nat, O.Place>, head: int, lost: nat)
    requires Covered(j, chat, place, head, lost) && Moves(j, a, chat, n)
    ensures |MarkedIn(n.bus, chat)| == |MarkedIn(j.bus, chat)| + Gain(j.bus, a, chat)
    ensures HandsOver(j.bus, a, chat) ==> |MarkedIn(j.bus, chat)| > 0
    ensures MarkingIsPassive(n.bus)
  {
    hide LaneMoves, O.Inv, O.Step, O.Known, CallAllows, LaneAllows, LaneActs, MarkedIn, MarkingIsPassive, O.Enabled;
    if !a.OnLane? {
      var act := BusAct(a);
      assert O.Known(j.bus) && O.Enabled(j.bus, act) && n.bus == O.Step(j.bus, act);
      MarkedAfter(j.bus, act, chat, place, head);
      StepMarking(j.bus, act);
      Leaving(j, a, chat);
      SizeAfter(MarkedIn(j.bus, chat), MarkedIn(n.bus, chat),
                if act.DoResume? && !j.bus.closed && !j.bus.stopped && act.id in chat then {act.id} else {},
                if FromQueue(act) && j.bus.queue != [] then {j.bus.queue[0]} else {});
    }
  }

  lemma SizeAfter(m: set<nat>, n: set<nat>, more: set<nat>, less: set<nat>)
    requires n == m + more - less && more !! m && more !! less && |more| <= 1 && |less| <= 1
    ensures |n| == |m| + |more| - |less * m|
  {
    assert n == (m - less) + more;
    assert m == (m - less) + less * m;
  }

  /** Which delivery of the conversation leaves the queue with a mark. */
  lemma Leaving(j: Joint, a: Action, chat: set<nat>)
    requires O.Known(j.bus) && Allowed(j, a, chat) && !a.OnLane?
    ensures var act, b := BusAct(a), j.bus;
            && (act.DoResume? && act.id in chat <==> a.Resumes?)
            && (FromQueue(act) && b.queue != [] ==>
                  {b.queue[0]} * MarkedIn(b, chat) == if HandsOver(b, a, chat) then {b.queue[0]} else {})
            && (HandsOver(b, a, chat) ==> b.queue != [] && b.queue[0] in MarkedIn(b, chat) && FromQueue(act))
            && !(act.DoResume? && FromQueue(act))
  {
  }

  // ---------------------------------------------------------------------------
  // The run of the lane
  // ---------------------------------------------------------------------------

  /** A disciplined run of the lane that ends here. */
  datatype Course = Course(states: seq<L.Sys>, acts: seq<L.Action>, pending: seq<nat>)

  ghost predicate Leads(r: Course, s: L.Sys, pending: int) {
    L.IsDisciplinedRun(r.states, r.acts, r.pending) && r.states[|r.acts|] == s && r.pending[|r.acts|] == pending
  }

  lemma Extend(r: Course, s: L.Sys, pending: nat, l: L.Action) returns (e: Course)
    requires Leads(r, s, pending) && L.Enabled(s, l) && L.Disciplined(pending, l)
    ensures Leads(e, L.Step(s, l), pending + L.PendingAfter(0, s, l))
  {
    hide L.Step;
    var after := L.PendingAfter(pending, s, l);
    e := Course(r.states + [L.Step(s, l)], r.acts + [l], r.pending + [after]);
    forall i | 0 <= i < |e.acts|
      ensures L.Enabled(e.states[i], e.acts[i]) && e.states[i + 1] == L.Step(e.states[i], e.acts[i])
      ensures L.Disciplined(e.pending[i], e.acts[i]) && e.pending[i + 1] == L.PendingAfter(e.pending[i], e.states[i], e.acts[i])
    {
      if i < |r.acts| {
        assert e.acts[i] == r.acts[i] && e.states[i] == r.states[i] && e.states[i + 1] == r.states[i + 1];
      }
    }
  }

  /** What the lane's part of a step makes or takes of the marks. */
  lemma LaneActsFit(j: Joint, a: Action, chat: set<nat>)
    requires O.Known(j.bus) && Allowed(j, a, chat) && Tied(j, chat)
    ensures |LaneActs(j, a)| <= 2
    ensures |LaneActs(j, a)| == 2 <==> a.Resumes? && (j.bus.closed || j.bus.stopped)
    ensures a.Resumes? ==> LaneActs(j, a) != [] && LaneActs(j, a)[0] == L.Run(a.c)
    ensures |LaneActs(j, a)| == 2 ==> LaneActs(j, a)[1].Enter? && L.OwnsSend(LaneActs(j, a)[1].phase)
    ensures LaneActs(j, a) == [] ==> Gain(j.bus, a, chat) == 0 && !CutsShort(j, a)
    ensures LaneActs(j, a) != [] && !a.Resumes? ==>
              var l := LaneActs(j, a)[0];
              && (l.Enter? && L.OwnsSend(l.phase) <==> HandsOver(j.bus, a, chat))
              && (L.Enabled(j.lane, l) ==> L.PendingAfter(0, j.lane, l) == Gain(j.bus, a, chat) + if CutsShort(j, a) then 1 else 0)
  {
    if a.InCall? {
      CallIsNoMark(j, a.a, chat);
    }
  }

  /** The worker's own call neither makes nor takes a mark. */
  lemma CallIsNoMark(j: Joint, act: O.Action, chat: set<nat>)
    requires O.Known(j.bus) && Allowed(j, InCall(act), chat) && Tied(j, chat)
    ensures |CallActs(j, act)| <= 1
    ensures CallActs(j, act) != [] ==>
              var l := CallActs(j, act)[0];
              !l.Enter? && l.c == j.call && j.call in j.lane.callers && !j.lane.callers[j.call].Marking?
  {
  }

  /** The lane's part of a step is disciplined, because the mark that is handed over is
      one of those pending. */
  lemma LaneFollows(j: Joint, a: Action, chat: set<nat>, n: Joint, r: Course) returns (e: Course)
    requires Moves(j, a, chat, n) && Leads(r, j.lane, j.pending) && Tied(j, chat)
    requires HandsOver(j.bus, a, chat) ==> j.pending > 0
    ensures Leads(e, n.lane, n.pending)
    ensures n.pending == j.pending + Gain(j.bus, a, chat) + if CutsShort(j, a) then 1 else 0
  {
    LaneActsFit(j, a, chat);
    assert a.Resumes? ==> a.c in j.lane.callers && j.lane.callers[a.c] == L.Marking(L.SendPending);
    var ls := LaneActs(j, a);
    hide Leads, L.Step, O.Moves, O.Known, Allowed, LaneActs, Tied;
    e := r;
    PendingIsNat(r, j.lane, j.pending);
    if ls != [] {
      e := Extend(e, j.lane, j.pending, ls[0]);
      var s, p := L.Step(j.lane, ls[0]), j.pending + L.PendingAfter(0, j.lane, ls[0]);
      assert LaneMoves(s, p, ls[1..], n.lane, n.pending);
      PendingIsNat(e, s, p);
      if |ls| > 1 {
        assert ls[1..] == [ls[1]] && ls[1..][1..] == [];
        assert LaneMoves(L.Step(s, ls[1]), p + L.PendingAfter(0, s, ls[1]), [], n.lane, n.pending);
        e := Extend(e, s, p, ls[1]);
      } else {
        assert ls[1..] == [];
      }
    }
  }

  lemma PendingIsNat(r: Course, s: L.Sys, pending: int)
    requires Leads(r, s, pending)
    ensures pending >= 0
  {
  }

  lemma StartIsCovered(chat: set<nat>) returns (r: Course, place: map<nat, O.Place>, head: int)
    ensures Covered(START, chat, place, head, 0) && Leads(r, START.lane, START.pending)
  {
    r, place, head := Course([L.IDLE], [], [0]), map[], 0;
    assert MarkedIn(O.EMPTY, chat) == {};
  }

  lemma BusKeepsInv(j: Joint, a: Action, chat: set<nat>, n: Joint, place: map<nat, O.Place>, head: int)
    returns (p: map<nat, O.Place>, h: int)
    requires O.Inv(j.bus, place, head) && Moves(j, a, chat, n)
    ensures O.Inv(n.bus, p, h) && O.Known(n.bus)
  {
    hide O.Inv, O.Step, O.Known, LaneMoves, Allowed, LaneActs;
    p, h := place, head;
    if !a.OnLane? {
      p, h := O.StepKeepsInv(j.bus, BusAct(a), place, head);
    }
    O.KnownFromInv(n.bus, p, h);
  }

  lemma DisciplineStep(j: Joint, a: Action, chat: set<nat>, n: Joint, c: Course, lost: nat, place: map<nat, O.Place>, head: int)
    returns (r: Course, p: map<nat, O.Place>, h: int)
    requires Covered(j, chat, place, head, lost) && Leads(c, j.lane, j.pending) && Moves(j, a, chat, n) && Tied(j, chat)
    ensures Covered(n, chat, p, h, lost + if CutsShort(j, a) then 1 else 0) && Leads(r, n.lane, n.pending)
  {
    MarkedGain(j, a, chat, n, place, head, lost);
    hide O.Inv, O.Known, MarkedIn, Leads, Gain, Tied, CutsShort, MarkingIsPassive, HandsOver, Moves;
    r := LaneFollows(j, a, chat, n, c);
    p, h := BusKeepsInv(j, a, chat, n, place, head);
  }

  /** Main result: in every joint run the lane has run under the discipline.  Each queued
      passive delivery has its pending mark, and beyond these only the done marks that were
      cut short leave one: no mark is lost by the queue or handed over twice. */
  lemma {:induction false} QueueKeepsDiscipline(states: seq<Joint>, acts: seq<Action>, chat: set<nat>, i: nat)
    returns (r: Course, place: map<nat, O.Place>, head: int)
    requires IsRun(states, acts, chat) && i < |states|
    ensures Covered(states[i], chat, place, head, CutShort(states, acts, i)) && Leads(r, states[i].lane, states[i].pending)
  {
    hide Covered, Leads, Moves, Tied, CutsShort;
    if i == 0 {
      r, place, head := StartIsCovered(chat);
    } else {
      r, place, head := QueueKeepsDiscipline(states, acts, chat, i - 1);
      WorkerIsTied(states, acts, chat, i - 1);
      assert Moves(states[i - 1], acts[i - 1], chat, states[i - 1 + 1]);
      r, place, head := DisciplineStep(states[i - 1], acts[i - 1], chat, states[i], r, CutShort(states, acts, i - 1), place, head);
    }
  }

  /** A cancelled done mark: a publisher has made its mark, finds the bus closed and is
      cancelled while it waits to take the mark back.  The lane is left empty with a send
      counted, and a non-passive call that comes parks with nobody to wake it. */
  lemma CancelledDoneKeepsCount() returns (states: seq<Joint>, acts: seq<Action>)
    ensures IsRun(states, acts, {0}) && CutShort(states, acts, |acts|) == 1
    ensures 0 in states[|acts|].bus.items && states[|acts|].bus.items[0].receipt == Some(O.REFUSAL)
    ensures states[|acts|].bus.queue == []
    ensures states[|acts|].lane == L.Sys(L.FRESH.(sends := 1), map[])
  {
    acts := [OnLane(L.Enter(0, L.Marking(L.SendPending))), OnBus(O.DoPublish(0, true)), OnBus(O.DoClose), Resumes(0, 0, 1),
             OnLane(L.Interrupt(1))];
    var l1 := L.Sys(L.FRESH.(users := 1), map[0 := L.Marking(L.SendPending)]);
    var l4 := L.Sys(L.FRESH.(users := 1, sends := 1), map[1 := L.Marking(L.SendDone)]);
    var b2 := O.EMPTY.(items := map[0 := O.Fresh(true)], marking := {0});
    var b3 := b2.(closed := true, closing := O.Stopping);
    var b4 := b3.(items := map[0 := O.Settle(O.Fresh(true), O.REFUSAL)], marking := {});
    states := [START, Joint(O.EMPTY, l1, 0, 0), Joint(b2, l1, 0, 0), Joint(b3, l1, 0, 0), Joint(b4, l4, 0, 0),
               Joint(b4, L.Sys(L.FRESH.(sends := 1), map[]), 1, 0)];
    CutAtEnd(states, acts);
    MarkIsMade(l1, b2, b3);
    MarkIsCutShort(l1, l4, b3, b4);
    hide Moves, CutsShort, CutShort, O.Fresh, O.Settle;
    assert forall i :: 0 <= i < 5 ==> Moves(states[i], acts[i], {0}, states[i + 1]);
  }

  lemma CutAtEnd(states: seq<Joint>, acts: seq<Action>)
    requires |acts| == 5 && |states| == 6 && CutsShort(states[4], acts[4])
    requires forall i :: 0 <= i < 4 ==> !(acts[i].OnLane? && acts[i].l.Interrupt?)
    ensures CutShort(states, acts, 5) == 1
  {
    assert CutShort(states, acts, 1) == 0;
    assert CutShort(states, acts, 3) == 0;
  }

  lemma MarkIsMade(l1: L.Sys, b2: O.Bus, b3: O.Bus)
    requires l1 == L.Sys(L.FRESH.(users := 1), map[0 := L.Marking(L.SendPending)])
    requires b2 == O.EMPTY.(items := map[0 := O.Fresh(true)], marking := {0}) && b3 == b2.(closed := true, closing := O.Stopping)
    ensures Moves(START, OnLane(L.Enter(0, L.Marking(L.SendPending))), {0}, Joint(O.EMPTY, l1, 0, 0))
    ensures Moves(Joint(O.EMPTY, l1, 0, 0), OnBus(O.DoPublish(0, true)), {0}, Joint(b2, l1, 0, 0))
    ensures Moves(Joint(b2, l1, 0, 0), OnBus(O.DoClose), {0}, Joint(b3, l1, 0, 0))
  {
    OneLaneStep(L.IDLE, 0, L.Enter(0, L.Marking(L.SendPending)));
  }

  lemma MarkIsCutShort(l1: L.Sys, l4: L.Sys, b3: O.Bus, b4: O.Bus)
    requires l1 == L.Sys(L.FRESH.(users := 1), map[0 := L.Marking(L.SendPending)])
    requires l4 == L.Sys(L.FRESH.(users := 1, sends := 1), map[1 := L.Marking(L.SendDone)])
    requires b3 == O.EMPTY.(items := map[0 := O.Fresh(true)], marking := {0}, closed := true, closing := O.Stopping)
    requires b4 == b3.(items := map[0 := O.Settle(O.Fresh(true), O.REFUSAL)], marking := {})
    ensures Moves(Joint(b3, l1, 0, 0), Resumes(0, 0, 1), {0}, Joint(b4, l4, 0, 0))
    ensures Moves(Joint(b4, l4, 0, 0), OnLane(L.Interrupt(1)), {0}, Joint(b4, L.Sys(L.FRESH.(sends := 1), map[]), 1, 0))
  {
    var m := L.Step(l1, L.Run(0));
    var done := L.Enter(1, L.Marking(L.SendDone));
    assert m == L.Sys(L.FRESH.(sends := 1), map[]);
    OneLaneStep(m, 1, done);
    assert [L.Run(0), done][1..] == [done];
    OneLaneStep(l4, 0, L.Interrupt(1));
    assert L.Step(l4, L.Interrupt(1)) == L.Sys(L.FRESH.(sends := 1), map[]);
  }

  /** On such a lane no non-passive call ever gets to send by itself. */
  lemma CountedSendBlocks(s: L.Sys, c: nat)
    requires s.callers == map[] && s.lane.sends > 0
    ensures var n := L.Step(s, L.Enter(c, L.NonPassiveEntered));
            L.Enabled(n, L.Run(c)) && c in L.Step(n, L.Run(c)).callers &&
            L.Step(n, L.Run(c)).callers.Keys == {c} && L.Step(n, L.Run(c)).callers[c].NonPassiveParked? &&
            !L.Enabled(L.Step(n, L.Run(c)), L.Run(c))
  {
    L.SkipStopsAtLive(s.lane.(users := s.lane.users + 1, next := s.lane.next + 1));
    hide L.Skip;
  }

  lemma OneLaneStep(s: L.Sys, pending: int, l: L.Action)
    requires L.Enabled(s, l)
    ensures LaneMoves(s, pending, [l], L.Step(s, l), pending + L.PendingAfter(0, s, l))
  {
    assert [l][1..] == [];
  }

  /** So the lane's send counter is exact, no call is refused and none raises as it leaves. */
  lemma LaneOfQueueIsBalanced(states: seq<Joint>, acts: seq<Action>, chat: set<nat>, i: nat)
    requires IsRun(states, acts, chat) && i < |states|
    ensures var j := states[i];
            && j.pending == |MarkedIn(j.bus, chat)| + CutShort(states, acts, i)
            && L.Balanced(j.lane, j.pending)
            && forall c :: c in j.lane.callers ==>
                 !Refuses(j.lane.lane, j.lane.callers[c]) && !Raises(j.lane.lane, j.lane.callers[c])
  {
    var r, place, head := QueueKeepsDiscipline(states, acts, chat, i);
    L.DisciplinedRunsStayBalanced(r.states, r.acts, r.pending, |r.acts|);
    PendingIsNat(r, states[i].lane, states[i].pending);
    hide O.Inv, O.Known, MarkedIn;
    var s := states[i].lane;
    forall c | c in s.callers
      ensures !Refuses(s.lane, s.callers[c]) && !Raises(s.lane, s.callers[c])
    {
      assert L.OwnsSend(s.callers[c]) ==> c in L.Owners(s.callers) && |L.Owners(s.callers)| > 0;
    }
  }

  /** Main result: the lane never refuses the worker, and never ends its call with an
      error, for any delivery of the conversation. */
  lemma WorkerIsNeverRefused(states: seq<Joint>, acts: seq<Action>, chat: set<nat>, i: nat)
    requires IsRun(states, acts, chat) && i < |acts| && AtChat(states[i].bus, chat)
    ensures acts[i] != OnBus(O.LaneRefuses) && acts[i] != InCall(O.LaneRefuses)
    ensures acts[i] != OnBus(O.DoLeave(false)) && acts[i] != InCall(O.DoLeave(false))
  {
    LaneOfQueueIsBalanced(states, acts, chat, i);
    assert Moves(states[i], acts[i], chat, states[i + 1]);
    hide L.Balanced, O.Known, LaneMoves, MarkedIn, O.Step, O.Moves;
  }

  // ---------------------------------------------------------------------------
  // The worker and its lane call
  // ---------------------------------------------------------------------------

  /** The lane call stands where the worker does. */
  ghost predicate Tied(j: Joint, chat: set<nat>) {
    AtChat(j.bus, chat) ==> j.call in j.lane.callers && Fits(j.bus.worker, j.lane.callers[j.call])
  }

  predicate Fits(w: O.Worker, p: L.Phase) {
    (w.InLane? ==> Waits(p) || Sends(p)) && (w.Calling? ==> Sends(p)) && (w.Leaving? ==> Leaves(p))
  }

  predicate SamePlace(p: L.Phase, q: L.Phase) {
    (Waits(p) <==> Waits(q)) && (Sends(p) <==> Sends(q)) && (Leaves(p) <==> Leaves(q))
  }

  /** Lane steps of others leave a call where it stands. */
  lemma {:induction false} OthersKeepPlace(s: L.Sys, pending: int, ls: seq<L.Action>, t: L.Sys, after: int, c: nat)
    requires LaneMoves(s, pending, ls, t, after) && c in s.callers && forall l :: l in ls ==> l.c != c
    ensures c in t.callers && SamePlace(s.callers[c], t.callers[c])
    decreases |ls|
  {
    if ls != [] {
      var u := L.Step(s, ls[0]);
      assert ls[0].c != c;
      OneKeepsPlace(s, ls[0], c);
      hide L.Step;
      OthersKeepPlace(u, pending + L.PendingAfter(0, s, ls[0]), ls[1..], t, after, c);
    }
  }

  lemma OneKeepsPlace(s: L.Sys, l: L.Action, c: nat)
    requires L.Enabled(s, l) && c in s.callers && l.c != c
    ensures c in L.Step(s, l).callers && SamePlace(s.callers[c], L.Step(s, l).callers[c])
  {
  }

  /** A waiting call that is not refused goes on waiting or begins to send. */
  lemma WaitingGoesOn(s: L.Sys, c: nat)
    requires L.Enabled(s, L.Run(c)) && Waits(s.callers[c]) && !Refuses(s.lane, s.callers[c])
    ensures c in L.Step(s, L.Run(c)).callers && var p := L.Step(s, L.Run(c)).callers[c]; Waits(p) || Sends(p)
  {
  }

  /** A refused call, one that has sent and one that is interrupted have to leave. */
  lemma CallsLeave(s: L.Sys, l: L.Action)
    requires L.Enabled(s, l) && l.c in s.callers
    requires l.Run? ==> Refuses(s.lane, s.callers[l.c]) || Sends(s.callers[l.c])
    requires l.Interrupt? ==> Waits(s.callers[l.c]) || Sends(s.callers[l.c])
    ensures l.c in L.Step(s, l).callers && Leaves(L.Step(s, l).callers[l.c])
  {
  }

  /** What a step of the bus means for what the worker is at. */
  lemma WorkerItem(b: O.Bus, act: O.Action)
    requires O.Known(b) && O.Enabled(b, act)
    ensures var n := O.Step(b, act);
            && (ByWorker(act) ==> O.Held(n.worker) in {O.Held(b.worker), O.Held(O.Absent)})
            && (!ByWorker(act) && !act.DoTake? ==> n.worker == b.worker || O.Held(n.worker) == O.Held(O.Absent))
            && (act.DoTake? ==> O.Held(b.worker) == O.Held(O.Absent) &&
                                (if b.closed then O.Held(n.worker) == O.Held(O.Absent) else n.worker == O.InLane(b.queue[0])))
  {
  }

  lemma LaneKeepsTie(j: Joint, l: L.Action, chat: set<nat>, n: Joint)
    requires Tied(j, chat) && Moves(j, OnLane(l), chat, n)
    ensures Tied(n, chat)
  {
    hide O.Known;
    if AtChat(j.bus, chat) {
      if l.c == j.call {
        WaitingGoesOn(j.lane, j.call);
        hide L.Step;
        assert LaneMoves(L.Step(j.lane, l), j.pending + L.PendingAfter(0, j.lane, l), [l][1..], n.lane, n.pending);
      } else {
        hide L.Step;
        OthersKeepPlace(j.lane, j.pending, [l], n.lane, n.pending, j.call);
      }
    }
  }

  lemma CallKeepsTie(j: Joint, act: O.Action, chat: set<nat>, n: Joint)
    requires Tied(j, chat) && Moves(j, InCall(act), chat, n)
    ensures Tied(n, chat)
  {
    var ls := CallActs(j, act);
    if AtChat(n.bus, chat) {
      WorkerPlace(j.bus, act);
      assert ls != [] ==> LaneMoves(L.Step(j.lane, ls[0]), j.pending + L.PendingAfter(0, j.lane, ls[0]), ls[1..], n.lane, n.pending);
      hide O.Step, O.Known, L.Step, O.StartSend;
      if ls != [] {
        assert ls[1..] == [];
        CallsLeave(j.lane, ls[0]);
      }
    }
  }

  /** Where the worker stands after a step of its own, if it is still at the item. */
  lemma WorkerPlace(b: O.Bus, act: O.Action)
    requires O.Known(b) && O.Enabled(b, act) && ByWorker(act) && O.Held(O.Step(b, act).worker).Some?
    ensures var w := O.Step(b, act).worker;
            match act
            case DoSend(gate) => w.Leaving? || (w.Calling? && O.StartSend(b, gate).worker.Calling?)
            case LookAtWorker => if b.worker.Calling? then w.Calling? else b.worker.InLane? && w.Leaving?
            case DoCancel => !b.worker.Leaving? && w.Leaving?
            case DoLeave(_) => false
            case _ => w.Leaving?
  {
  }

  lemma {:induction false} WorkerIsTied(states: seq<Joint>, acts: seq<Action>, chat: set<nat>, i: nat)
    requires IsRun(states, acts, chat) && i < |states|
    ensures Tied(states[i], chat)
  {
    if i > 0 {
      WorkerIsTied(states, acts, chat, i - 1);
      var j, a, n := states[i - 1], acts[i - 1], states[i];
      assert Moves(j, a, chat, states[i - 1 + 1]);
      hide Moves, Tied;
      if a.OnLane? {
        LaneKeepsTie(j, a.l, chat, n);
      } else if a.InCall? {
        CallKeepsTie(j, a.a, chat, n);
      } else {
        OthersKeepTie(j, a, chat, n);
      }
    }
  }

  lemma OthersKeepTie(j: Joint, a: Action, chat: set<nat>, n: Joint)
    requires Tied(j, chat) && Moves(j, a, chat, n) && !a.OnLane? && !a.InCall?
    ensures Tied(n, chat)
  {
    WorkerItem(j.bus, BusAct(a));
    hide O.Step, L.Step;
    var ls := LaneActs(j, a);
    if AtChat(n.bus, chat) {
      if a.Dequeues? && a.a.DoTake? {
        TakeBegins(j, a, chat, n);
      } else {
        assert n.bus.worker == j.bus.worker;
        OthersKeepPlace(j.lane, j.pending, ls, n.lane, n.pending, j.call);
      }
    }
  }

  lemma TakeBegins(j: Joint, a: Action, chat: set<nat>, n: Joint)
    requires Moves(j, a, chat, n) && a.Dequeues? && a.a.DoTake? && !j.bus.closed
    ensures a.d in n.lane.callers && Waits(n.lane.callers[a.d])
  {
    var l := L.Enter(a.d, Begins(j.bus, a.a)[0]);
    assert LaneActs(j, a) == [l] && [l][1..] == [];
    assert LaneMoves(L.Step(j.lane, l), j.pending + L.PendingAfter(0, j.lane, l), [], n.lane, n.pending);
  }

  /** Main result: while the provider is called for a delivery of the conversation, the lane
      is the worker's: its own call is sending, and nobody else is. */
  lemma ProviderCallIsAlone(states: seq<Joint>, acts: seq<Action>, chat: set<nat>, i: nat, c: nat)
    requires IsRun(states, acts, chat) && i < |states|
    requires states[i].bus.worker.Calling? && states[i].bus.worker.id in chat
    ensures var j := states[i];
            && j.lane.lane.sending && j.call in j.lane.callers && Sends(j.lane.callers[j.call])
            && (c in j.lane.callers && L.Occupies(j.lane.callers[c]) ==> c == j.call)
  {
    WorkerIsTied(states, acts, chat, i);
    var r, place, head := QueueKeepsDiscipline(states, acts, chat, i);
    var j := states[i];
    hide O.Inv, O.Known, MarkedIn, IsRun;
    L.OneSender(r.states, r.acts, |r.acts|, j.call, j.call);
    if c in j.lane.callers && L.Occupies(j.lane.callers[c]) {
      L.OneSender(r.states, r.acts, |r.acts|, c, j.call);
    }
  }

  lemma CallIsPossible(j: Joint, act: O.Action, chat: set<nat>)
    requires O.Known(j.bus) && AtChat(j.bus, chat) && Tied(j, chat) && j.call in j.lane.callers && O.Enabled(j.bus, act)
    requires ByWorker(act) && !act.LaneRefuses? && (act.DoSend? ==> Sends(j.lane.callers[j.call]))
    requires act.DoLeave? ==> act.balanced && !Raises(j.lane.lane, j.lane.callers[j.call])
    ensures Allowed(j, InCall(act), chat)
    ensures CallActs(j, act) == [] || (|CallActs(j, act)| == 1 && L.Enabled(j.lane, CallActs(j, act)[0]))
  {
    hide L.PassiveLeave, L.PassiveEnter;
  }

  lemma CallGoesAlong(j: Joint, act: O.Action, chat: set<nat>) returns (n: Joint)
    requires O.Known(j.bus) && Allowed(j, InCall(act), chat) && O.Enabled(j.bus, act)
    requires CallActs(j, act) == [] || (|CallActs(j, act)| == 1 && L.Enabled(j.lane, CallActs(j, act)[0]))
    ensures Moves(j, InCall(act), chat, n)
  {
    var ls := CallActs(j, act);
    assert ls == LaneActs(j, InCall(act));
    hide O.Known, O.Enabled, L.Enabled, L.Step, O.Step, Allowed, LaneMoves, CallActs, LaneActs;
    if ls == [] {
      n := Joint(O.Step(j.bus, act), j.lane, j.pending, j.call);
      NoLaneStep(j.lane, j.pending);
    } else {
      assert ls == [ls[0]];
      OneLaneStep(j.lane, j.pending, ls[0]);
      n := Joint(O.Step(j.bus, act), L.Step(j.lane, ls[0]), j.pending + L.PendingAfter(0, j.lane, ls[0]), j.call);
    }
  }

  /** The lane never holds the worker up once its call is sending or leaving: whatever the
      worker may do next at a delivery of the conversation, its lane call goes along. */
  lemma LaneGoesAlong(states: seq<Joint>, acts: seq<Action>, chat: set<nat>, i: nat, act: O.Action) returns (n: Joint)
    requires IsRun(states, acts, chat) && i < |states| && AtChat(states[i].bus, chat)
    requires ByWorker(act) && O.Enabled(states[i].bus, act) && !act.LaneRefuses? && (act.DoLeave? ==> act.balanced)
    requires act.DoSend? ==> states[i].call in states[i].lane.callers && Sends(states[i].lane.callers[states[i].call])
    ensures Moves(states[i], InCall(act), chat, n)
  {
    var j := states[i];
    WorkerIsTied(states, acts, chat, i);
    LaneOfQueueIsBalanced(states, acts, chat, i);
    var r, place, head := QueueKeepsDiscipline(states, acts, chat, i);
    hide O.Inv, O.Known, O.Enabled, MarkedIn, IsRun, L.Balanced, MarkingIsPassive, Leads, Allowed, CallActs,
         Refuses, Raises, Fits, Moves, Sends, AtChat, ByWorker;
    CallIsPossible(j, act, chat);
    n := CallGoesAlong(j, act, chat);
  }

  lemma NoLaneStep(s: L.Sys, pending: int)
    ensures LaneMoves(s, pending, [], s, pending)
  {
  }
}
