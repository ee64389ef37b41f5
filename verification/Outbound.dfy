/** The outbound queue of the message bus: exact receipts from publish to close.

    One worker task takes items from the queue, waits for their chat lane, calls the
    provider and answers the publisher.  Publishers, the worker and the closing task
    interleave between awaits; the worker may be cancelled at each of its awaits. */
module Outbound {
  import opened Wrappers

  datatype Status = Delivered | Rejected | Failed

  datatype Receipt = Receipt(status: Status, byBus: bool)

  const REFUSAL := Receipt(Rejected, true)

  /** One published delivery.  `calls` and `settles` count what happened to it. */
  datatype Item = Item(passive: bool, started: bool, calls: nat, settles: nat, receipt: Option<Receipt>)

  /** How one lane-protected send ends. */
  datatype Outcome = Returns(receipt: Receipt) | Raises | Interrupted

  datatype Worker =
    | Absent
    | Getting
    | InLane(id: nat)
    | Calling(id: nat)
    | Leaving(id: nat, outcome: Outcome)
    | Rejecting(id: nat)

  datatype Closing = NotAsked | Stopping | Waiting | InboundDrain | OutboundDrain | Finished | Aborted

  datatype Bus = Bus(
    items: map<nat, Item>,
    marking: set<nat>,
    queue: seq<nat>,
    worker: Worker,
    running: bool,
    stopped: bool,
    closed: bool,
    closing: Closing)

  const EMPTY := Bus(map[], {}, [], Absent, false, false, false, NotAsked)

  // ---------------------------------------------------------------------------
  // Sections
  // ---------------------------------------------------------------------------

  function Fresh(passive: bool): Item {
    Item(passive, false, 0, 0, None)
  }

  /** Answers the publisher unless it was answered before. */
  function Settle(it: Item, r: Receipt): Item {
    if it.receipt == None then it.(receipt := Some(r), settles := it.settles + 1) else it
  }

  function SettleIn(b: Bus, id: nat, r: Receipt): Bus
    requires id in b.items
  {
    b.(items := b.items[id := Settle(b.items[id], r)])
  }

  function Publish(b: Bus, id: nat, passive: bool): Bus {
    if b.closed || b.stopped then b.(items := b.items[id := Settle(Fresh(passive), REFUSAL)])
    else if passive then b.(items := b.items[id := Fresh(passive)], marking := b.marking + {id})
    else b.(items := b.items[id := Fresh(passive)], queue := b.queue + [id])
  }

  /** A passive publisher looks again after it registered with the lane. */
  function ResumePublish(b: Bus, id: nat): Bus
    requires id in b.items
  {
    if b.closed || b.stopped then SettleIn(b, id, REFUSAL).(marking := b.marking - {id})
    else b.(marking := b.marking - {id}, queue := b.queue + [id])
  }

  function StartWorker(b: Bus): Bus {
    if b.closed || b.worker != Absent then b else b.(worker := Getting, running := true, stopped := false)
  }

  /** The worker ends; a close that waits for it sees whether it ended in an error. */
  function Exit(b: Bus, error: bool): Bus {
    b.(worker := Absent, running := false, stopped := true,
       closing := if b.closing != Waiting then b.closing else if error then Aborted else InboundDrain)
  }

  /** What the worker answers for an item it was still processing when it ended. */
  function LastWord(it: Item): Receipt {
    Receipt(if it.started then Failed else Rejected, true)
  }

  function Die(b: Bus, id: nat, error: bool): Bus
    requires id in b.items
  {
    Exit(SettleIn(b, id, LastWord(b.items[id])), error)
  }

  function Next(b: Bus): Bus {
    if b.running then b.(worker := Getting) else Exit(b, false)
  }

  function Take(b: Bus): Bus
    requires b.queue != [] && b.queue[0] in b.items
  {
    var id := b.queue[0];
    var c := b.(queue := b.queue[1..]);
    if !b.closed then c.(worker := InLane(id))
    else if b.items[id].passive then SettleIn(c, id, REFUSAL).(worker := Rejecting(id))
    else Exit(SettleIn(c, id, REFUSAL), false)
  }

  datatype Gate = Open | Unbound | HookRaises

  /** The lane is ours: last checks, then the provider is called. */
  function StartSend(b: Bus, gate: Gate): Bus
    requires b.worker.InLane? && b.worker.id in b.items
  {
    var id := b.worker.id;
    if b.closed || gate == HookRaises then b.(worker := Leaving(id, Returns(REFUSAL)))
    else if gate == Unbound then b.(worker := Leaving(id, Raises))
    else b.(items := b.items[id := b.items[id].(started := true, calls := b.items[id].calls + 1)], worker := Calling(id))
  }

  datatype Reply = Valid(status: Status) | ProviderError | Malformed

  function Answered(b: Bus, reply: Reply): Bus
    requires b.worker.Calling?
  {
    b.(worker := Leaving(b.worker.id,
         match reply
         case Valid(status) => Returns(Receipt(status, false))
         case ProviderError => Returns(Receipt(Failed, true))
         case Malformed => Raises))
  }

  /** The lane is given back; `balanced` is false when its count does not add up. */
  function LeaveLane(b: Bus, balanced: bool): Bus
    requires b.worker.Leaving? && b.worker.id in b.items
  {
    var id, o := b.worker.id, b.worker.outcome;
    if !balanced || o == Raises then Die(b, id, true)
    else if o == Interrupted then Die(b, id, false)
    else Next(SettleIn(b, id, o.receipt))
  }

  function Cancel(b: Bus): Bus
    requires b.worker.Leaving? ==> b.worker.id in b.items
  {
    match b.worker
    case Absent => b
    case InLane(id) => b.(worker := Leaving(id, Interrupted))
    case Calling(id) => b.(worker := Leaving(id, Interrupted))
    case Leaving(id, _) => Die(b, id, false)
    case _ => Exit(b, false)
  }

  /** Close cancels the worker and waits for it.  The cancellation reaches the worker before
      anything else does; at a provider it is the provider that decides what comes of it. */
  function StopWorker(b: Bus): Bus
    requires b.worker.Leaving? ==> b.worker.id in b.items
  {
    if b.worker == Absent then b.(closing := InboundDrain)
    else if b.worker.Calling? then b.(closing := Waiting)
    else Cancel(b.(closing := Waiting))
  }

  function AskClose(b: Bus): Bus {
    b.(closed := true, running := false, closing := if b.closing == NotAsked then Stopping else b.closing)
  }

  function DrainOne(b: Bus): Bus
    requires b.queue != [] ==> b.queue[0] in b.items
  {
    if b.queue == [] then b.(closing := Finished)
    else SettleIn(b, b.queue[0], REFUSAL).(queue := b.queue[1..])
  }

  /** The whole drain when nothing interleaves. */
  function Drained(b: Bus): Bus
    requires forall k :: 0 <= k < |b.queue| ==> b.queue[k] in b.items
    decreases |b.queue|
  {
    if b.queue == [] then DrainOne(b) else Drained(DrainOne(b))
  }

  // ---------------------------------------------------------------------------
  // The bus object
  // ---------------------------------------------------------------------------

  class MessageBus {
    var items: map<nat, Item>
    var marking: set<nat>
    var queue: seq<nat>
    var worker: Worker
    var running: bool
    var stopped: bool
    var closed: bool
    var closing: Closing

    ghost function View(): Bus
      reads this
    {
      Bus(items, marking, queue, worker, running, stopped, closed, closing)
    }

    constructor ()
      ensures View() == EMPTY
    {
      items, marking, queue, worker := map[], {}, [], Absent;
      running, stopped, closed, closing := false, false, false, NotAsked;
    }

    method PublishAwaited(id: nat, passive: bool)
      modifies this
      ensures View() == Publish(old(View()), id, passive)
    {
      items := items[id := Fresh(passive)];
      if closed || stopped {
        items := items[id := Settle(items[id], REFUSAL)];
      } else if passive {
        marking := marking + {id};
      } else {
        queue := queue + [id];
      }
    }

    method Resume(id: nat)
      requires id in items
      modifies this
      ensures View() == ResumePublish(old(View()), id)
    {
      marking := marking - {id};
      if closed || stopped {
        items := items[id := Settle(items[id], REFUSAL)];
      } else {
        queue := queue + [id];
      }
    }

    method LeaveLoop(error: bool)
      modifies this
      ensures View() == Exit(old(View()), error)
    {
      running, stopped, worker := false, true, Absent;
      if closing == Waiting {
        closing := if error then Aborted else InboundDrain;
      }
    }

    /** The worker's `finally`, with an item still in flight. */
    method Finally(id: nat, error: bool)
      requires id in items
      modifies this
      ensures View() == Die(old(View()), id, error)
    {
      if items[id].receipt == None {
        var status := if items[id].started then Failed else Rejected;
        items := items[id := Settle(items[id], Receipt(status, true))];
      }
      LeaveLoop(error);
    }

    method TakeItem()
      requires queue != [] && queue[0] in items
      modifies this
      ensures View() == Take(old(View()))
    {
      var id := queue[0];
      queue := queue[1..];
      if !closed {
        worker := InLane(id);
        return;
      }
      items := items[id := Settle(items[id], REFUSAL)];
      if items[id].passive {
        worker := Rejecting(id);
      } else {
        LeaveLoop(false);
      }
    }

    method SendChannelOutbound(gate: Gate)
      requires worker.InLane? && worker.id in items
      modifies this
      ensures View() == StartSend(old(View()), gate)
    {
      var id := worker.id;
      if closed {
        worker := Leaving(id, Returns(REFUSAL));
        return;
      }
      match gate
      case Unbound =>
        worker := Leaving(id, Raises);
      case HookRaises =>
        worker := Leaving(id, Returns(REFUSAL));
      case Open =>
        items := items[id := items[id].(started := true, calls := items[id].calls + 1)];
        worker := Calling(id);
    }

    method AfterLane(balanced: bool)
      requires worker.Leaving? && worker.id in items
      modifies this
      ensures View() == LeaveLane(old(View()), balanced)
    {
      var id := worker.id;
      if !balanced || !worker.outcome.Returns? {
        Finally(id, !balanced || worker.outcome == Raises);
        return;
      }
      items := items[id := Settle(items[id], worker.outcome.receipt)];
      if running {
        worker := Getting;
      } else {
        LeaveLoop(false);
      }
    }

    method DrainOutboundQueue()
      requires forall k :: 0 <= k < |queue| ==> queue[k] in items
      modifies this
      ensures View() == Drained(old(View()))
    {
      while queue != []
        invariant forall k :: 0 <= k < |queue| ==> queue[k] in items
        invariant Drained(View()) == Drained(old(View()))
        decreases |queue|
      {
        ghost var before := View();
        var id := queue[0];
        queue := queue[1..];
        items := items[id := Settle(items[id], REFUSAL)];
        assert View() == DrainOne(before);
      }
      closing := Finished;
    }
  }

  /** Draining refuses exactly the queued items that had no receipt yet. */
  lemma {:induction false} DrainRefusesQueued(b: Bus)
    requires forall k :: 0 <= k < |b.queue| ==> b.queue[k] in b.items
    ensures var d := Drained(b);
            && d == b.(items := d.items, queue := [], closing := Finished)
            && d.items.Keys == b.items.Keys
            && forall id :: id in b.items ==>
                 d.items[id] == if id in b.queue then Settle(b.items[id], REFUSAL) else b.items[id]
    decreases |b.queue|
  {
    if b.queue != [] {
      DrainRefusesQueued(DrainOne(b));
      assert b.queue == [b.queue[0]] + b.queue[1..];
    }
  }

  // ---------------------------------------------------------------------------
  // Steps
  // ---------------------------------------------------------------------------

  datatype Action =
    | DoPublish(id: nat, passive: bool)
    | DoResume(id: nat)
    | PublisherGivesUp(id: nat)
    | DoStart
    | DoStop
    | DoTake
    | GetTimesOut
    | LaneRefuses
    | DoSend(gate: Gate)
    | DoAnswer(reply: Reply)
    | DoLeave(balanced: bool)
    | DoCancel
    | RejectDone
    | DoClose
    | LookAtWorker
    | InboundDrained(ok: bool)
    | DoDrain

  predicate Enabled(b: Bus, a: Action) {
    match a
    case DoPublish(id, _) => id !in b.items
    case DoResume(id) => id in b.marking
    case PublisherGivesUp(id) => id in b.marking
    case DoTake => b.worker.Getting? && b.queue != []
    case GetTimesOut => b.worker.Getting?
    case LaneRefuses => b.worker.InLane?
    case DoSend(_) => b.worker.InLane?
    case DoAnswer(_) => b.worker.Calling?
    case DoLeave(_) => b.worker.Leaving?
    case RejectDone => b.worker.Rejecting?
    case LookAtWorker => b.closing == Stopping
    case InboundDrained(_) => b.closing == InboundDrain
    case DoDrain => b.closing == OutboundDrain
    case _ => true
  }

  /** The items that the state refers to are known. */
  ghost predicate Known(b: Bus) {
    && b.marking <= b.items.Keys
    && (forall k :: 0 <= k < |b.queue| ==> b.queue[k] in b.items)
    && (Held(b.worker) != None ==> Held(b.worker).value in b.items)
  }

  /** The unanswered item the worker is processing. */
  function Held(w: Worker): Option<nat> {
    if w.InLane? || w.Calling? || w.Leaving? then Some(w.id) else None
  }

  ghost function Step(b: Bus, a: Action): Bus
    requires Known(b) && Enabled(b, a)
  {
    match a
    case DoPublish(id, passive) => Publish(b, id, passive)
    case DoResume(id) => ResumePublish(b, id)
    case PublisherGivesUp(id) => b.(items := b.items - {id}, marking := b.marking - {id})
    case DoStart => StartWorker(b)
    case DoStop => b.(running := false)
    case DoTake => Take(b)
    case GetTimesOut => Next(b)
    case LaneRefuses => b.(worker := Leaving(b.worker.id, Raises))
    case DoSend(gate) => StartSend(b, gate)
    case DoAnswer(reply) => Answered(b, reply)
    case DoLeave(balanced) => LeaveLane(b, balanced)
    case DoCancel => Cancel(b)
    case RejectDone => Exit(b, false)
    case DoClose => AskClose(b)
    case LookAtWorker => StopWorker(b)
    case InboundDrained(ok) => b.(closing := if ok then OutboundDrain else Aborted)
    case DoDrain => DrainOne(b)
  }

  // ---------------------------------------------------------------------------
  // The invariant
  // ---------------------------------------------------------------------------

  /** Where an item is; a queued one remembers its number in queue order. */
  datatype Place = Marking | Queued(n: int) | InFlight | Done

  /** A receipt made by the bus tells whether the provider was called; a receipt made by
      the provider needs a call. */
  predicate Truthful(r: Receipt, it: Item) {
    if r.byBus then r.status == (if it.started then Failed else Rejected) else it.started
  }

  /** What an item's place says about it, apart from the queue. */
  ghost predicate ItemFits(it: Item, p: Place, w: Worker) {
    && it.calls == (if it.started then 1 else 0)
    && it.settles == (if p == Done then 1 else 0)
    && (it.receipt == None <==> p != Done)
    && (it.receipt != None ==> Truthful(it.receipt.value, it))
    && (p.Marking? || p.Queued? ==> !it.started)
    && (p == InFlight ==> (w.InLane? ==> !it.started) && (w.Calling? ==> it.started) &&
                          (w.Leaving? && w.outcome.Returns? ==> Truthful(w.outcome.receipt, it)))
  }

  /** `head` is the number of the item at the front of the queue. */
  ghost predicate QueueFits(queue: seq<nat>, place: map<nat, Place>, head: int) {
    && (forall k :: 0 <= k < |queue| ==> queue[k] in place && place[queue[k]] == Queued(head + k))
    && (forall id :: id in place && place[id].Queued? ==>
          0 <= place[id].n - head < |queue| && queue[place[id].n - head] == id)
  }

  ghost predicate OthersFit(marking: set<nat>, held: Option<nat>, place: map<nat, Place>) {
    && (forall id :: id in place ==> (place[id] == Marking <==> id in marking))
    && (forall id :: id in place ==> (place[id] == InFlight <==> held == Some(id)))
    && marking <= place.Keys
    && (held != None ==> held.value in place)
  }

  ghost predicate Placed(b: Bus, place: map<nat, Place>, head: int) {
    place.Keys == b.items.Keys && QueueFits(b.queue, place, head) && OthersFit(b.marking, Held(b.worker), place)
  }

  ghost predicate ItemsFit(b: Bus, place: map<nat, Place>)
    requires place.Keys == b.items.Keys
  {
    forall id :: id in b.items ==> ItemFits(b.items[id], place[id], b.worker)
  }

  /** Nobody starts or serves once the bus is closing. */
  predicate Phased(b: Bus) {
    && (b.closed ==> !b.running)
    && (b.closed <==> b.closing != NotAsked)
    && (b.closing in {InboundDrain, OutboundDrain, Finished, Aborted} ==> b.worker == Absent)
    && (b.closing == Waiting ==> b.worker.Calling? || b.worker.Leaving?)
    && (b.closing == Finished ==> b.queue == [])
  }

  ghost predicate Inv(b: Bus, place: map<nat, Place>, head: int) {
    Placed(b, place, head) && ItemsFit(b, place) && Phased(b)
  }

  /** A new or registering item goes to the end of the queue. */
  lemma EnqueueKeepsInv(b: Bus, id: nat, passive: bool, place: map<nat, Place>, head: int)
    requires Inv(b, place, head) && (id in b.marking || id !in b.items) && !b.closed
    ensures Inv(b.(items := b.items[id := Fresh(passive)], marking := b.marking - {id}, queue := b.queue + [id]),
                place[id := Queued(head + |b.queue|)], head)
  {
    assert id in b.items ==> place[id] == Marking;
  }

  /** A new or registering item is registering, or answered at once. */
  lemma AsideKeepsInv(b: Bus, id: nat, it: Item, p: Place, marking: set<nat>, place: map<nat, Place>, head: int)
    requires Inv(b, place, head) && (id in b.marking || id !in b.items)
    requires p in {Marking, Done} && ItemFits(it, p, b.worker)
    requires marking == if p == Marking then b.marking + {id} else b.marking - {id}
    ensures Inv(b.(items := b.items[id := it], marking := marking), place[id := p], head)
  {
    assert id in b.items ==> place[id] == Marking;
    var q := place[id := p];
    assert QueueFits(b.queue, q, head) by { hide OthersFit, ItemsFit; }
    assert OthersFit(marking, Held(b.worker), q) by { hide QueueFits, ItemsFit; }
    hide QueueFits, OthersFit;
  }

  lemma ForgetKeepsInv(b: Bus, id: nat, place: map<nat, Place>, head: int)
    requires Inv(b, place, head) && id in b.marking
    ensures Inv(b.(items := b.items - {id}, marking := b.marking - {id}), place - {id}, head)
  {
    assert place[id] == Marking;
  }

  lemma MarkedIsFresh(b: Bus, id: nat, place: map<nat, Place>, head: int)
    requires Inv(b, place, head) && id in b.marking
    ensures id in b.items && b.items[id] == Fresh(b.items[id].passive)
  {
    assert ItemFits(b.items[id], place[id], b.worker);
  }

  lemma PublishKeepsInv(b: Bus, id: nat, passive: bool, place: map<nat, Place>, head: int) returns (p: map<nat, Place>)
    requires Inv(b, place, head) && id !in b.items
    ensures Inv(Publish(b, id, passive), p, head)
  {
    assert id !in b.marking && b.marking - {id} == b.marking by {
      assert b.marking <= place.Keys;
    }
    hide Placed, ItemsFit;
    if b.closed || b.stopped {
      p := place[id := Done];
      AsideKeepsInv(b, id, Settle(Fresh(passive), REFUSAL), Done, b.marking, place, head);
    } else if passive {
      p := place[id := Marking];
      AsideKeepsInv(b, id, Fresh(passive), Marking, b.marking + {id}, place, head);
    } else {
      p := place[id := Queued(head + |b.queue|)];
      EnqueueKeepsInv(b, id, passive, place, head);
    }
  }

  lemma ResumeKeepsInv(b: Bus, id: nat, place: map<nat, Place>, head: int) returns (p: map<nat, Place>)
    requires Inv(b, place, head) && id in b.marking && id in b.items
    ensures Inv(ResumePublish(b, id), p, head)
  {
    MarkedIsFresh(b, id, place, head);
    hide Placed, ItemsFit;
    if b.closed || b.stopped {
      p := place[id := Done];
      AsideKeepsInv(b, id, Settle(b.items[id], REFUSAL), Done, b.marking - {id}, place, head);
    } else {
      p := place[id := Queued(head + |b.queue|)];
      EnqueueKeepsInv(b, id, b.items[id].passive, place, head);
      assert b.items[id := b.items[id]] == b.items;
    }
  }

  lemma PopKeepsInv(b: Bus, c: Bus, p: Place, place: map<nat, Place>, head: int)
    requires Inv(b, place, head) && b.queue != [] && b.worker in {Absent, Getting} && Known(b)
    requires c == b.(items := c.items, queue := b.queue[1..], worker := c.worker) && Phased(c)
    requires b.queue[0] in c.items && c.items == b.items[b.queue[0] := c.items[b.queue[0]]]
    requires ItemFits(c.items[b.queue[0]], p, c.worker)
    requires p == Done || p == InFlight
    requires p == InFlight <==> Held(c.worker) != None
    requires p == InFlight ==> Held(c.worker) == Some(b.queue[0])
    ensures Inv(c, place[b.queue[0] := p], head + 1)
  {
  }

  lemma WorkerKeepsInv(b: Bus, c: Bus, p: Place, place: map<nat, Place>, head: int)
    requires Inv(b, place, head) && Held(b.worker) != None && Known(b)
    requires c == b.(items := c.items, worker := c.worker, running := c.running, stopped := c.stopped, closing := c.closing)
    requires Phased(c)
    requires b.worker.id in c.items && c.items == b.items[b.worker.id := c.items[b.worker.id]]
    requires ItemFits(c.items[b.worker.id], p, c.worker)
    requires p == Done || p == InFlight
    requires Held(c.worker) == if p == InFlight then Some(b.worker.id) else None
    ensures Inv(c, place[b.worker.id := p], head)
  {
    var q := place[b.worker.id := p];
    hide Phased;
    assert QueueFits(c.queue, q, head) by { hide ItemFits; }
    assert OthersFit(c.marking, Held(c.worker), q) by { hide QueueFits, ItemFits; }
    hide QueueFits, OthersFit;
    HeldIsAlone(b, place, head);
    assert ItemsFit(c, q) by {
      forall id | id in c.items
        ensures ItemFits(c.items[id], q[id], c.worker)
      {
        assert id != b.worker.id ==> ItemFits(b.items[id], place[id], b.worker);
      }
    }
  }

  lemma HeldIsAlone(b: Bus, place: map<nat, Place>, head: int)
    requires Inv(b, place, head)
    ensures forall id :: id in b.items && Held(b.worker) != Some(id) ==> place[id] != InFlight
  {
    hide QueueFits, ItemFits;
  }

  lemma FlagsKeepInv(b: Bus, c: Bus, place: map<nat, Place>, head: int)
    requires Inv(b, place, head)
    requires c == b.(worker := c.worker, running := c.running, stopped := c.stopped, closed := c.closed, closing := c.closing)
    requires Phased(c) && (c.worker == b.worker || Held(b.worker) == Held(c.worker) == None)
    ensures Inv(c, place, head)
  {
  }

  lemma FrontIsFresh(b: Bus, place: map<nat, Place>, head: int)
    requires Inv(b, place, head) && b.queue != []
    ensures b.queue[0] in b.items
    ensures var it := b.items[b.queue[0]]; it.receipt == None && !it.started && it.calls == 0 && it.settles == 0
  {
    assert place[b.queue[0]] == Queued(head);
  }

  lemma HeldIsOpen(b: Bus, place: map<nat, Place>, head: int)
    requires Inv(b, place, head) && Held(b.worker) != None
    ensures b.worker.id in b.items && ItemFits(b.items[b.worker.id], InFlight, b.worker)
  {
    assert place[b.worker.id] == InFlight;
  }

  lemma KnownFromInv(b: Bus, place: map<nat, Place>, head: int)
    requires Inv(b, place, head)
    ensures Known(b)
  {
    forall k | 0 <= k < |b.queue|
      ensures b.queue[k] in b.items
    {
      assert place[b.queue[k]] == Queued(head + k);
    }
  }

  lemma TakeKeepsInv(b: Bus, place: map<nat, Place>, head: int) returns (p: map<nat, Place>)
    requires Inv(b, place, head) && b.worker.Getting? && b.queue != [] && Known(b)
    ensures Inv(Take(b), p, head + 1)
  {
    FrontIsFresh(b, place, head);
    var to := if b.closed then Done else InFlight;
    p := place[b.queue[0] := to];
    hide Placed, ItemsFit;
    var c := Take(b);
    var d := c.(running := b.running, stopped := b.stopped, closing := b.closing,
                worker := if b.closed then Rejecting(b.queue[0]) else c.worker);
    PopKeepsInv(b, d, to, place, head);
    FlagsKeepInv(d, c, p, head + 1);
  }

  lemma DrainKeepsInv(b: Bus, place: map<nat, Place>, head: int) returns (p: map<nat, Place>, h: int)
    requires Inv(b, place, head) && b.closing == OutboundDrain && Known(b)
    ensures Inv(DrainOne(b), p, h)
  {
    p, h := place, head;
    if b.queue == [] {
      FlagsKeepInv(b, DrainOne(b), place, head);
    } else {
      FrontIsFresh(b, place, head);
      hide Placed, ItemsFit;
      PopKeepsInv(b, DrainOne(b), Done, place, head);
      p, h := place[b.queue[0] := Done], head + 1;
    }
  }

  predicate OnWorker(a: Action) {
    a.LaneRefuses? || a.DoSend? || a.DoAnswer? || a.DoLeave? || a.DoCancel?
  }

  /** The worker moves on with the item it holds. */
  lemma SendKeepsInv(b: Bus, gate: Gate, place: map<nat, Place>, head: int)
    requires Inv(b, place, head) && b.worker.InLane? && Known(b)
    ensures Inv(StartSend(b, gate), place, head)
  {
    HeldIsOpen(b, place, head);
    assert place == place[b.worker.id := InFlight];
    hide Placed, ItemsFit, Known;
    WorkerKeepsInv(b, StartSend(b, gate), InFlight, place, head);
  }

  lemma RestKeepsInv(b: Bus, outcome: Outcome, place: map<nat, Place>, head: int)
    requires Inv(b, place, head) && Held(b.worker) != None && Known(b)
    requires outcome.Returns? ==> b.worker.Calling? && (outcome.receipt.byBus ==> outcome.receipt.status == Failed)
    ensures Inv(b.(worker := Leaving(b.worker.id, outcome)), place, head)
  {
    HeldIsOpen(b, place, head);
    assert place == place[b.worker.id := InFlight];
    hide Placed, ItemsFit, Known;
    assert b.items == b.items[b.worker.id := b.items[b.worker.id]];
    WorkerKeepsInv(b, b.(worker := Leaving(b.worker.id, outcome)), InFlight, place, head);
  }

  lemma MoveKeepsInv(b: Bus, a: Action, place: map<nat, Place>, head: int)
    requires Inv(b, place, head) && Enabled(b, a) && Known(b) && Held(b.worker) != None
    requires a.LaneRefuses? || a.DoSend? || a.DoAnswer? || (a.DoCancel? && !b.worker.Leaving?)
    ensures Inv(Step(b, a), place, head)
  {
    hide Inv, StartSend, Known;
    if a.DoSend? {
      SendKeepsInv(b, a.gate, place, head);
    } else {
      RestKeepsInv(b, Step(b, a).worker.outcome, place, head);
    }
  }

  /** The worker lets go of the item it holds, with an answer; it may end too. */
  lemma AnswerKeepsInv(b: Bus, r: Receipt, c: Bus, place: map<nat, Place>, head: int)
    requires Inv(b, place, head) && b.worker.Leaving? && Known(b) && Truthful(r, b.items[b.worker.id])
    requires c == SettleIn(b, b.worker.id, r).(worker := c.worker, running := c.running, stopped := c.stopped, closing := c.closing)
    requires Phased(c) && Held(c.worker) == None
    ensures Inv(c, place[b.worker.id := Done], head)
  {
    HeldIsOpen(b, place, head);
    hide Placed, ItemsFit, Known;
    WorkerKeepsInv(b, c, Done, place, head);
  }

  lemma DieKeepsInv(b: Bus, error: bool, place: map<nat, Place>, head: int)
    requires Inv(b, place, head) && b.worker.Leaving? && Known(b)
    ensures Inv(Die(b, b.worker.id, error), place[b.worker.id := Done], head)
  {
    HeldIsOpen(b, place, head);
    hide Placed, ItemsFit, Known;
    AnswerKeepsInv(b, LastWord(b.items[b.worker.id]), Die(b, b.worker.id, error), place, head);
  }

  lemma LeaveKeepsInv(b: Bus, balanced: bool, place: map<nat, Place>, head: int)
    requires Inv(b, place, head) && b.worker.Leaving? && Known(b)
    ensures Inv(LeaveLane(b, balanced), place[b.worker.id := Done], head)
  {
    if !balanced || !b.worker.outcome.Returns? {
      DieKeepsInv(b, !balanced || b.worker.outcome == Raises, place, head);
    } else {
      HeldIsOpen(b, place, head);
      hide Placed, ItemsFit, Known;
      AnswerKeepsInv(b, b.worker.outcome.receipt, LeaveLane(b, balanced), place, head);
    }
  }

  lemma HeldKeepsInv(b: Bus, a: Action, place: map<nat, Place>, head: int) returns (p: map<nat, Place>)
    requires Inv(b, place, head) && Enabled(b, a) && Known(b) && OnWorker(a) && Held(b.worker) != None
    ensures Inv(Step(b, a), p, head)
  {
    hide Inv, LeaveLane, Die, StartSend;
    if a.DoLeave? {
      p := place[b.worker.id := Done];
      LeaveKeepsInv(b, a.balanced, place, head);
    } else if b.worker.Leaving? {
      p := place[b.worker.id := Done];
      DieKeepsInv(b, false, place, head);
    } else {
      p := place;
      hide Step;
      MoveKeepsInv(b, a, place, head);
    }
  }

  lemma StopKeepsInv(b: Bus, place: map<nat, Place>, head: int) returns (p: map<nat, Place>)
    requires Inv(b, place, head) && Known(b) && b.closing == Stopping
    ensures Inv(StopWorker(b), p, head)
  {
    p := place;
    assert Phased(b);
    hide Placed, ItemsFit, Known;
    if b.worker.Leaving? {
      var d := Die(b, b.worker.id, false);
      p := place[b.worker.id := Done];
      DieKeepsInv(b, false, place, head);
      FlagsKeepInv(d, StopWorker(b), p, head);
    } else if b.worker.InLane? {
      var d := b.(worker := Leaving(b.worker.id, Interrupted));
      RestKeepsInv(b, Interrupted, place, head);
      FlagsKeepInv(d, StopWorker(b), place, head);
    } else {
      FlagsKeepInv(b, StopWorker(b), place, head);
    }
  }

  lemma QuietKeepsInv(b: Bus, a: Action, place: map<nat, Place>, head: int)
    requires Inv(b, place, head) && Enabled(b, a) && Known(b)
    requires a.DoStart? || a.DoStop? || a.GetTimesOut? || a.RejectDone? || a.DoClose? ||
             a.InboundDrained? || (a.DoCancel? && Held(b.worker) == None)
    ensures Inv(Step(b, a), place, head)
  {
    hide Placed, ItemsFit, Known;
    FlagsKeepInv(b, Step(b, a), place, head);
  }

  lemma StepKeepsInv(b: Bus, a: Action, place: map<nat, Place>, head: int) returns (p: map<nat, Place>, h: int)
    requires Inv(b, place, head) && Enabled(b, a) && Known(b)
    ensures Inv(Step(b, a), p, h)
  {
    hide Inv;
    p, h := place, head;
    if a.DoPublish? {
      p := PublishKeepsInv(b, a.id, a.passive, place, head);
    } else if a.DoResume? {
      p := ResumeKeepsInv(b, a.id, place, head);
    } else if a.PublisherGivesUp? {
      p := place - {a.id};
      ForgetKeepsInv(b, a.id, place, head);
    } else if a.DoTake? {
      p := TakeKeepsInv(b, place, head);
      h := head + 1;
    } else if a.LookAtWorker? {
      p := StopKeepsInv(b, place, head);
    } else if a.DoDrain? {
      p, h := DrainKeepsInv(b, place, head);
    } else if OnWorker(a) && Held(b.worker) != None {
      p := HeldKeepsInv(b, a, place, head);
    } else {
      QuietKeepsInv(b, a, place, head);
    }
  }

  // ---------------------------------------------------------------------------
  // Whole runs
  // ---------------------------------------------------------------------------

  ghost predicate Moves(b: Bus, a: Action, c: Bus) {
    Known(b) && Enabled(b, a) && c == Step(b, a)
  }

  ghost predicate IsRun(states: seq<Bus>, acts: seq<Action>) {
    |states| == |acts| + 1 && states[0] == EMPTY &&
    forall i :: 0 <= i < |acts| ==> Moves(states[i], acts[i], states[i + 1])
  }

  lemma {:induction false} RunsKeepInv(states: seq<Bus>, acts: seq<Action>, i: nat)
    returns (place: map<nat, Place>, head: int)
    requires IsRun(states, acts) && i < |states|
    ensures Inv(states[i], place, head) && Known(states[i])
  {
    if i == 0 {
      place, head := map[], 0;
    } else {
      place, head := RunsKeepInv(states, acts, i - 1);
      assert Moves(states[i - 1], acts[i - 1], states[i - 1 + 1]);
      hide Inv, Step;
      place, head := StepKeepsInv(states[i - 1], acts[i - 1], place, head);
      KnownFromInv(states[i], place, head);
    }
  }

  /** Main result: in every state of every run an item's provider was called at most once
      and its receipt set at most once; a refusal by the bus means the provider was never
      called, a failure reported by the bus that it was, and so does the provider's own
      receipt. */
  lemma ReceiptsAreExact(states: seq<Bus>, acts: seq<Action>, i: nat, id: nat)
    requires IsRun(states, acts) && i < |states| && id in states[i].items
    ensures var it := states[i].items[id];
            && it.calls <= 1
            && it.settles == (if it.receipt == None then 0 else 1)
            && (it.receipt == Some(Receipt(Rejected, true)) ==> it.calls == 0)
            && (it.receipt == Some(Receipt(Failed, true)) ==> it.calls == 1)
            && (it.receipt != None && it.receipt.value.byBus ==> it.receipt.value.status != Delivered)
            && (it.receipt != None && !it.receipt.value.byBus ==> it.calls == 1)
  {
    var place, head := RunsKeepInv(states, acts, i);
    assert ItemFits(states[i].items[id], place[id], states[i].worker);
  }

  /** Main result: an item without a receipt is registering, queued, or held by the
      worker, in exactly one of these and at most once in the queue. */
  lemma NothingIsLost(states: seq<Bus>, acts: seq<Action>, i: nat, id: nat)
    requires IsRun(states, acts) && i < |states| && id in states[i].items
    ensures var b := states[i];
            && (b.items[id].receipt == None <==> id in b.marking || id in b.queue || Held(b.worker) == Some(id))
            && !(id in b.marking && id in b.queue)
            && (Held(b.worker) == Some(id) ==> id !in b.marking && id !in b.queue)
            && (forall j, k :: 0 <= j < |b.queue| && 0 <= k < |b.queue| && b.queue[j] == b.queue[k] ==> j == k)
  {
    var b := states[i];
    var place, head := RunsKeepInv(states, acts, i);
    assert ItemFits(b.items[id], place[id], b.worker);
    forall j | 0 <= j < |b.queue|
      ensures place[b.queue[j]] == Queued(head + j)
    {
    }
  }

  /** Main result: when close finishes, every publisher is answered or about to find the
      bus closed, and nothing is queued or in flight. */
  lemma FinishedCloseAnswersEverything(states: seq<Bus>, acts: seq<Action>, i: nat, id: nat)
    requires IsRun(states, acts) && i < |states| && states[i].closing == Finished && id in states[i].items
    ensures states[i].items[id].receipt != None || id in states[i].marking
    ensures id in states[i].marking ==> ResumePublish(states[i], id).items[id].receipt == Some(REFUSAL)
    ensures states[i].queue == [] && states[i].worker == Absent
  {
    var place, head := RunsKeepInv(states, acts, i);
    NothingIsLost(states, acts, i, id);
    assert ItemFits(states[i].items[id], place[id], states[i].worker);
  }

  lemma PublishingKeepsOthers(b: Bus, a: Action, id: nat)
    requires Known(b) && Enabled(b, a) && id in b.items && id !in b.marking
    requires a.DoPublish? || a.DoResume? || a.PublisherGivesUp?
    ensures id in Step(b, a).items && Step(b, a).items[id] == b.items[id]
  {
    hide Known;
  }

  lemma SettledKeepsReceipt(b: Bus, a: Action, id: nat)
    requires Known(b) && Enabled(b, a) && id in b.items && b.items[id].receipt != None && Held(b.worker) != Some(id)
    requires !a.DoPublish? && !a.DoResume? && !a.PublisherGivesUp?
    ensures id in Step(b, a).items && Step(b, a).items[id] == b.items[id]
  {
    hide Publish, ResumePublish;
    if a.DoTake? || a.DoDrain? {
      hide LeaveLane, Cancel, StartSend;
    } else if OnWorker(a) {
      hide Take, DrainOne;
    } else {
      hide Take, DrainOne, LeaveLane, Cancel, StartSend, Settle, Known;
    }
  }

  lemma ReceiptStays(b: Bus, a: Action, id: nat, place: map<nat, Place>, head: int)
    requires Inv(b, place, head) && Known(b) && Enabled(b, a) && id in b.items && b.items[id].receipt != None
    ensures id in Step(b, a).items && Step(b, a).items[id] == b.items[id]
  {
    assert ItemFits(b.items[id], place[id], b.worker);
    assert id !in b.marking && Held(b.worker) != Some(id);
    hide Inv, Known, Step;
    if a.DoPublish? || a.DoResume? || a.PublisherGivesUp? {
      PublishingKeepsOthers(b, a, id);
    } else {
      SettledKeepsReceipt(b, a, id);
    }
  }

  /** A receipt, once set, never changes. */
  lemma {:induction false} ReceiptsAreFinal(states: seq<Bus>, acts: seq<Action>, i: nat, j: nat, id: nat)
    requires IsRun(states, acts) && i <= j < |states| && id in states[i].items && states[i].items[id].receipt != None
    ensures id in states[j].items && states[j].items[id] == states[i].items[id]
    decreases j - i
  {
    hide Inv, Step, Known, Enabled;
    if i < j {
      ReceiptsAreFinal(states, acts, i, j - 1, id);
      var place, head := RunsKeepInv(states, acts, j - 1);
      assert Moves(states[j - 1], acts[j - 1], states[j - 1 + 1]);
      ReceiptStays(states[j - 1], acts[j - 1], id, place, head);
    }
  }

  /** How often the provider was called for an item. */
  function CallsOf(b: Bus, id: nat): nat {
    if id in b.items then b.items[id].calls else 0
  }

  lemma SettlingCallsNobody(b: Bus, id: nat, r: Receipt, x: nat)
    requires id in b.items
    ensures var n := SettleIn(b, id, r); n == b.(items := n.items) && CallsOf(n, x) == CallsOf(b, x)
  {
  }

  lemma DyingCallsNobody(b: Bus, id: nat, error: bool, x: nat)
    requires id in b.items
    ensures var n := Die(b, id, error); n.closed == b.closed && CallsOf(n, x) == CallsOf(b, x)
  {
    SettlingCallsNobody(b, id, LastWord(b.items[id]), x);
    hide SettleIn;
  }

  lemma LeavingCallsNobody(b: Bus, balanced: bool, x: nat)
    requires b.worker.Leaving? && b.worker.id in b.items
    ensures var n := LeaveLane(b, balanced); n.closed == b.closed && CallsOf(n, x) == CallsOf(b, x)
  {
    DyingCallsNobody(b, b.worker.id, true, x);
    DyingCallsNobody(b, b.worker.id, false, x);
    if b.worker.outcome.Returns? {
      SettlingCallsNobody(b, b.worker.id, b.worker.outcome.receipt, x);
    }
    hide Die, SettleIn;
  }

  lemma CancelCallsNobody(b: Bus, x: nat)
    requires b.worker.Leaving? ==> b.worker.id in b.items
    ensures var n := Cancel(b); n.closed == b.closed && CallsOf(n, x) == CallsOf(b, x)
  {
    if b.worker.Leaving? {
      DyingCallsNobody(b, b.worker.id, false, x);
    }
    hide Die;
  }

  lemma WorkerCallsNobody(b: Bus, a: Action, x: nat)
    requires Known(b) && Enabled(b, a) && b.closed && (OnWorker(a) || a.LookAtWorker?)
    ensures Step(b, a).closed && CallsOf(Step(b, a), x) == CallsOf(b, x)
  {
    if b.worker.Leaving? {
      LeavingCallsNobody(b, a.DoLeave? && a.balanced, x);
    }
    CancelCallsNobody(b, x);
    CancelCallsNobody(b.(closing := Waiting), x);
    hide Cancel, LeaveLane;
  }

  lemma PublisherCallsNobody(b: Bus, a: Action, x: nat)
    requires Known(b) && Enabled(b, a) && b.closed && !OnWorker(a) && !a.LookAtWorker?
    requires a.PublisherGivesUp? ==> CallsOf(b, a.id) == 0
    ensures Step(b, a).closed && CallsOf(Step(b, a), x) == CallsOf(b, x)
  {
    if b.queue != [] {
      SettlingCallsNobody(b, b.queue[0], REFUSAL, x);
      SettlingCallsNobody(b.(queue := b.queue[1..]), b.queue[0], REFUSAL, x);
    }
    if a.DoResume? {
      SettlingCallsNobody(b, a.id, REFUSAL, x);
    }
    hide SettleIn;
  }

  lemma ClosedStepCallsNobody(b: Bus, a: Action, x: nat, place: map<nat, Place>, head: int)
    requires Inv(b, place, head) && Known(b) && Enabled(b, a) && b.closed
    ensures Step(b, a).closed && CallsOf(Step(b, a), x) == CallsOf(b, x)
  {
    if a.PublisherGivesUp? {
      MarkedIsFresh(b, a.id, place, head);
    }
    hide Inv, Step, Known;
    if OnWorker(a) || a.LookAtWorker? {
      WorkerCallsNobody(b, a, x);
    } else {
      PublisherCallsNobody(b, a, x);
    }
  }

  lemma UncalledIsRefused(b: Bus, id: nat, place: map<nat, Place>, head: int)
    requires Inv(b, place, head) && id in b.items && b.items[id].receipt != None && b.items[id].calls == 0
    ensures b.items[id].receipt == Some(REFUSAL)
  {
    assert ItemFits(b.items[id], place[id], b.worker);
  }

  /** Main result: once the bus is closed no provider is called any more, for no item; one
      that was not called by then is answered with a refusal, if at all. */
  lemma {:induction false} NoCallAfterClose(states: seq<Bus>, acts: seq<Action>, i: nat, j: nat, id: nat)
    requires IsRun(states, acts) && i <= j < |states| && states[i].closed
    ensures states[j].closed && CallsOf(states[j], id) == CallsOf(states[i], id)
    ensures id in states[j].items && states[j].items[id].receipt != None && CallsOf(states[i], id) == 0 ==>
              states[j].items[id].receipt == Some(REFUSAL)
    decreases j
  {
    hide Inv, Step, Known, Enabled;
    var place, head := RunsKeepInv(states, acts, j);
    if i < j {
      NoCallAfterClose(states, acts, i, j - 1, id);
      var p, h := RunsKeepInv(states, acts, j - 1);
      assert Moves(states[j - 1], acts[j - 1], states[j - 1 + 1]);
      ClosedStepCallsNobody(states[j - 1], acts[j - 1], id, p, h);
    }
    if id in states[j].items && states[j].items[id].receipt != None && states[j].items[id].calls == 0 {
      UncalledIsRefused(states[j], id, place, head);
    }
  }

  /** What the worker takes after the bus was closed is refused, and the worker ends: at once,
      or for a passive item once its mark is taken back. */
  lemma TakenAfterClose(b: Bus)
    requires Known(b) && b.closed && b.worker.Getting? && b.queue != []
    ensures var id, n := b.queue[0], Step(b, DoTake);
            && n.items == b.items[id := n.items[id]] && n.queue == b.queue[1..] && n.marking == b.marking
            && n.items[id].calls == b.items[id].calls
            && n.items[id].receipt == (if b.items[id].receipt == None then Some(REFUSAL) else b.items[id].receipt)
            && n.worker == (if b.items[id].passive then Rejecting(id) else Absent)
            && (!b.items[id].passive ==> n.stopped && !n.running)
            && (b.items[id].passive ==> Enabled(n, RejectDone) && Step(n, RejectDone).worker == Absent && Step(n, RejectDone).stopped)
  {
  }

  // ---------------------------------------------------------------------------
  // Where close gives up
  // ---------------------------------------------------------------------------

  /** Close gives up exactly when the worker it waits for ends in an error, or when
      emptying the inbound queue raises; otherwise it goes on to drain the queue. */
  lemma CloseAbortsExactlyOnError(b: Bus, a: Action)
    requires Known(b) && Enabled(b, a) && b.closing != Aborted
    ensures Step(b, a).closing == Aborted <==>
              (b.closing == Waiting && a.DoLeave? && (!a.balanced || b.worker.outcome == Raises)) ||
              (b.closing == InboundDrain && a == InboundDrained(false))
  {
    hide Known, Settle;
  }

  lemma StrandedStep(b: Bus, a: Action, place: map<nat, Place>, head: int)
    requires Inv(b, place, head) && Known(b) && Enabled(b, a) && b.closing == Aborted
    ensures Step(b, a).closing == Aborted && Step(b, a).queue == b.queue
  {
    hide Placed, ItemsFit, Known;
  }

  lemma QueuedIsOpen(b: Bus, id: nat, place: map<nat, Place>, head: int)
    requires Inv(b, place, head) && id in b.queue
    ensures id in b.items && b.items[id].receipt == None
  {
    var k :| 0 <= k < |b.queue| && b.queue[k] == id;
    assert place[id] == Queued(head + k);
    assert ItemFits(b.items[id], place[id], b.worker);
  }

  /** Main result: once close has given up, an item left in the queue never gets a
      receipt, whatever happens next: its publisher waits for ever. */
  lemma {:induction false} AbortedCloseStrandsQueue(states: seq<Bus>, acts: seq<Action>, i: nat, j: nat, id: nat)
    requires IsRun(states, acts) && i <= j < |states| && states[i].closing == Aborted && id in states[i].queue
    ensures states[j].closing == Aborted && states[j].queue == states[i].queue
    ensures id in states[j].items && states[j].items[id].receipt == None
    decreases j - i
  {
    hide Inv, Step, Known, Enabled;
    if i < j {
      AbortedCloseStrandsQueue(states, acts, i, j - 1, id);
      var place, head := RunsKeepInv(states, acts, j - 1);
      assert Moves(states[j - 1], acts[j - 1], states[j - 1 + 1]);
      StrandedStep(states[j - 1], acts[j - 1], place, head);
    }
    var p, h := RunsKeepInv(states, acts, j);
    QueuedIsOpen(states[j], id, p, h);
  }

  /** After close has ended, everybody is answered exactly when the queue is empty; a
      close that did not give up always leaves it empty. */
  lemma EndedCloseAnswersIffQueueEmpty(states: seq<Bus>, acts: seq<Action>, i: nat)
    requires IsRun(states, acts) && i < |states| && states[i].closing in {Finished, Aborted}
    ensures (forall id :: id in states[i].items && id !in states[i].marking ==> states[i].items[id].receipt != None)
            <==> states[i].queue == []
    ensures states[i].closing == Finished ==> states[i].queue == []
  {
    var b := states[i];
    var place, head := RunsKeepInv(states, acts, i);
    if b.queue == [] {
      forall id | id in b.items && id !in b.marking
        ensures b.items[id].receipt != None
      {
        NothingIsLost(states, acts, i, id);
      }
    } else {
      FrontIsFresh(b, place, head);
      NothingIsLost(states, acts, i, b.queue[0]);
    }
  }

  const OPEN_ITEM := Fresh(false)

  /** One delivery at its provider, one queued. */
  const BUSY := Bus(map[1 := Item(false, true, 1, 0, None), 2 := OPEN_ITEM], {}, [2], Calling(1), true, false, false, NotAsked)

  lemma BusyIsReached(acts: seq<Action>) returns (states: seq<Bus>)
    requires acts == [DoStart, DoPublish(1, false), DoPublish(2, false), DoTake, DoSend(Open)]
    ensures IsRun(states, acts) && states[5] == BUSY
  {
    var s1 := EMPTY.(worker := Getting, running := true);
    var s2 := s1.(items := map[1 := OPEN_ITEM], queue := [1]);
    var s3 := s2.(items := map[1 := OPEN_ITEM, 2 := OPEN_ITEM], queue := [1, 2]);
    var s4 := s3.(queue := [2], worker := InLane(1));
    assert Moves(EMPTY, acts[0], s1) by { hide Take, StartSend; }
    assert Moves(s1, acts[1], s2) by { hide Take, StartSend; }
    assert Moves(s2, acts[2], s3) by { hide Take, StartSend; }
    assert Moves(s3, acts[3], s4) by { hide Publish, StartSend; }
    assert Moves(s4, acts[4], BUSY) by { hide Publish, Take; }
    hide Moves;
    states := [EMPTY, s1, s2, s3, s4, BUSY];
  }

  /** Such a run exists: the worker answers the cancellation of close with an error while
      a second delivery is queued. */
  lemma ProviderErrorDuringCloseStrandsQueue() returns (states: seq<Bus>, acts: seq<Action>)
    ensures IsRun(states, acts)
    ensures states[|acts|].closing == Aborted && states[|acts|].queue == [2]
  {
    var first := [DoStart, DoPublish(1, false), DoPublish(2, false), DoTake, DoSend(Open)];
    var start := BusyIsReached(first);
    var tail, last := BusyCloseAborts();
    acts, states := first + last, start + tail[1..];
    assert forall i :: |first| <= i < |acts| ==> states[i] == tail[i - |first|] && acts[i] == last[i - |first|];
    hide Moves;
  }

  lemma BusyCloseAborts() returns (states: seq<Bus>, acts: seq<Action>)
    ensures |states| == |acts| + 1 && states[0] == BUSY
    ensures forall i :: 0 <= i < |acts| ==> Moves(states[i], acts[i], states[i + 1])
    ensures states[|acts|].closing == Aborted && states[|acts|].queue == [2]
  {
    var s6 := BUSY.(closed := true, running := false, closing := Stopping);
    var s7 := s6.(closing := Waiting);
    var s8 := s7.(worker := Leaving(1, Raises));
    var s9 := s8.(items := map[1 := Item(false, true, 1, 1, Some(Receipt(Failed, true))), 2 := OPEN_ITEM],
                  worker := Absent, stopped := true, closing := Aborted);
    assert Moves(BUSY, DoClose, s6);
    assert Moves(s6, LookAtWorker, s7);
    assert Moves(s7, DoAnswer(Malformed), s8);
    assert Moves(s8, DoLeave(true), s9);
    hide Moves;
    acts := [DoClose, LookAtWorker, DoAnswer(Malformed), DoLeave(true)];
    states := [BUSY, s6, s7, s8, s9];
  }

  // ---------------------------------------------------------------------------
  // Progress: what becomes of a delivery, and of a close
  // ---------------------------------------------------------------------------

  ghost predicate Sound(b: Bus) {
    Known(b) && exists place, head :: Inv(b, place, head)
  }

  lemma SoundStep(b: Bus, a: Action)
    requires Sound(b) && Enabled(b, a)
    ensures Sound(Step(b, a))
  {
    var place, head :| Inv(b, place, head);
    hide Inv, Step;
    var p, h := StepKeepsInv(b, a, place, head);
    KnownFromInv(Step(b, a), p, h);
  }

  /** The state after a list of steps, if they are possible one after the other. */
  ghost function After(b: Bus, acts: seq<Action>): Option<Bus>
    decreases |acts|
  {
    if !Known(b) then None
    else if acts == [] then Some(b)
    else if !Enabled(b, acts[0]) then None
    else After(Step(b, acts[0]), acts[1..])
  }

  /** What the worker does with the next item. */
  function DeliveryActs(gate: Gate, reply: Reply): seq<Action> {
    [DoTake, DoSend(gate)] + (if gate == Open then [DoAnswer(reply)] else []) + [DoLeave(true)]
  }

  /** The receipt its publisher is meant to get. */
  function DeliveryReceipt(gate: Gate, reply: Reply): Receipt {
    if gate != Open then Receipt(Rejected, true)
    else if reply.Valid? then Receipt(reply.status, false)
    else Receipt(Failed, true)
  }

  /** The bus after the front of the queue was served. */
  function Served(b: Bus, gate: Gate, reply: Reply): Bus
    requires b.queue != [] && b.queue[0] in b.items
  {
    var ends := gate == Unbound || (gate == Open && reply == Malformed);
    var calls := if gate == Open then 1 else 0;
    b.(queue := b.queue[1..], running := !ends, stopped := b.stopped || ends, worker := if ends then Absent else Getting,
       items := b.items[b.queue[0] := Item(b.items[b.queue[0]].passive, gate == Open, calls, 1,
                                           Some(DeliveryReceipt(gate, reply)))])
  }

  lemma DeliverySections(b: Bus, gate: Gate, reply: Reply)
    requires !b.closed && b.closing == NotAsked && b.running && b.worker == Getting && b.queue != []
    requires b.queue[0] in b.items && b.items[b.queue[0]] == Fresh(b.items[b.queue[0]].passive)
    ensures Take(b).worker == InLane(b.queue[0]) && b.queue[0] in Take(b).items
    ensures var sent := StartSend(Take(b), gate);
            if gate == Open then
              sent.worker.Calling? && Answered(sent, reply).worker.Leaving? &&
              Answered(sent, reply).worker.id in Answered(sent, reply).items &&
              LeaveLane(Answered(sent, reply), true) == Served(b, gate, reply)
            else
              sent.worker.Leaving? && sent.worker.id in sent.items && LeaveLane(sent, true) == Served(b, gate, reply)
  {
    var id := b.queue[0];
    var sent := StartSend(Take(b), gate);
    if gate == Open {
      var called := b.items[id].(started := true, calls := 1);
      assert sent.items == b.items[id := called];
      assert b.items[id := called][id := Settle(called, DeliveryReceipt(gate, reply))] ==
             b.items[id := Settle(called, DeliveryReceipt(gate, reply))];
    }
  }

  /** Main result: on an open bus the running worker serves the front of the queue: the
      provider is called once if the gate lets it, its status is what the publisher gets,
      nobody else is touched, and the worker goes on unless the provider is gone or broke
      its promise. */
  lemma FrontIsDelivered(b: Bus, gate: Gate, reply: Reply)
    requires Sound(b) && !b.closed && b.running && b.worker == Getting && b.queue != []
    ensures b.queue[0] in b.items && After(b, DeliveryActs(gate, reply)) == Some(Served(b, gate, reply))
  {
    hide Sound, Take, StartSend, Answered, LeaveLane, Served, After;
    FrontFacts(b);
    DeliverySections(b, gate, reply);
    var b1 := Take(b);
    var b2 := StartSend(b1, gate);
    MovesOn(b, DoTake, b1);
    MovesOn(b1, DoSend(gate), b2);
    if gate == Open {
      var b3 := Answered(b2, reply);
      MovesOn(b2, DoAnswer(reply), b3);
      MovesOn(b3, DoLeave(true), Served(b, gate, reply));
      hide Moves;
      AfterThree(b1, DoSend(gate), b2, DoAnswer(reply), b3, DoLeave(true), Served(b, gate, reply));
      AfterOne(b, DoTake, b1, [DoSend(gate), DoAnswer(reply), DoLeave(true)]);
      assert DeliveryActs(gate, reply) == [DoTake] + [DoSend(gate), DoAnswer(reply), DoLeave(true)];
    } else {
      MovesOn(b2, DoLeave(true), Served(b, gate, reply));
      hide Moves;
      AfterThree(b, DoTake, b1, DoSend(gate), b2, DoLeave(true), Served(b, gate, reply));
      assert DeliveryActs(gate, reply) == [DoTake, DoSend(gate), DoLeave(true)];
    }
  }

  lemma FrontFacts(b: Bus)
    requires Sound(b) && !b.closed && b.queue != []
    ensures b.closing == NotAsked && b.queue[0] in b.items && b.items[b.queue[0]] == Fresh(b.items[b.queue[0]].passive)
  {
    var place, head :| Inv(b, place, head);
    hide Placed, ItemsFit;
    FrontIsFresh(b, place, head);
  }

  lemma MovesOn(b: Bus, a: Action, c: Bus)
    requires Sound(b) && Enabled(b, a) && c == Step(b, a)
    ensures Moves(b, a, c) && Sound(c) && Known(c)
  {
    SoundStep(b, a);
  }

  lemma AfterOne(b: Bus, a: Action, c: Bus, rest: seq<Action>)
    requires Moves(b, a, c)
    ensures After(b, [a] + rest) == After(c, rest)
  {
    assert ([a] + rest)[1..] == rest;
  }

  lemma AfterThree(b: Bus, x: Action, c: Bus, y: Action, d: Bus, z: Action, e: Bus)
    requires Moves(b, x, c) && Moves(c, y, d) && Moves(d, z, e) && Known(e)
    ensures After(b, [x, y, z]) == Some(e)
  {
    hide Moves;
    AfterOne(b, x, c, [y, z]);
    AfterOne(c, y, d, [z]);
    AfterOne(d, z, e, []);
    assert [x, y, z] == [x] + [y, z] && [y, z] == [y] + [z] && [z] == [z] + [];
  }

  /** A stopped worker ends at its next look at the queue, and refuses publishers from then
      on; starting a new one on an open bus takes them again, with the queue as it was. */
  lemma StopsAndStarts(b: Bus, id: nat, passive: bool)
    requires Sound(b) && !b.closed && b.worker == Getting && id !in b.items
    ensures var s := After(b, [DoStop, GetTimesOut]);
            && s == Some(b.(running := false, stopped := true, worker := Absent))
            && Publish(s.value, id, passive).items[id].receipt == Some(REFUSAL)
    ensures var c := After(b, [DoStop, GetTimesOut, DoStart]);
            && c == Some(b.(running := true, stopped := false, worker := Getting))
            && Publish(c.value, id, passive).items[id].receipt == None
  {
    assert b.closing == NotAsked by {
      var place, head :| Inv(b, place, head);
    }
    var x := b.(running := false);
    var y := b.(running := false, stopped := true, worker := Absent);
    var z := b.(running := true, stopped := false, worker := Getting);
    hide Sound, Inv;
    MovesOn(b, DoStop, x);
    MovesOn(x, GetTimesOut, y);
    MovesOn(y, DoStart, z);
    hide Moves;
    AfterThree(b, DoStop, x, GetTimesOut, y, DoStart, z);
    AfterOne(b, DoStop, x, [GetTimesOut]);
    AfterOne(x, GetTimesOut, y, []);
    assert [DoStop, GetTimesOut] == [DoStop] + [GetTimesOut] && [GetTimesOut] == [GetTimesOut] + [];
  }

  predicate Closed(b: Bus) {
    b.closing in {Finished, Aborted}
  }

  /** The next step of a close whose cancellation the provider lets through, whose lane adds
      up, and whose inbound drain does not fail. */
  function CloseAct(b: Bus): Action
    requires b.closing != NotAsked && !Closed(b)
  {
    match b.closing
    case Stopping => LookAtWorker
    case InboundDrain => InboundDrained(true)
    case OutboundDrain => DoDrain
    case _ => if b.worker.Calling? then DoCancel else DoLeave(true)
  }

  /** How far a close is from its end, apart from the queue. */
  function CloseRank(b: Bus): nat {
    match b.closing
    case Stopping => 6
    case InboundDrain => 2
    case OutboundDrain => 1
    case Waiting => if b.worker.Leaving? then 3 else 4
    case _ => 0
  }

  lemma CloseActEnabled(b: Bus)
    requires Phased(b) && b.closing != NotAsked && !Closed(b)
    ensures Enabled(b, CloseAct(b))
  {
  }

  predicate FailsToClose(b: Bus) {
    b.closing == Aborted || (b.closing == Waiting && b.worker.Leaving? && b.worker.outcome == Raises)
  }

  /** `c` is closer to the end than `b`, with nothing new to answer. */
  predicate Advances(b: Bus, c: Bus) {
    && c.closing != NotAsked && c.closed
    && c.items.Keys == b.items.Keys && c.marking == b.marking
    && (FailsToClose(c) <==> FailsToClose(b))
    && (CloseRank(c) < CloseRank(b) || (CloseRank(c) == CloseRank(b) && |c.queue| < |b.queue|))
  }

  /** Each such step comes closer to the end and adds nothing to what is to be answered. */
  lemma CloseStepAdvances(b: Bus)
    requires Known(b) && Phased(b) && b.closing != NotAsked && !Closed(b) && Enabled(b, CloseAct(b))
    ensures Advances(b, Step(b, CloseAct(b)))
  {
    if b.closing == Waiting {
      hide Step, Phased;
      WaitingAdvances(b);
    } else {
      assert b.closed && !b.running;
      hide Known, Phased;
      EndAdvances(b);
    }
  }

  lemma EndAdvances(b: Bus)
    requires b.closing in {Stopping, InboundDrain, OutboundDrain} && b.closed
    requires b.closing in {InboundDrain, OutboundDrain} ==> b.worker == Absent
    requires b.queue != [] ==> b.queue[0] in b.items
    requires b.worker.Leaving? ==> b.worker.id in b.items
    ensures Advances(b, if b.closing == OutboundDrain then DrainOne(b)
                        else if b.closing == InboundDrain then b.(closing := OutboundDrain)
                        else StopWorker(b))
  {
  }

  /** The worker comes to its end. */
  lemma WaitingAdvances(b: Bus)
    requires Known(b) && Phased(b) && b.closing == Waiting && Enabled(b, CloseAct(b))
    ensures Advances(b, Step(b, CloseAct(b)))
  {
    assert b.closed && !b.running && (b.worker.Calling? || b.worker.Leaving?);
    hide Phased;
  }

  lemma SoundIsPhased(b: Bus)
    requires Sound(b)
    ensures Known(b) && Phased(b)
  {
  }

  /** Up to `n` such steps. */
  ghost function CloseSteps(b: Bus, n: nat): (c: Bus)
    requires Sound(b) && b.closing != NotAsked
    ensures Sound(c)
    decreases n
  {
    if n == 0 || Closed(b) then b
    else
      SoundIsPhased(b);
      CloseActEnabled(b);
      CloseStepAdvances(b);
      SoundStep(b, CloseAct(b));
      CloseSteps(Step(b, CloseAct(b)), n - 1)
  }

  /** Main result: a close that was asked for comes to its end after finitely many steps of
      its own.  It ends with the queue empty and every registered item answered, unless it
      was abandoned already or the worker it cancelled has answered that with an error. */
  lemma {:induction false} CloseEnds(b: Bus) returns (n: nat)
    requires Sound(b) && b.closing != NotAsked
    ensures var c := CloseSteps(b, n);
            && c.items.Keys == b.items.Keys && c.marking == b.marking
            && c.closing == (if FailsToClose(b) then Aborted else Finished)
            && (c.closing == Finished ==>
                  c.queue == [] && forall id :: id in c.items && id !in c.marking ==> c.items[id].receipt != None)
    decreases CloseRank(b), |b.queue|
  {
    hide Sound, Known, Phased, CloseRank;
    SoundIsPhased(b);
    if Closed(b) {
      n := 0;
      if b.closing == Finished {
        ClosedIsAnswered(b);
      }
    } else {
      CloseActEnabled(b);
      CloseStepAdvances(b);
      SoundStep(b, CloseAct(b));
      var next := Step(b, CloseAct(b));
      hide Step, Enabled, CloseAct, FailsToClose;
      var m := CloseEnds(next);
      n := m + 1;
    }
  }

  lemma ClosedIsAnswered(b: Bus)
    requires Sound(b) && b.closing == Finished
    ensures b.queue == [] && forall id :: id in b.items && id !in b.marking ==> b.items[id].receipt != None
  {
    var place, head :| Inv(b, place, head);
    forall id | id in b.items && id !in b.marking
      ensures b.items[id].receipt != None
    {
      assert ItemFits(b.items[id], place[id], b.worker);
    }
  }
}
