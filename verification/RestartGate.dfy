/** The restart gate: counted permits for external work, and the race for a commit.

    A commit waits until the last permit is released.  Its task runs again only later, and
    it does not look at the gate a second time. */
module RestartGate {
  import opened Text
  import opened Wrappers

  datatype Permit = Permit(request: string, released: bool)

  /** A commit in progress; `epoch` tells which preparation it belongs to. */
  datatype Phase = Waiting | Woken | Sent | Failed

  datatype Commit = Commit(request: string, epoch: nat, phase: Phase)

  datatype Gate = Gate(
    request: Option<string>,
    count: nat,
    accepting: bool,
    drained: bool,
    committed: bool,
    epoch: nat,
    permits: map<nat, Permit>,
    commits: map<nat, Commit>)

  const OPEN := Gate(None, 0, true, true, false, 0, map[], map[])

  // ---------------------------------------------------------------------------
  // Sections
  // ---------------------------------------------------------------------------

  datatype Answer = Accepted | Refused | Broken

  function Current(g: Gate): string {
    if g.request == None then "" else g.request.value
  }

  function Prepare(g: Gate, id: string, supervised: bool): (Gate, Answer) {
    if !supervised || id == "" || Strip(id) != id then (g, Refused)
    else if g.request != None then (g, if g.request == Some(id) then Accepted else Refused)
    else (g.(request := Some(id), accepting := false, epoch := g.epoch + 1), Accepted)
  }

  function Take(g: Gate, p: nat, request: string): Gate {
    g.(count := g.count + 1, drained := false, permits := g.permits[p := Permit(request, false)])
  }

  function Acquire(g: Gate, p: nat): (Gate, Answer) {
    if !g.accepting then (g, Refused) else (Take(g, p, Current(g)), Accepted)
  }

  function Child(g: Gate, p: nat, parent: nat): (Gate, Answer)
    requires parent in g.permits
  {
    var q := g.permits[parent];
    if q.released then (g, Refused)
    else if q.request != "" && q.request != Current(g) then (g, Refused)
    else (Take(g, p, q.request), Accepted)
  }

  /** Setting the event wakes every task that waits for it. */
  function WakeAll(commits: map<nat, Commit>): map<nat, Commit> {
    map c | c in commits :: if commits[c].phase == Waiting then commits[c].(phase := Woken) else commits[c]
  }

  function Release(g: Gate, p: nat): (Gate, Answer)
    requires p in g.permits
  {
    var q := g.permits[p];
    if q.released then (g, Accepted)
    else
      var marked := g.(permits := g.permits[p := q.(released := true)]);
      if g.count == 0 || (q.request != "" && q.request != Current(g)) then (marked, Broken)
      else if g.count == 1 then (marked.(count := 0, drained := true, commits := WakeAll(g.commits)), Accepted)
      else (marked.(count := g.count - 1), Accepted)
  }

  function Abort(g: Gate, id: string): Gate {
    if g.request != Some(id) then g
    else g.(request := None, accepting := true, committed := false, epoch := g.epoch + 1)
  }

  /** A commit that can go through at once does so; otherwise it waits. */
  function Begin(g: Gate, c: nat, id: string, works: bool): (Gate, Answer) {
    if g.request != Some(id) then (g, Refused)
    else if g.committed then (g, Accepted)
    else
      var started := g.(commits := g.commits[c := Commit(id, g.epoch, Waiting)]);
      if !g.drained then (started, Accepted) else (Resume(started, c, works), Accepted)
  }

  function SetPhase(g: Gate, c: nat, phase: Phase): Gate
    requires c in g.commits
  {
    g.(commits := g.commits[c := g.commits[c].(phase := phase)])
  }

  function Resume(g: Gate, c: nat, works: bool): Gate
    requires c in g.commits
  {
    if works then SetPhase(g, c, Sent).(committed := true) else SetPhase(Abort(g, g.commits[c].request), c, Failed)
  }

  function GiveUp(g: Gate, c: nat): Gate
    requires c in g.commits
  {
    SetPhase(Abort(g, g.commits[c].request), c, Failed)
  }

  // ---------------------------------------------------------------------------
  // The gate object
  // ---------------------------------------------------------------------------

  class CoreGate {
    var request: Option<string>
    var count: nat
    var accepting: bool
    var drained: bool
    var committed: bool
    ghost var epoch: nat
    var permits: map<nat, Permit>
    var commits: map<nat, Commit>

    ghost function View(): Gate
      reads this
    {
      Gate(request, count, accepting, drained, committed, epoch, permits, commits)
    }

    constructor ()
      ensures View() == OPEN
    {
      request, count, accepting, drained, committed := None, 0, true, true, false;
      epoch, permits, commits := 0, map[], map[];
    }

    method PrepareRestart(id: string, supervised: bool) returns (answer: Answer)
      modifies this
      ensures (View(), answer) == Prepare(old(View()), id, supervised)
    {
      if !supervised || id == "" || Strip(id) != id {
        return Refused;
      }
      if request != None {
        return if request == Some(id) then Accepted else Refused;
      }
      request, accepting, epoch := Some(id), false, epoch + 1;
      answer := Accepted;
    }

    method AcquirePermit(p: nat) returns (answer: Answer)
      modifies this
      ensures (View(), answer) == Acquire(old(View()), p)
    {
      if !accepting {
        return Refused;
      }
      count, drained := count + 1, false;
      permits := permits[p := Permit(if request == None then "" else request.value, false)];
      answer := Accepted;
    }

    method AcquireChild(p: nat, parent: nat) returns (answer: Answer)
      requires parent in permits
      modifies this
      ensures (View(), answer) == Child(old(View()), p, parent)
    {
      var q := permits[parent];
      if q.released || (q.request != "" && q.request != (if request == None then "" else request.value)) {
        return Refused;
      }
      count, drained := count + 1, false;
      permits := permits[p := Permit(q.request, false)];
      answer := Accepted;
    }

    method ReleasePermit(p: nat) returns (answer: Answer)
      requires p in permits
      modifies this
      ensures (View(), answer) == Release(old(View()), p)
    {
      var q := permits[p];
      if q.released {
        return Accepted;
      }
      permits := permits[p := q.(released := true)];
      if count == 0 || (q.request != "" && q.request != (if request == None then "" else request.value)) {
        return Broken;
      }
      count := count - 1;
      if count == 0 {
        drained := true;
        commits := WakeAll(commits);
      }
      answer := Accepted;
    }

    method AbortRestart(id: string)
      modifies this
      ensures View() == Abort(old(View()), id)
    {
      if request != Some(id) {
        return;
      }
      request, accepting, committed, epoch := None, true, false, epoch + 1;
    }
  }

  // ---------------------------------------------------------------------------
  // Steps
  // ---------------------------------------------------------------------------

  datatype Action =
    | DoPrepare(id: string, supervised: bool)
    | DoAcquire(p: nat)
    | DoChild(p: nat, parent: nat)
    | DoRelease(p: nat)
    | DoAbort(id: string)
    | DoCommit(c: nat, id: string, works: bool)
    | DoResume(c: nat, works: bool)
    | DoGiveUp(c: nat)

  predicate Enabled(g: Gate, a: Action) {
    match a
    case DoAcquire(p) => p !in g.permits
    case DoChild(p, parent) => p !in g.permits && parent in g.permits
    case DoRelease(p) => p in g.permits
    case DoCommit(c, _, _) => c !in g.commits
    case DoResume(c, _) => c in g.commits && g.commits[c].phase == Woken
    case DoGiveUp(c) => c in g.commits && g.commits[c].phase in {Waiting, Woken}
    case _ => true
  }

  function Step(g: Gate, a: Action): Gate
    requires Enabled(g, a)
  {
    match a
    case DoPrepare(id, supervised) => Prepare(g, id, supervised).0
    case DoAcquire(p) => Acquire(g, p).0
    case DoChild(p, parent) => Child(g, p, parent).0
    case DoRelease(p) => Release(g, p).0
    case DoAbort(id) => Abort(g, id)
    case DoCommit(c, id, works) => Begin(g, c, id, works).0
    case DoResume(c, works) => Resume(g, c, works)
    case DoGiveUp(c) => GiveUp(g, c)
  }

  ghost predicate Moves(g: Gate, a: Action, h: Gate) {
    Enabled(g, a) && h == Step(g, a)
  }

  ghost predicate IsRun(states: seq<Gate>, acts: seq<Action>) {
    |states| == |acts| + 1 && states[0] == OPEN && forall i :: 0 <= i < |acts| ==> Moves(states[i], acts[i], states[i + 1])
  }

  // ---------------------------------------------------------------------------
  // The invariant
  // ---------------------------------------------------------------------------

  function Held(permits: map<nat, Permit>): set<nat> {
    set p | p in permits && !permits[p].released
  }

  /** A commit whose preparation still stands is the current one, and once woken nothing
      can be in the way any more. */
  predicate CommitFits(c: Commit, g: Gate) {
    (c.phase == Waiting || c.phase == Woken) && c.epoch == g.epoch ==>
      g.request == Some(c.request) && (c.phase == Woken ==> g.count == 0)
  }

  ghost predicate Inv(g: Gate) {
    && (g.accepting <==> g.request == None)
    && g.count == |Held(g.permits)|
    && (g.drained <==> g.count == 0)
    && (forall p :: p in g.permits ==> g.permits[p].request == "")
    && (forall c :: c in g.commits ==> g.commits[c].epoch <= g.epoch && CommitFits(g.commits[c], g))
  }

  lemma TakeHolds(permits: map<nat, Permit>, p: nat)
    requires p !in permits
    ensures Held(permits[p := Permit("", false)]) == Held(permits) + {p} && p !in Held(permits)
  {
  }

  lemma ReleaseHolds(permits: map<nat, Permit>, p: nat)
    requires p in permits && !permits[p].released
    ensures Held(permits[p := permits[p].(released := true)]) == Held(permits) - {p} && p in Held(permits)
  {
  }

  lemma HeldIsCounted(g: Gate, p: nat)
    requires Inv(g) && p in g.permits && !g.permits[p].released
    ensures g.count > 0
  {
    assert p in Held(g.permits);
  }

  /** A permit is only taken while the gate is open or another permit is out. */
  lemma TakeKeepsInv(g: Gate, p: nat)
    requires Inv(g) && p !in g.permits && (g.accepting || g.count > 0)
    ensures Inv(Take(g, p, ""))
  {
    hide Held;
    TakeHolds(g.permits, p);
    var h := Take(g, p, "");
    forall c | c in h.commits
      ensures CommitFits(h.commits[c], h)
    {
      assert CommitFits(g.commits[c], g);
    }
  }

  lemma ReleaseKeepsInv(g: Gate, p: nat)
    requires Inv(g) && p in g.permits
    ensures Inv(Release(g, p).0)
  {
    hide Held;
    if !g.permits[p].released {
      ReleaseHolds(g.permits, p);
      HeldIsCounted(g, p);
      var h := Release(g, p).0;
      forall c | c in h.commits
        ensures CommitFits(h.commits[c], h)
      {
        assert CommitFits(g.commits[c], g);
      }
    }
  }

  lemma PermitStep(g: Gate, a: Action)
    requires Inv(g) && Enabled(g, a) && (a.DoAcquire? || a.DoChild? || a.DoRelease?)
    ensures Inv(Step(g, a))
  {
    if a.DoAcquire? {
      if g.accepting {
        assert Current(g) == "";
        hide Inv, Take;
        TakeKeepsInv(g, a.p);
      }
    } else if a.DoChild? {
      if !g.permits[a.parent].released {
        assert g.permits[a.parent].request == "";
        HeldIsCounted(g, a.parent);
        hide Inv, Take;
        TakeKeepsInv(g, a.p);
      }
    } else {
      hide Inv, Release;
      ReleaseKeepsInv(g, a.p);
    }
  }

  lemma AbortKeepsInv(g: Gate, id: string)
    requires Inv(g)
    ensures Inv(Abort(g, id))
  {
    hide Held;
  }

  lemma PrepareKeepsInv(g: Gate, id: string, supervised: bool)
    requires Inv(g)
    ensures Inv(Prepare(g, id, supervised).0)
  {
    hide Held;
  }

  /** A commit starts as the current one, or ends. */
  lemma PhaseKeepsInv(g: Gate, c: nat, n: Commit, committed: bool)
    requires Inv(g) && n.epoch <= g.epoch && CommitFits(n, g)
    ensures Inv(g.(commits := g.commits[c := n], committed := committed))
  {
    hide Held;
  }

  lemma ResumeKeepsInv(g: Gate, c: nat, works: bool)
    requires Inv(g) && c in g.commits
    ensures Inv(Resume(g, c, works)) && Inv(GiveUp(g, c))
  {
    var h := Abort(g, g.commits[c].request);
    AbortKeepsInv(g, g.commits[c].request);
    assert g.commits[c].epoch <= g.epoch && h.commits == g.commits && g.epoch <= h.epoch;
    hide Inv, Abort;
    PhaseKeepsInv(g, c, g.commits[c].(phase := Sent), true);
    PhaseKeepsInv(h, c, g.commits[c].(phase := Failed), h.committed);
  }

  lemma CommitStep(g: Gate, a: Action)
    requires Inv(g) && Enabled(g, a) && !(a.DoAcquire? || a.DoChild? || a.DoRelease?)
    ensures Inv(Step(g, a))
  {
    hide Inv, Prepare, Abort, Resume, GiveUp;
    match a
    case DoPrepare(id, supervised) => PrepareKeepsInv(g, id, supervised);
    case DoAbort(id) => AbortKeepsInv(g, id);
    case DoCommit(c, id, works) =>
      if g.request == Some(id) && !g.committed {
        var n := Commit(id, g.epoch, Waiting);
        PhaseKeepsInv(g, c, n, false);
        ResumeKeepsInv(g.(commits := g.commits[c := n]), c, works);
      }
    case DoResume(c, works) => ResumeKeepsInv(g, c, works);
    case DoGiveUp(c) => ResumeKeepsInv(g, c, true);
  }

  lemma {:induction false} RunsKeepInv(states: seq<Gate>, acts: seq<Action>, i: nat)
    requires IsRun(states, acts) && i < |states|
    ensures Inv(states[i])
  {
    if i == 0 {
      assert Held(map[]) == {};
    } else {
      RunsKeepInv(states, acts, i - 1);
      var a := acts[i - 1];
      assert Moves(states[i - 1], a, states[i - 1 + 1]);
      hide Step, Inv, Enabled;
      if a.DoAcquire? || a.DoChild? || a.DoRelease? {
        PermitStep(states[i - 1], a);
      } else {
        CommitStep(states[i - 1], a);
      }
    }
  }

  /** Main result: the counter always is the number of permits not yet released, the
      drained event is set exactly when there is none, and releasing a permit for the
      first time never fails. */
  lemma PermitsAreCounted(states: seq<Gate>, acts: seq<Action>, i: nat)
    requires IsRun(states, acts) && i < |states|
    ensures var g := states[i];
            && g.count == |Held(g.permits)|
            && (g.drained <==> Held(g.permits) == {})
            && (forall p :: p in g.permits && !g.permits[p].released ==>
                  Release(g, p).1 == Accepted && Release(g, p).0.count == g.count - 1)
  {
    hide IsRun;
    RunsKeepInv(states, acts, i);
    forall p | p in states[i].permits && !states[i].permits[p].released
      ensures states[i].count > 0
    {
      HeldIsCounted(states[i], p);
    }
    assert states[i].count == 0 ==> Held(states[i].permits) == {};
  }

  /** Main result: a commit that resumes sends a request that is still prepared, with no
      permit out and none to be had, unless the preparation it started from was aborted
      meanwhile. */
  lemma ResumedCommitIsCurrent(states: seq<Gate>, acts: seq<Action>, i: nat, c: nat)
    requires IsRun(states, acts) && i < |states| && c in states[i].commits && states[i].commits[c].phase == Woken
    requires states[i].commits[c].epoch == states[i].epoch
    ensures var g := states[i];
            g.request == Some(g.commits[c].request) && !g.accepting && Held(g.permits) == {}
  {
    RunsKeepInv(states, acts, i);
    assert CommitFits(states[i].commits[c], states[i]);
  }

  /** The epoch moves exactly when a preparation is made or aborted. */
  lemma EpochTellsAborts(g: Gate, a: Action)
    requires Inv(g) && Enabled(g, a)
    ensures g.epoch <= Step(g, a).epoch
    ensures g.request != None ==> (Step(g, a).epoch != g.epoch <==> Step(g, a).request != g.request)
  {
    hide Held;
  }

  /** A preparation still stands at `j` exactly when its request was the current one at
      every moment since `i`, that is, when it was never aborted. */
  lemma {:induction false} StandsIffNeverAborted(states: seq<Gate>, acts: seq<Action>, i: nat, j: nat)
    requires IsRun(states, acts) && i <= j < |states| && states[i].request != None
    ensures states[i].epoch <= states[j].epoch
    ensures states[j].epoch == states[i].epoch <==> forall k :: i <= k <= j ==> states[k].request == states[i].request
    decreases j - i
  {
    if i < j {
      StandsIffNeverAborted(states, acts, i, j - 1);
      RunsKeepInv(states, acts, j - 1);
      assert Moves(states[j - 1], acts[j - 1], states[j - 1 + 1]);
      hide Step, Inv, Enabled;
      EpochTellsAborts(states[j - 1], acts[j - 1]);
    }
  }

  /** The gate after a commit went out for an aborted request. */
  const STALE := Gate(None, 1, true, false, true, 2, map[0 := Permit("", true), 1 := Permit("", false)],
                      map[0 := Commit("r", 1, Sent)])

  /** Otherwise the commit can be stale: the request is aborted while the commit waits, the
      gate opens, new work is admitted, and the commit still goes out. */
  lemma AbortedRequestIsCommitted() returns (states: seq<Gate>, acts: seq<Action>)
    ensures IsRun(states, acts) && |acts| > 0
    ensures acts[|acts| - 1].DoResume? && states[|acts|].commits[acts[|acts| - 1].c] == Commit("r", 1, Sent)
    ensures var g := states[|acts| - 1]; g.request == None && g.accepting && g.count == 1
    ensures states[|acts|] == STALE && !FlagFits(STALE)
  {
    acts := [DoAcquire(0), DoPrepare("r", true), DoCommit(0, "r", true), DoAbort("r"), DoRelease(0), DoAcquire(1),
             DoResume(0, true)];
    var p0, done := Permit("", false), Permit("", true);
    var s1 := OPEN.(count := 1, drained := false, permits := map[0 := p0]);
    var s2 := s1.(request := Some("r"), accepting := false, epoch := 1);
    var s3 := s2.(commits := map[0 := Commit("r", 1, Waiting)]);
    var s4 := s3.(request := None, accepting := true, epoch := 2);
    var s5 := s4.(count := 0, drained := true, permits := map[0 := done], commits := map[0 := Commit("r", 1, Woken)]);
    var s6 := s5.(count := 1, drained := false, permits := map[0 := done, 1 := p0]);
    var s7 := STALE;
    assert Moves(OPEN, acts[0], s1);
    assert Moves(s1, acts[1], s2) by {
      assert Strip("r") == "r";
    }
    assert Moves(s2, acts[2], s3);
    assert Moves(s3, acts[3], s4);
    assert Moves(s4, acts[4], s5) by {
      assert WakeAll(s4.commits) == s5.commits;
    }
    assert Moves(s5, acts[5], s6);
    assert Moves(s6, acts[6], s7);
    hide Moves;
    states := [OPEN, s1, s2, s3, s4, s5, s6, s7];
  }

  /** One preparation at a time: asking again for the same request changes nothing, another
      request and new permits are refused until it is aborted. */
  lemma OneRequestAtATime(g: Gate, id: string, other: string, p: nat)
    requires Inv(g) && Prepare(g, id, true).1 == Accepted && other != id
    ensures var h := Prepare(g, id, true).0;
            && h.request == Some(id) && h.count == g.count
            && Prepare(h, id, true) == (h, Accepted)
            && Prepare(h, other, true) == (h, Refused)
            && Acquire(h, p) == (h, Refused)
            && Acquire(Abort(h, other), p).1 == Refused && Acquire(Abort(h, id), p).1 == Accepted
  {
    hide Held, Take;
    PrepareKeepsInv(g, id, true);
  }

  /** A preparation is accepted exactly for a proper id in a supervised process while no
      other request stands.  A refused one, and one that stands already, change nothing. */
  lemma PreparedIff(g: Gate, id: string, supervised: bool)
    ensures var (h, answer) := Prepare(g, id, supervised);
            && answer != Broken
            && (answer == Accepted <==>
                  supervised && id != "" && !IsSpace(id[0]) && !IsSpace(id[|id| - 1]) && (g.request == None || g.request == Some(id)))
            && (answer == Refused || g.request != None ==> h == g)
            && (answer == Accepted ==>
                  h == g.(request := Some(id), accepting := h.accepting, epoch := h.epoch) &&
                  (g.request == None ==> !h.accepting && h.epoch > g.epoch))
    ensures Prepare(g, id, false) == (g, Refused)
  {
    StrippedIff(id);
    hide Strip;
  }

  /** Main result: a permit for new work carries the request that stands, and a child the
      one of its parent.  A permit of another request is good for neither a child nor a
      release: the child is refused, and the release fails without giving anything back. */
  lemma ForeignPermitIsRefused(g: Gate, p: nat, parent: nat)
    requires parent in g.permits && p !in g.permits
    ensures var (h, answer) := Acquire(g, p);
            if g.accepting
            then answer == Accepted && h.permits == g.permits[p := Permit(if g.request == None then "" else g.request.value, false)]
            else (h, answer) == (g, Refused)
    ensures var q := g.permits[parent];
            var known := q.request == "" || Some(q.request) == g.request;
            var (h, answer) := Child(g, p, parent);
            var (k, outcome) := Release(g, parent);
            && (answer == Accepted <==> !q.released && known) && (answer != Accepted ==> (h, answer) == (g, Refused))
            && (answer == Accepted ==> h.permits == g.permits[p := q] && h.count == g.count + 1 && !h.drained)
            && (outcome == Broken <==> !q.released && (g.count == 0 || !known))
            && k.permits == g.permits[parent := q.(released := true)]
            && k.count == (if q.released || outcome == Broken then g.count else g.count - 1)
            && k.drained == (g.drained || (k.count == 0 && g.count == 1))
  {
  }

  /** When the last permit comes back, every waiting commit is woken, and at no other
      release. */
  lemma LastReleaseWakes(g: Gate, p: nat)
    requires Inv(g) && p in g.permits
    ensures var h := Release(g, p).0;
            && h.commits.Keys == g.commits.Keys
            && (forall c :: c in g.commits ==>
                  h.commits[c] == if Held(g.permits) == {p} && g.commits[c].phase == Waiting then g.commits[c].(phase := Woken)
                                  else g.commits[c])
            && (h.drained <==> Held(g.permits) <= {p})
            && h.request == g.request && h.accepting == g.accepting && h.committed == g.committed
  {
    if p in Held(g.permits) {
      assert Held(g.permits) == (Held(g.permits) - {p}) + {p};
      assert |Held(g.permits)| == |Held(g.permits) - {p}| + 1;
      assert |Held(g.permits)| == 1 <==> Held(g.permits) - {p} == {};
    }
  }

  /** A commit of the standing request goes out at once exactly when no permit is out and
      nothing went out before; it waits exactly when one is out.  A foreign request is
      refused. */
  lemma CommitStarts(g: Gate, c: nat, id: string, works: bool)
    requires Inv(g) && c !in g.commits
    ensures var (h, answer) := Begin(g, c, id, works);
            && (answer == Refused <==> g.request != Some(id))
            && (g.request != Some(id) || g.committed ==> h == g)
            && (c in h.commits <==> g.request == Some(id) && !g.committed)
            && (c in h.commits ==>
                  && h.commits == g.commits[c := h.commits[c]] && h.commits[c].request == id && h.commits[c].epoch == g.epoch
                  && h.commits[c].phase == (if Held(g.permits) != {} then Waiting else if works then Sent else Failed)
                  && h.committed == (Held(g.permits) == {} && works)
                  && h.request == (if Held(g.permits) == {} && !works then None else Some(id))
                  && h.permits == g.permits)
  {
    assert |Held(g.permits)| == 0 <==> Held(g.permits) == {};
    hide Held;
  }

  /** A commit that fails, or is given up, opens the gate again exactly if its request is
      the one that stands. */
  lemma FailedCommitReopens(g: Gate, c: nat)
    requires Inv(g) && c in g.commits
    ensures Resume(g, c, false) == GiveUp(g, c)
    ensures var h := GiveUp(g, c);
            && h.commits == g.commits[c := g.commits[c].(phase := Failed)] && h.permits == g.permits && h.count == g.count
            && (if g.request == Some(g.commits[c].request) then h.request == None && h.accepting && !h.committed && h.epoch > g.epoch
                else h == g.(commits := h.commits))
  {
    hide Held;
  }

  /** Nobody waits for a permit unless one is out. */
  ghost predicate HeldUp(g: Gate) {
    forall c :: c in g.commits && g.commits[c].phase == Waiting ==> g.count > 0
  }

  lemma StepHeldUp(g: Gate, a: Action)
    requires Inv(g) && HeldUp(g) && Enabled(g, a)
    ensures HeldUp(Step(g, a))
  {
    hide Held;
  }

  lemma {:induction false} WaitersAreHeldUp(states: seq<Gate>, acts: seq<Action>, i: nat)
    requires IsRun(states, acts) && i < |states|
    ensures HeldUp(states[i])
  {
    if i > 0 {
      WaitersAreHeldUp(states, acts, i - 1);
      RunsKeepInv(states, acts, i - 1);
      assert Moves(states[i - 1], acts[i - 1], states[i - 1 + 1]);
      hide Step, Inv, Enabled, HeldUp;
      StepHeldUp(states[i - 1], acts[i - 1]);
    }
  }

  /** Releases of all permits in some order, and then the waiting commit. */
  lemma {:induction false} ReleasesThenSend(g: Gate, c: nat) returns (acts: seq<Action>, states: seq<Gate>)
    requires Inv(g) && c in g.commits && g.commits[c].phase in {Waiting, Woken} && g.commits[c].epoch == g.epoch
    requires g.commits[c].phase == Waiting ==> Held(g.permits) != {}
    ensures |states| == |acts| + 1 && states[0] == g && forall i :: 0 <= i < |acts| ==> Moves(states[i], acts[i], states[i + 1])
    ensures forall i :: 0 <= i < |acts| ==> acts[i].DoRelease? || acts[i] == DoResume(c, true)
    ensures var h := states[|acts|]; c in h.commits && SentFor(h.commits[c], h) && h.committed && h.request == g.request
    decreases |Held(g.permits)|
  {
    assert CommitFits(g.commits[c], g);
    if g.commits[c].phase == Woken {
      var h := Resume(g, c, true);
      acts, states := [DoResume(c, true)], [g, h];
      assert Moves(g, acts[0], h);
    } else {
      var p :| p in Held(g.permits);
      var h := Release(g, p).0;
      LastReleaseWakes(g, p);
      ReleaseKeepsInv(g, p);
      ReleaseHolds(g.permits, p);
      HeldIsCounted(g, p);
      assert g.permits[p].request == "";
      assert h.epoch == g.epoch && h.permits == g.permits[p := g.permits[p].(released := true)];
      assert Held(h.permits) == {} <==> Held(g.permits) == {p};
      assert Moves(g, DoRelease(p), h);
      hide Held, Inv, Release, Moves, Step;
      acts, states := ReleasesThenSend(h, c);
      acts, states := [DoRelease(p)] + acts, [g] + states;
    }
  }

  /** Main result: in every state of every run, once the permits that are out come back, a
      commit that waits for the standing preparation can resume, and is sent. */
  lemma WaitingCommitIsSent(states: seq<Gate>, acts: seq<Action>, i: nat, c: nat) returns (more: seq<Action>, then_: seq<Gate>)
    requires IsRun(states, acts) && i < |states| && c in states[i].commits && states[i].commits[c].phase == Waiting
    requires states[i].commits[c].epoch == states[i].epoch
    ensures |then_| == |more| + 1 && then_[0] == states[i] && forall j :: 0 <= j < |more| ==> Moves(then_[j], more[j], then_[j + 1])
    ensures forall j :: 0 <= j < |more| ==> more[j].DoRelease? || more[j] == DoResume(c, true)
    ensures var h := then_[|more|]; c in h.commits && SentFor(h.commits[c], h) && h.committed && h.request == states[i].request
  {
    WaitersAreHeldUp(states, acts, i);
    RunsKeepInv(states, acts, i);
    hide Inv, Held;
    more, then_ := ReleasesThenSend(states[i], c);
  }

  /** Whoever still holds a permit can always take a further one from it, also while a
      restart is prepared; a released permit gives none. */
  lemma ChildrenOfHeldPermits(states: seq<Gate>, acts: seq<Action>, i: nat, p: nat, parent: nat)
    requires IsRun(states, acts) && i < |states| && p !in states[i].permits && parent in states[i].permits
    ensures var g := states[i];
            var (h, answer) := Child(g, p, parent);
            if g.permits[parent].released then (h, answer) == (g, Refused)
            else answer == Accepted && Held(h.permits) == Held(g.permits) + {p} && h.count == g.count + 1
  {
    hide IsRun;
    RunsKeepInv(states, acts, i);
    var g := states[i];
    assert g.permits[parent].request == "";
    TakeHolds(g.permits, p);
  }

  // ---------------------------------------------------------------------------
  // What the committed flag means
  // ---------------------------------------------------------------------------

  /** The flag is set exactly if a commit was sent for the standing preparation. */
  ghost predicate FlagFits(g: Gate) {
    g.committed <==> exists c :: c in g.commits && SentFor(g.commits[c], g)
  }

  predicate SentFor(c: Commit, g: Gate) {
    c.phase == Sent && c.epoch == g.epoch && g.request == Some(c.request)
  }

  /** A commit only goes out while its preparation stands. */
  ghost predicate Fresh(g: Gate, a: Action) {
    a.DoResume? && a.works && a.c in g.commits ==> g.commits[a.c].epoch == g.epoch
  }

  /** Neither the preparation nor the sent commits change. */
  lemma FlagStays(g: Gate, h: Gate)
    requires FlagFits(g) && h.committed == g.committed && h.epoch == g.epoch && h.request == g.request
    requires forall c :: c in g.commits && g.commits[c].phase == Sent ==> c in h.commits && h.commits[c] == g.commits[c]
    requires forall c :: c in h.commits && h.commits[c].phase == Sent ==> c in g.commits && h.commits[c] == g.commits[c]
    ensures FlagFits(h)
  {
    if c :| c in g.commits && SentFor(g.commits[c], g) {
      assert SentFor(h.commits[c], h);
    }
    if c :| c in h.commits && SentFor(h.commits[c], h) {
      assert SentFor(g.commits[c], g);
    }
  }

  /** A new preparation, or none. */
  lemma FlagClears(g: Gate, h: Gate)
    requires Inv(g) && !h.committed && (h.epoch > g.epoch || h.request == None)
    requires forall c :: c in h.commits && h.commits[c].phase == Sent ==> c in g.commits && h.commits[c] == g.commits[c]
    ensures FlagFits(h)
  {
    hide Held;
  }

  lemma FlagStep(g: Gate, a: Action)
    requires Inv(g) && FlagFits(g) && Enabled(g, a) && Fresh(g, a)
    ensures FlagFits(Step(g, a))
  {
    var h := Step(g, a);
    if a.DoResume? && a.works {
      assert CommitFits(g.commits[a.c], g);
      assert SentFor(h.commits[a.c], h);
    } else if a.DoCommit? && !g.committed && h.committed {
      assert SentFor(h.commits[a.c], h);
    } else {
      hide Held, Inv, FlagFits;
      if h.epoch == g.epoch {
        FlagStays(g, h);
      } else {
        FlagClears(g, h);
      }
    }
  }

  /** Main result: a step takes the flag's meaning away exactly when a commit goes out for a
      preparation that no longer stands and the flag was not set before. */
  lemma FlagFitsIffFresh(g: Gate, a: Action)
    requires Inv(g) && FlagFits(g) && Enabled(g, a)
    ensures FlagFits(Step(g, a)) <==> Fresh(g, a) || g.committed
  {
    if Fresh(g, a) {
      FlagStep(g, a);
    } else {
      StaleStep(g, a.c);
    }
  }

  lemma StaleStep(g: Gate, c: nat)
    requires FlagFits(g) && c in g.commits && g.commits[c].phase == Woken && g.commits[c].epoch != g.epoch
    ensures FlagFits(Resume(g, c, true)) <==> g.committed
  {
    var h := Resume(g, c, true);
    assert forall d :: d in g.commits ==> (SentFor(h.commits[d], h) <==> SentFor(g.commits[d], g));
    if g.committed {
      var d :| d in g.commits && SentFor(g.commits[d], g);
      assert SentFor(h.commits[d], h);
    }
  }

  /** Main result: while commits only go out for preparations that stand, the flag is set
      exactly after the standing request was sent. */
  lemma {:induction false} CommittedMeansSent(states: seq<Gate>, acts: seq<Action>, i: nat)
    requires IsRun(states, acts) && i < |states|
    requires forall j :: 0 <= j < |acts| ==> Fresh(states[j], acts[j])
    ensures FlagFits(states[i])
  {
    if i > 0 {
      CommittedMeansSent(states, acts, i - 1);
      RunsKeepInv(states, acts, i - 1);
      assert Moves(states[i - 1], acts[i - 1], states[i - 1 + 1]);
      assert Fresh(states[i - 1], acts[i - 1]);
      hide Step, Inv, Enabled, FlagFits, Fresh;
      FlagStep(states[i - 1], acts[i - 1]);
    }
  }

  /** The preparation was made with the flag already set: no commit ever started for it. */
  ghost predicate Silent(g: Gate, id: string) {
    g.request == Some(id) && g.committed && forall c :: c in g.commits ==> g.commits[c].epoch != g.epoch
  }

  lemma SilentStart(g: Gate, id: string)
    requires Inv(g) && g.request == None && g.committed && id != "" && Strip(id) == id
    ensures Silent(Step(g, DoPrepare(id, true)), id)
  {
    hide Held;
  }

  lemma SilentStep(g: Gate, a: Action, id: string)
    requires Inv(g) && Silent(g, id) && Enabled(g, a)
    ensures Step(g, a).epoch == g.epoch ==> Silent(Step(g, a), id)
  {
    hide Held;
  }

  /** Silence since the preparation of epoch `e`, as long as that is the current one. */
  ghost predicate SilentSince(g: Gate, e: nat, id: string) {
    Inv(g) && g.epoch >= e && (g.epoch == e ==> Silent(g, id))
  }

  lemma SilentNext(g: Gate, a: Action, h: Gate, e: nat, id: string)
    requires SilentSince(g, e, id) && Moves(g, a, h)
    ensures SilentSince(h, e, id)
  {
    hide Inv, Step, Enabled, Silent;
    if a.DoAcquire? || a.DoChild? || a.DoRelease? {
      PermitStep(g, a);
    } else {
      CommitStep(g, a);
    }
    EpochTellsAborts(g, a);
    if g.epoch == e {
      SilentStep(g, a, id);
    }
  }

  lemma {:induction false} SilentUntil(states: seq<Gate>, acts: seq<Action>, i: nat, j: nat, id: string)
    requires IsRun(states, acts) && i < j < |states|
    requires acts[i] == DoPrepare(id, true) && states[i].request == None && id != "" && Strip(id) == id && states[i].committed
    ensures SilentSince(states[j], states[i + 1].epoch, id)
  {
    hide Inv, Step, Enabled, Silent;
    assert Moves(states[j - 1], acts[j - 1], states[j - 1 + 1]);
    if j > i + 1 {
      SilentUntil(states, acts, i, j - 1, id);
      SilentNext(states[j - 1], acts[j - 1], states[j], states[i + 1].epoch, id);
    } else {
      RunsKeepInv(states, acts, i);
      RunsKeepInv(states, acts, i + 1);
      SilentStart(states[i], id);
    }
  }

  /** Main result: a request prepared while the flag of an earlier one is still set is
      accepted, and as long as it stands each of its commits returns at once and nothing is
      ever sent for it. */
  lemma {:induction false} NextRequestIsNeverSent(states: seq<Gate>, acts: seq<Action>, i: nat, j: nat, id: string)
    requires IsRun(states, acts) && i < j < |states|
    requires acts[i] == DoPrepare(id, true) && states[i].request == None && id != "" && Strip(id) == id
    requires states[i].committed && states[j].epoch == states[i + 1].epoch
    ensures states[j].request == Some(id)
    ensures forall c: nat, works: bool :: Begin(states[j], c, id, works) == (states[j], Accepted)
    ensures forall c :: c in states[j].commits ==> !SentFor(states[j].commits[c], states[j])
  {
    SilentUntil(states, acts, i, j, id);
    hide Inv, IsRun;
  }

  // ---------------------------------------------------------------------------
  // How often a request is sent
  // ---------------------------------------------------------------------------

  /** What the step sends to the supervisor, if anything. */
  function Sends(g: Gate, a: Action): seq<string>
    requires Enabled(g, a)
  {
    match a
    case DoResume(c, works) => if works then [g.commits[c].request] else []
    case DoCommit(_, id, works) => if g.request == Some(id) && !g.committed && g.drained && works then [id] else []
    case _ => []
  }

  /** At most one commit was sent for the standing preparation. */
  ghost predicate SentOnce(g: Gate) {
    forall c, d :: c in g.commits && d in g.commits && SentFor(g.commits[c], g) && SentFor(g.commits[d], g) ==> c == d
  }

  /** No commit resumes for a request that was sent already. */
  predicate Unsent(g: Gate, a: Action) {
    a.DoResume? && a.works ==> !g.committed
  }

  /** Main result: a standing request is sent a second time exactly when a commit that was
      waiting resumes although the request was sent meanwhile; nothing looks at the flag
      after the wait. */
  lemma SentOnceIffUnsent(g: Gate, a: Action)
    requires Inv(g) && FlagFits(g) && SentOnce(g) && Enabled(g, a) && Fresh(g, a)
    ensures SentOnce(Step(g, a)) <==> Unsent(g, a)
  {
    var h := Step(g, a);
    if a.DoResume? && a.works {
      assert CommitFits(g.commits[a.c], g);
      assert SentFor(h.commits[a.c], h);
      assert forall d :: d in g.commits && d != a.c ==> (SentFor(h.commits[d], h) <==> SentFor(g.commits[d], g));
      if g.committed {
        var d :| d in g.commits && SentFor(g.commits[d], g);
        assert d != a.c && SentFor(h.commits[d], h);
      }
    } else if a.DoCommit? && !g.committed && h.committed {
      assert forall d :: d in g.commits ==> (SentFor(h.commits[d], h) <==> SentFor(g.commits[d], g));
    } else {
      hide Held, Inv, FlagFits;
      OldCommitsOnly(g, a);
    }
  }

  /** Other steps send nothing. */
  lemma OldCommitsOnly(g: Gate, a: Action)
    requires SentOnce(g) && Enabled(g, a) && !(a.DoResume? && a.works) && (a.DoCommit? && Step(g, a).committed ==> g.committed)
    requires forall c :: c in g.commits ==> g.commits[c].epoch <= g.epoch
    ensures SentOnce(Step(g, a))
  {
  }
}
