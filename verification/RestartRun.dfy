/** A restart from the gate to the supervisor: what the gate sends is what the supervisor
    reads after the child is gone. */
module RestartRun {
  import G = RestartGate
  import L = Lifecycle
  import opened Text
  import opened Wrappers

  /** Everything the gate sends in the first `i` steps of a run, in order. */
  ghost function AllSends(states: seq<G.Gate>, acts: seq<G.Action>, i: nat): seq<string>
    requires G.IsRun(states, acts) && i < |states|
  {
    if i == 0 then []
    else
      assert G.Moves(states[i - 1], acts[i - 1], states[i - 1 + 1]);
      AllSends(states, acts, i - 1) + G.Sends(states[i - 1], acts[i - 1])
  }

  /** The prepared request and the requests of all commits are proper ones. */
  predicate ProperGate(g: G.Gate) {
    && (g.request != None ==> L.ProperRequest(g.request.value))
    && (forall c :: c in g.commits ==> L.ProperRequest(g.commits[c].request))
  }

  lemma ProperStep(g: G.Gate, a: G.Action)
    requires ProperGate(g) && G.Enabled(g, a)
    ensures ProperGate(G.Step(g, a)) && forall s :: s in G.Sends(g, a) ==> L.ProperRequest(s)
  {
    hide Strip;
  }

  lemma {:induction false} SendsAreProper(states: seq<G.Gate>, acts: seq<G.Action>, i: nat)
    requires G.IsRun(states, acts) && i < |states|
    ensures ProperGate(states[i]) && forall s :: s in AllSends(states, acts, i) ==> L.ProperRequest(s)
  {
    if i > 0 {
      SendsAreProper(states, acts, i - 1);
      assert G.Moves(states[i - 1], acts[i - 1], states[i - 1 + 1]);
      hide G.Step, G.Enabled, G.Sends, ProperGate, L.ProperRequest;
      ProperStep(states[i - 1], acts[i - 1]);
    }
  }

  /** Main result: when a process has reported its start and then writes what its gate sends,
      the supervisor finds the restart authorised if and only if the gate sent exactly one
      commit, however the pipe cut the bytes. */
  lemma RestartsIffSentOnce(states: seq<G.Gate>, acts: seq<G.Action>, b: L.Boot, encode: L.Frame -> seq<L.byte>,
                            start: seq<L.Frame>, chunks: seq<seq<L.byte>>)
    requires G.IsRun(states, acts) && L.StartFrames(b, start)
    requires var frames := start + L.CommitFrames(b, AllSends(states, acts, |acts|));
             L.Encodes(b, encode, frames) && L.Concat(chunks) == L.Wire(encode, frames) &&
             forall f :: f in frames ==> |encode(f)| < L.MAX_FRAME
    ensures L.Feed(b, L.FeedAll(b, L.START, chunks), [], true).commitValid <==> |AllSends(states, acts, |acts|)| == 1
  {
    SendsAreProper(states, acts, |acts|);
    L.AuthorisedIffOneCommit(b, encode, start, AllSends(states, acts, |acts|), chunks);
  }

  /** While no commit resumes for a request that was sent already, and no sent request is
      aborted, the flag counts what was sent. */
  lemma {:induction false} FlagCountsSends(states: seq<G.Gate>, acts: seq<G.Action>, i: nat)
    requires G.IsRun(states, acts) && i < |states|
    requires forall j :: 0 <= j < i ==> G.Unsent(states[j], acts[j]) && (states[j].committed ==> states[j + 1].committed)
    ensures |AllSends(states, acts, i)| == if states[i].committed then 1 else 0
  {
    if i > 0 {
      FlagCountsSends(states, acts, i - 1);
      assert G.Moves(states[i - 1], acts[i - 1], states[i - 1 + 1]);
      assert G.Unsent(states[i - 1], acts[i - 1]);
      SendSetsFlag(states[i - 1], acts[i - 1]);
    }
  }

  lemma SendSetsFlag(g: G.Gate, a: G.Action)
    requires G.Enabled(g, a) && G.Unsent(g, a)
    ensures |G.Sends(g, a)| == if !g.committed && G.Step(g, a).committed then 1 else 0
  {
  }

  /** Main result: for such runs the supervisor's verdict is the gate's own flag. */
  lemma RestartsIffCommitted(states: seq<G.Gate>, acts: seq<G.Action>, b: L.Boot, encode: L.Frame -> seq<L.byte>,
                             start: seq<L.Frame>, chunks: seq<seq<L.byte>>)
    requires G.IsRun(states, acts) && L.StartFrames(b, start)
    requires forall j :: 0 <= j < |acts| ==> G.Unsent(states[j], acts[j]) && (states[j].committed ==> states[j + 1].committed)
    requires var frames := start + L.CommitFrames(b, AllSends(states, acts, |acts|));
             L.Encodes(b, encode, frames) && L.Concat(chunks) == L.Wire(encode, frames) &&
             forall f :: f in frames ==> |encode(f)| < L.MAX_FRAME
    ensures L.Feed(b, L.FeedAll(b, L.START, chunks), [], true).commitValid <==> states[|acts|].committed
  {
    FlagCountsSends(states, acts, |acts|);
    RestartsIffSentOnce(states, acts, b, encode, start, chunks);
  }

  /** Two commits of one request that wait together are both sent, although the preparation
      stands all the time; by the theorem above the supervisor then refuses the restart. */
  lemma TwoWaitersSendTwice() returns (states: seq<G.Gate>, acts: seq<G.Action>)
    ensures G.IsRun(states, acts) && forall j :: 0 <= j < |acts| ==> G.Fresh(states[j], acts[j])
    ensures AllSends(states, acts, |acts|) == ["r", "r"]
  {
    acts := [G.DoAcquire(0), G.DoPrepare("r", true), G.DoCommit(0, "r", true), G.DoCommit(1, "r", true), G.DoRelease(0),
             G.DoResume(0, true), G.DoResume(1, true)];
    var held, done := G.Permit("", false), G.Permit("", true);
    var s1 := G.OPEN.(count := 1, drained := false, permits := map[0 := held]);
    var s2 := s1.(request := Some("r"), accepting := false, epoch := 1);
    var s3 := s2.(commits := map[0 := G.Commit("r", 1, G.Waiting)]);
    var s4 := s3.(commits := map[0 := G.Commit("r", 1, G.Waiting), 1 := G.Commit("r", 1, G.Waiting)]);
    var s5 := s4.(count := 0, drained := true, permits := map[0 := done],
                  commits := map[0 := G.Commit("r", 1, G.Woken), 1 := G.Commit("r", 1, G.Woken)]);
    var s6 := s5.(committed := true, commits := map[0 := G.Commit("r", 1, G.Sent), 1 := G.Commit("r", 1, G.Woken)]);
    var s7 := s5.(committed := true, commits := map[0 := G.Commit("r", 1, G.Sent), 1 := G.Commit("r", 1, G.Sent)]);
    states := [G.OPEN, s1, s2, s3, s4, s5, s6, s7];
    assert G.Moves(G.OPEN, acts[0], s1);
    assert G.Moves(s1, acts[1], s2) by {
      assert Strip("r") == "r";
    }
    assert G.Moves(s2, acts[2], s3);
    assert G.Moves(s3, acts[3], s4);
    assert G.Moves(s4, acts[4], s5) by {
      assert G.WakeAll(s4.commits) == s5.commits;
    }
    assert G.Moves(s5, acts[5], s6);
    assert G.Moves(s6, acts[6], s7);
    assert G.Sends(s5, acts[5]) == ["r"] && G.Sends(s6, acts[6]) == ["r"];
    hide G.Step;
    SendsOfRun(states, acts);
  }

  lemma SendsOfRun(states: seq<G.Gate>, acts: seq<G.Action>)
    requires G.IsRun(states, acts) && |acts| == 7
    requires forall i :: 0 <= i < 5 ==> G.Enabled(states[i], acts[i]) && G.Sends(states[i], acts[i]) == []
    requires forall i :: 5 <= i < 7 ==> G.Enabled(states[i], acts[i]) && G.Sends(states[i], acts[i]) == ["r"]
    ensures AllSends(states, acts, 7) == ["r", "r"]
  {
    hide AllSends, G.IsRun, G.Sends, G.Enabled;
    NothingSent(states, acts);
    SendsAfter(states, acts, 0);
    SendsAfter(states, acts, 1);
    SendsAfter(states, acts, 2);
    SendsAfter(states, acts, 3);
    SendsAfter(states, acts, 4);
    SendsAfter(states, acts, 5);
    SendsAfter(states, acts, 6);
  }

  lemma NothingSent(states: seq<G.Gate>, acts: seq<G.Action>)
    requires G.IsRun(states, acts)
    ensures |states| > 0 && AllSends(states, acts, 0) == []
  {
  }

  lemma SendsAfter(states: seq<G.Gate>, acts: seq<G.Action>, i: nat)
    requires G.IsRun(states, acts) && i < |acts|
    ensures |states| == |acts| + 1 && G.Enabled(states[i], acts[i])
    ensures AllSends(states, acts, i + 1) == AllSends(states, acts, i) + G.Sends(states[i], acts[i])
  {
    assert G.Moves(states[i], acts[i], states[i + 1]);
    hide G.Moves, G.Sends;
  }
}
