/** What becomes of a wait: from the resolved page to the answer of whoever waits, and what
    a replacement or a close tells everyone. */
module FramePaths {
  import opened FrameBook
  import opened Wrappers

  /** The state after a list of steps, if they are possible one after the other. */
  ghost function After(b: Book, acts: seq<Action>): Option<Book>
    decreases |acts|
  {
    if acts == [] then Some(b)
    else
      var c := After(b, acts[..|acts| - 1]);
      var a := acts[|acts| - 1];
      if c == None || !Known(c.value) || !Enabled(c.value, a) then None else Some(Step(c.value, a))
  }

  ghost predicate Sound(b: Book) {
    Known(b) && exists carrier :: Inv(b, carrier)
  }

  lemma SoundStep(b: Book, a: Action)
    requires Sound(b) && Enabled(b, a)
    ensures Sound(Step(b, a))
  {
    var carrier :| Inv(b, carrier);
    hide Inv, Step, Enabled;
    var w := StepKeepsInv(b, a, carrier);
    KnownFromInv(Step(b, a), w);
  }

  lemma Then(b: Book, acts: seq<Action>, c: Book, a: Action, d: Book)
    requires After(b, acts) == Some(c) && Moves(c, a, d)
    ensures After(b, acts + [a]) == Some(d)
  {
    assert (acts + [a])[..|acts|] == acts;
  }

  /** What holds of a parked wait and its route. */
  lemma ParkedFacts(b: Book, w: nat)
    requires Sound(b) && w in b.waits && b.waits[w].phase == Parked
    ensures var r := b.waits[w].route;
            r in b.objs && w in b.objs[r].waiters && b.objs[r].error == None && !b.objs[r].drained
  {
    var carrier :| Inv(b, carrier);
    assert WaitFits(w, b.waits[w], b.objs[b.waits[w].route], b.claims);
  }

  // ---------------------------------------------------------------------------
  // The write of a page
  // ---------------------------------------------------------------------------

  /** The waits after one route told everyone parked on it the same. */
  ghost predicate AllTold(b: Book, r: nat, outcome: Option<Failure>, c: Book) {
    c.waits.Keys == b.waits.Keys &&
    forall w :: w in b.waits ==>
      c.waits[w] == if b.waits[w].route == r && b.waits[w].phase == Parked then b.waits[w].(phase := Woken(outcome)) else b.waits[w]
  }

  ghost predicate ParkedAreListed(b: Book) {
    forall w :: w in b.waits && b.waits[w].phase == Parked ==>
      b.waits[w].route in b.objs && w in b.objs[b.waits[w].route].waiters
  }

  lemma SoundLists(b: Book)
    requires Sound(b)
    ensures Known(b) && ParkedAreListed(b)
  {
    forall w | w in b.waits && b.waits[w].phase == Parked
      ensures b.waits[w].route in b.objs && w in b.objs[b.waits[w].route].waiters
    {
      ParkedFacts(b, w);
    }
  }

  lemma RetireTells(b: Book, r: nat, error: Option<Failure>)
    requires ParkedAreListed(b) && r in b.objs
    ensures var c := Retire(b, {r}, error);
            && AllTold(b, r, Verdict(error), c)
            && r in c.objs && c.objs == b.objs[r := b.objs[r].(error := error, waiters := {})]
            && !Homed(c, r)
  {
  }

  /** A finished route may go, with nobody left to tell. */
  lemma MaybeReleaseTellsNobody(b: Book, r: nat)
    requires r in b.objs && b.objs[r].drained
    requires forall w :: w in b.waits && b.waits[w].route == r ==> b.waits[w].phase != Parked
    ensures var c := MaybeRelease(b, r);
            && c.waits == b.waits && c.claims == b.claims
            && r in c.objs && c.objs == b.objs[r := c.objs[r]] && c.objs[r].drained && c.objs[r].error == b.objs[r].error
            && c.objs[r].expected == b.objs[r].expected
  {
    assert Settled(b.objs, b.waits, {r}, Verdict(b.objs[r].error)) == b.waits;
    assert Retired(b.objs, {r}, b.objs[r].error) == b.objs[r := b.objs[r].(waiters := {})];
    assert b.objs == b.objs[r := b.objs[r]];
  }

  /** When the page of a route has settled, everyone parked on the route is told: that it is
      written, or that writing broke.  Nobody else is. */
  lemma FrameTellsAll(b: Book, r: nat)
    requires ParkedAreListed(b) && Enabled(b, DoFrame(r))
    ensures var c := FrameDone(b, r);
            var broke := b.pages[b.objs[r].written.value].status == Broken;
            && AllTold(b, r, if broke then Some(Given("write failed")) else None, c)
            && r in c.objs && c.objs == b.objs[r := c.objs[r]] && c.claims == b.claims
            && (if broke then c.objs[r].error == Some(Given("write failed")) && !Homed(c, r)
                else c.objs[r].drained && c.objs[r].error == b.objs[r].error)
  {
    hide FrameDone;
    if b.pages[b.objs[r].written.value].status == Broken {
      BrokenTells(b, r);
    } else {
      WrittenTells(b, r);
    }
  }

  lemma BrokenTells(b: Book, r: nat)
    requires ParkedAreListed(b) && r in b.objs && b.objs[r].written != None && b.objs[r].written.value in b.pages
    requires b.pages[b.objs[r].written.value].status == Broken
    ensures var c := FrameDone(b, r);
            && AllTold(b, r, Some(Given("write failed")), c)
            && r in c.objs && c.objs == b.objs[r := c.objs[r]] && c.claims == b.claims
            && c.objs[r].error == Some(Given("write failed")) && !Homed(c, r)
  {
    var c := b.(objs := b.objs[r := b.objs[r].(due := false)]);
    assert ParkedAreListed(c);
    RetireTells(c, r, Some(Given("write failed")));
    hide Retire;
  }

  lemma WrittenTells(b: Book, r: nat)
    requires ParkedAreListed(b) && r in b.objs && b.objs[r].written != None && b.objs[r].written.value in b.pages
    requires b.pages[b.objs[r].written.value].status != Broken
    ensures var c := FrameDone(b, r);
            && AllTold(b, r, None, c)
            && r in c.objs && c.objs == b.objs[r := c.objs[r]] && c.claims == b.claims
            && c.objs[r].drained && c.objs[r].error == b.objs[r].error
  {
    var e := WrittenIs(b, r);
    SettledTells(b.(objs := e.objs), r);
    MaybeReleaseTellsNobody(e, r);
    hide MaybeRelease, Settled, FrameDone;
  }

  /** The book just before a written route may go. */
  lemma WrittenIs(b: Book, r: nat) returns (e: Book)
    requires r in b.objs && b.objs[r].written != None && b.objs[r].written.value in b.pages
    requires b.pages[b.objs[r].written.value].status != Broken
    ensures e.objs == b.objs[r := b.objs[r].(due := false, written := None, drained := true)]
    ensures e == b.(objs := e.objs, waits := Settled(e.objs, b.waits, {r}, None)) && FrameDone(b, r) == MaybeRelease(e, r)
  {
    hide MaybeRelease, Settled;
    var o := b.objs[r].(due := false, written := None, drained := true);
    assert b.objs[r := b.objs[r].(due := false)][r := o] == b.objs[r := o];
    e := b.(objs := b.objs[r := o], waits := Settled(b.objs[r := o], b.waits, {r}, None));
  }

  lemma SettledTells(b: Book, r: nat)
    requires ParkedAreListed(b)
    ensures AllTold(b, r, None, b.(waits := Settled(b.objs, b.waits, {r}, None)))
  {
  }

  /** What a woken wait answers. */
  function Told(b: Book, w: nat): Answer
    requires w in b.waits && b.waits[w].route in b.objs && b.waits[w].phase.Woken?
  {
    var wt := b.waits[w];
    if wt.phase.outcome != None then Failed(wt.phase.outcome.value)
    else if b.objs[wt.route].error != None then Failed(b.objs[wt.route].error.value)
    else if wt.wants.Ending? && wt.wants.claim in b.claims && b.claims[wt.wants.claim].ending == None then Unresolved
    else Delivered
  }

  lemma ResumeTells(b: Book, w: nat)
    requires w in b.waits && b.waits[w].phase.Woken? && b.waits[w].route in b.objs
    ensures w in ResumeWait(b, w).waits
    ensures ResumeWait(b, w).waits[w] == b.waits[w].(phase := Ended(Told(b, w)))
  {
    hide MaybeRelease;
    var c := LeaveWaiters(b, w);
    assert c.waits == b.waits && c.claims == b.claims && c.objs.Keys == b.objs.Keys;
    MaybeReleaseKeepsSettled(c, b.waits[w].route, w);
  }

  lemma MaybeReleaseKeepsSettled(b: Book, r: nat, w: nat)
    requires r in b.objs && w in b.waits && b.waits[w].phase != Parked
    ensures w in MaybeRelease(b, r).waits && MaybeRelease(b, r).waits[w] == b.waits[w]
  {
  }

  // ---------------------------------------------------------------------------
  // From the page to the answer
  // ---------------------------------------------------------------------------

  /** The route's ending is on a page that has not been sent yet, and on no other. */
  ghost predicate OnFreshPage(b: Book, r: nat, p: nat) {
    r in b.objs && b.objs[r].written == None && p in b.pages && b.pages[p].status == Fresh && r in b.pages[p].tracked
  }

  lemma AttachAndSettle(b: Book, r: nat, p: nat, ok: bool)
    requires OnFreshPage(b, r, p) && !b.objs[r].drained && Known(b)
    ensures var c := AttachPage(b, p);
            var d := c.(pages := c.pages[p := c.pages[p].(status := if ok then Written else Broken)]);
            && Enabled(b, DoAttach(p)) && Known(c) && Enabled(c, PageSettles(p, ok)) && d == Step(c, PageSettles(p, ok))
            && Known(d) && Enabled(d, DoFrame(r)) && d.waits == b.waits && d.claims == b.claims
            && d.objs[r].written == Some(p) && d.pages[p].status == (if ok then Written else Broken)
            && d.objs[r].error == b.objs[r].error
  {
  }

  /** Main result: once the page with a route's ending is sent, everyone who waits on the
      route is answered: delivered when the write worked, failed when it broke.  The four
      steps it takes are possible from any state that a run reaches. */
  lemma PageReachesWaiter(b: Book, w: nat, p: nat, ok: bool)
    requires Sound(b) && w in b.waits && b.waits[w].phase == Parked && OnFreshPage(b, b.waits[w].route, p)
    requires b.waits[w].wants.Ending? && b.waits[w].wants.claim in b.claims ==> b.claims[b.waits[w].wants.claim].ending != None
    ensures var c := After(b, [DoAttach(p), PageSettles(p, ok), DoFrame(b.waits[w].route), DoResume(w)]);
            && c.Some? && w in c.value.waits
            && c.value.waits[w] == b.waits[w].(phase := Ended(if ok then Delivered else Failed(Given("write failed"))))
  {
    hide Sound, After, Moves, OnFreshPage;
    var c, d, e := PageSteps(b, w, p, ok);
    var r := b.waits[w].route;
    ResumeMoves(e, w);
    assert After(b, []) == Some(b) by {
      NoSteps(b);
    }
    Then(b, [], b, DoAttach(p), c);
    Then(b, [] + [DoAttach(p)], c, PageSettles(p, ok), d);
    Then(b, [] + [DoAttach(p)] + [PageSettles(p, ok)], d, DoFrame(r), e);
    Then(b, [] + [DoAttach(p)] + [PageSettles(p, ok)] + [DoFrame(r)], e, DoResume(w), ResumeWait(e, w));
    assert [] + [DoAttach(p)] + [PageSettles(p, ok)] + [DoFrame(r)] + [DoResume(w)] ==
           [DoAttach(p), PageSettles(p, ok), DoFrame(r), DoResume(w)];
  }

  lemma NoSteps(b: Book)
    ensures After(b, []) == Some(b)
  {
  }

  lemma ResumeMoves(b: Book, w: nat)
    requires Known(b) && w in b.waits && b.waits[w].phase.Woken?
    ensures b.waits[w].route in b.objs && Moves(b, DoResume(w), ResumeWait(b, w))
    ensures w in ResumeWait(b, w).waits && ResumeWait(b, w).waits[w] == b.waits[w].(phase := Ended(Told(b, w)))
  {
    ResumeTells(b, w);
    hide ResumeWait;
  }

  lemma PageSteps(b: Book, w: nat, p: nat, ok: bool) returns (c: Book, d: Book, e: Book)
    requires Sound(b) && w in b.waits && b.waits[w].phase == Parked && OnFreshPage(b, b.waits[w].route, p)
    ensures var r := b.waits[w].route;
            && Moves(b, DoAttach(p), c) && Moves(c, PageSettles(p, ok), d) && Moves(d, DoFrame(r), e)
            && Known(e) && w in e.waits && e.claims == b.claims && r in e.objs
            && e.waits[w] == b.waits[w].(phase := Woken(if ok then None else Some(Given("write failed"))))
            && (ok ==> e.objs[r].error == None)
  {
    var r := b.waits[w].route;
    SoundLists(b);
    ParkedFacts(b, w);
    AttachAndSettle(b, r, p, ok);
    hide AttachPage, FrameDone, OnFreshPage, ParkedAreListed;
    c := AttachPage(b, p);
    d := c.(pages := c.pages[p := c.pages[p].(status := if ok then Written else Broken)]);
    SoundAfter(b, DoAttach(p), c, PageSettles(p, ok), d);
    SoundLists(d);
    e := FrameDone(d, r);
    FrameTellsAll(d, r);
    SoundStep(d, DoFrame(r));
    SoundLists(e);
    hide Sound, Known;
  }

  lemma SoundAfter(b: Book, x: Action, c: Book, y: Action, d: Book)
    requires Sound(b) && Moves(b, x, c) && Moves(c, y, d)
    ensures Sound(d)
  {
    hide Step, Enabled, Inv;
    SoundStep(b, x);
    SoundStep(c, y);
  }

  // ---------------------------------------------------------------------------
  // Resolving a page
  // ---------------------------------------------------------------------------

  /** The resolver names a second, different ending for the route. */
  predicate Conflicts(b: Book, conn: string, complete: set<(string, string)>, endings: map<nat, string>, r: nat) {
    r in b.objs && Concerns(b.objs[r], conn, complete, endings, r) &&
    b.objs[r].expected != None && b.objs[r].expected != Some(endings[r])
  }

  /** The route once its ending is fixed. */
  function Fixed(o: Route, ending: string): Route {
    o.(expected := Some(ending), resolved := Some(ending))
  }

  /** The routes of the list that the page concerns. */
  predicate Named(b: Book, conn: string, complete: set<(string, string)>, endings: map<nat, string>, order: seq<nat>, r: nat) {
    r in order && r in b.objs && Concerns(b.objs[r], conn, complete, endings, r)
  }

  /** A page is refused exactly when it names a second ending for one of the routes. */
  lemma {:induction false} PageRefusedIff(b: Book, conn: string, complete: set<(string, string)>,
                                          endings: map<nat, string>, order: seq<nat>, tracked: map<nat, string>)
    requires forall i :: 0 <= i < |order| ==> order[i] in b.objs
    ensures ResolveRoutes(b, conn, complete, endings, order, tracked).1 == None <==>
              exists r :: r in order && Conflicts(b, conn, complete, endings, r)
    decreases |order|
  {
    if order != [] {
      var r, rest := order[0], order[1..];
      assert order == [r] + rest;
      assert Conflicts(b, conn, complete, endings, r) <==>
        Concerns(b.objs[r], conn, complete, endings, r) && b.objs[r].expected != None && b.objs[r].expected != Some(endings[r]);
      if Concerns(b.objs[r], conn, complete, endings, r) {
        if !Conflicts(b, conn, complete, endings, r) {
          BindKeepsConcerns(b, r, conn, complete, endings);
          hide Conflicts, Concerns;
          PageRefusedIff(Bind(b, r, endings[r]), conn, complete, endings, rest, tracked[r := endings[r]]);
        }
      } else {
        hide Conflicts, Concerns;
        PageRefusedIff(b, conn, complete, endings, rest, tracked);
      }
    }
  }

  /** Main result: an accepted page tracks exactly the routes it concerns, each with the
      ending its own resolver named, and fixes that ending; no other route changes. */
  lemma {:induction false} PageTracksConcerned(b: Book, conn: string, complete: set<(string, string)>,
                                               endings: map<nat, string>, order: seq<nat>, tracked: map<nat, string>)
    requires forall i :: 0 <= i < |order| ==> order[i] in b.objs
    requires ResolveRoutes(b, conn, complete, endings, order, tracked).1 != None
    ensures var (c, t) := ResolveRoutes(b, conn, complete, endings, order, tracked);
            && c.objs.Keys == b.objs.Keys
            && forall r ::
                 if Named(b, conn, complete, endings, order, r) then
                   r in t.value && t.value[r] == endings[r] && c.objs[r] == Fixed(b.objs[r], endings[r])
                 else
                   && (r in t.value <==> r in tracked) && (r in tracked ==> t.value[r] == tracked[r])
                   && (r in b.objs ==> c.objs[r] == b.objs[r])
    decreases |order|
  {
    if order != [] {
      var x, rest := order[0], order[1..];
      assert order == [x] + rest;
      var next, more := b, tracked;
      if Concerns(b.objs[x], conn, complete, endings, x) {
        BindKeepsConcerns(b, x, conn, complete, endings);
        next, more := Bind(b, x, endings[x]), tracked[x := endings[x]];
      }
      PageTracksConcerned(next, conn, complete, endings, rest, more);
      hide ResolveRoutes, Bind;
    }
  }

  lemma BindKeepsConcerns(b: Book, r: nat, conn: string, complete: set<(string, string)>, endings: map<nat, string>)
    requires r in b.objs && Concerns(b.objs[r], conn, complete, endings, r) && !Conflicts(b, conn, complete, endings, r)
    ensures var c := Bind(b, r, endings[r]);
            forall x :: (x in c.objs <==> x in b.objs) &&
                        (x in b.objs ==> Concerns(c.objs[x], conn, complete, endings, x) == Concerns(b.objs[x], conn, complete, endings, x)) &&
                        Conflicts(c, conn, complete, endings, x) == Conflicts(b, conn, complete, endings, x)
  {
  }

  // ---------------------------------------------------------------------------
  // Replacement and close
  // ---------------------------------------------------------------------------

  /** What holds of a live stage, and of the route it is to replace. */
  ghost predicate StageReady(b: Book, r: nat) {
    && r in b.objs && b.objs[r].staged && !b.objs[r].stageClosed
    && ParkedAreListed(b)
    && (b.objs[r].drained ==> forall w :: w in b.waits && b.waits[w].route == r ==> b.waits[w].phase != Parked)
    && (b.objs[r].key in b.routes ==>
          b.routes[b.objs[r].key] in b.objs && b.routes[b.objs[r].key] != r)
  }

  lemma LiveStageIsReady(b: Book, r: nat)
    requires Sound(b) && r in b.stages
    ensures StageReady(b, r)
  {
    SoundLists(b);
    var carrier :| Inv(b, carrier);
    assert TablesFit(b);
    forall w | w in b.waits && b.waits[w].route == r && b.waits[w].phase == Parked
      ensures !b.objs[r].drained
    {
      ParkedFacts(b, w);
    }
  }

  /** The book after the replacement is visible and before it may go. */
  function Replacing(b: Book, r: nat): Book
    requires r in b.objs
  {
    var key := b.objs[r].key;
    var c := CloseStages(b, {r}).(stages := b.stages - {r});
    var d := if key in c.routes && c.routes[key] in c.objs then FailRoute(c, c.routes[key], Replaced) else c;
    if r in d.objs then d.(objs := d.objs[r := d.objs[r].(staged := false)], routes := d.routes[key := r]) else d
  }

  lemma ReplacingTells(b: Book, r: nat)
    requires StageReady(b, r)
    ensures var key, e := b.objs[r].key, Replacing(b, r);
            && r in e.objs && e.objs[r] == b.objs[r].(staged := false, stageClosed := true)
            && key in e.routes && e.routes[key] == r
            && (key in b.routes ==> AllTold(b, b.routes[key], Some(Replaced), e) &&
                                    b.routes[key] in e.objs && e.objs[b.routes[key]].error == Some(Replaced))
            && (key !in b.routes ==> e.waits == b.waits)
  {
    var key := b.objs[r].key;
    var c := StageClosed(b, r);
    if key in b.routes {
      ReplacedIsTold(b, r, b.routes[key]);
    } else {
      assert c.objs[r].(staged := false) == b.objs[r].(staged := false, stageClosed := true);
    }
    hide CloseStages, FailRoute, ParkedAreListed, AllTold;
  }

  /** Closing the stage marks its route and nothing else. */
  lemma StageClosed(b: Book, r: nat) returns (c: Book)
    requires StageReady(b, r)
    ensures c == CloseStages(b, {r}).(stages := b.stages - {r})
    ensures c.objs == b.objs[r := b.objs[r].(stageClosed := true)] && c.waits == b.waits && c.routes == b.routes
    ensures ParkedAreListed(c)
  {
    c := CloseStages(b, {r}).(stages := b.stages - {r});
  }

  lemma ReplacedIsTold(b: Book, r: nat, q: nat)
    requires StageReady(b, r) && q in b.objs && q != r
    ensures var d := FailRoute(CloseStages(b, {r}).(stages := b.stages - {r}), q, Replaced);
            && AllTold(b, q, Some(Replaced), d)
            && r in d.objs && d.objs[r] == b.objs[r].(stageClosed := true)
            && q in d.objs && d.objs[q].error == Some(Replaced)
  {
    var c := StageClosed(b, r);
    RetireTells(c, q, Some(Replaced));
    hide Retire, CloseStages, ParkedAreListed, Homed;
  }

  lemma CommitIsReplacing(b: Book, r: nat)
    requires r in b.objs && b.objs[r].staged && !b.objs[r].stageClosed
    ensures r in Replacing(b, r).objs && CommitStage(b, r) == MaybeRelease(Replacing(b, r), r)
  {
    hide Retire, MaybeRelease;
  }

  /** Main result: committing a live stage puts its route in the table and tells everyone who
      waits on the route it replaces; nobody else is told anything.  A replacement that is
      already written and that no claim holds is finished with. */
  lemma CommitTellsReplaced(b: Book, r: nat)
    requires Sound(b) && r in b.stages
    ensures r in b.objs && r in CommitStage(b, r).objs
    ensures var key, c := b.objs[r].key, CommitStage(b, r);
            && (InTable(c, r) <==> !b.objs[r].drained || b.objs[r].claims != {})
            && (key in b.routes ==>
                  AllTold(b, b.routes[key], Some(Replaced), c) && b.routes[key] in c.objs &&
                  c.objs[b.routes[key]].error == Some(Replaced))
            && (key !in b.routes ==> c.waits == b.waits)
  {
    LiveStageIsReady(b, r);
    hide Sound, CommitStage;
    ReadyCommitTells(b, r);
  }

  lemma ReadyCommitTells(b: Book, r: nat)
    requires StageReady(b, r)
    ensures r in CommitStage(b, r).objs
    ensures var key, c := b.objs[r].key, CommitStage(b, r);
            && (InTable(c, r) <==> !b.objs[r].drained || b.objs[r].claims != {})
            && (key in b.routes ==>
                  AllTold(b, b.routes[key], Some(Replaced), c) && b.routes[key] in c.objs &&
                  c.objs[b.routes[key]].error == Some(Replaced))
            && (key !in b.routes ==> c.waits == b.waits)
  {
    hide CommitStage, Replacing, MaybeRelease;
    ReplacingTells(b, r);
    CommitIsReplacing(b, r);
    var e := Replacing(b, r);
    FinishedOrNot(e, r);
    if b.objs[r].drained {
      NobodyParked(b, r, e);
      MaybeReleaseTellsNobody(e, r);
    }
  }

  /** Telling the replaced route parks nobody on the replacement. */
  lemma NobodyParked(b: Book, r: nat, e: Book)
    requires StageReady(b, r) && b.objs[r].drained
    requires var key := b.objs[r].key;
             if key in b.routes then AllTold(b, b.routes[key], Some(Replaced), e) else e.waits == b.waits
    ensures forall w :: w in e.waits && e.waits[w].route == r ==> e.waits[w].phase != Parked
  {
  }

  /** Whether a route in the table stays there. */
  lemma FinishedOrNot(b: Book, r: nat)
    requires r in b.objs && InTable(b, r) && !b.objs[r].staged
    ensures if b.objs[r].drained && b.objs[r].claims == {} then r in MaybeRelease(b, r).objs && !InTable(MaybeRelease(b, r), r)
            else MaybeRelease(b, r) == b
  {
  }

  /** Main result: closing the book leaves no route, no stage and nobody parked. */
  lemma CloseTellsEveryone(b: Book, failure: Failure)
    requires Sound(b)
    ensures var c := Step(b, DoClose(failure));
            && c.closed && c.routes == map[] && c.stages == {} && c.waits.Keys == b.waits.Keys
            && forall w :: w in c.waits ==> c.waits[w].phase != Parked
  {
    SoundStep(b, DoClose(failure));
    var c := Step(b, DoClose(failure));
    CloseEmpties(b, failure);
    hide Step;
    forall w | w in c.waits && c.waits[w].phase == Parked
      ensures false
    {
      ParkedIsHomed(c, w);
    }
  }

  lemma ParkedIsHomed(b: Book, w: nat)
    requires Sound(b) && w in b.waits && b.waits[w].phase == Parked
    ensures b.waits[w].route in b.objs && Homed(b, b.waits[w].route)
  {
    ParkedFacts(b, w);
    var carrier :| Inv(b, carrier);
    var r := b.waits[w].route;
    assert RouteFits(b.objs[r], InTable(b, r), r in b.stages);
  }

  lemma CloseEmpties(b: Book, failure: Failure)
    requires Sound(b)
    ensures var c := Step(b, DoClose(failure));
            c.closed && c.routes == map[] && c.stages == {} && c.waits.Keys == b.waits.Keys
  {
    var carrier :| Inv(b, carrier);
    assert TablesFit(b);
    hide Inv, Sound;
    TablesEmpty(b.(closed := true), failure);
  }

  lemma TablesEmpty(b: Book, failure: Failure)
    requires forall k :: k in b.routes ==> b.routes[k] in b.objs && b.objs[b.routes[k]].key == k
    requires b.stages <= b.objs.Keys
    ensures var c := FailAll(b, None, failure);
            c.closed == b.closed && c.routes == map[] && c.stages == {} && c.waits.Keys == b.waits.Keys
  {
    var rs := RoutesOf(b, None);
    RetireTables(b, rs, Some(failure));
    assert forall k :: k in b.routes ==> b.routes[k] in rs;
    var c := Retire(b, rs, Some(failure));
    assert c.routes == map[];
    var stages := StagesOf(c, None);
    RetireTables(CloseStages(c, stages), stages, Some(StageAborted));
    hide Retire, RoutesOf, InTable;
    assert c.stages == stages;
  }

  lemma RetireTables(b: Book, rs: set<nat>, error: Option<Failure>)
    ensures var c := Retire(b, rs, error);
            && c.routes == Unlisted(b.routes, rs) && c.stages == b.stages - rs
            && c.objs.Keys == b.objs.Keys && c.waits.Keys == b.waits.Keys && c.closed == b.closed
  {
  }
}
