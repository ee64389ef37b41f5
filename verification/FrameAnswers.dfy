/** What the operations of the frame book do to each route and each wait, route by route. */
module FrameAnswers {
  import opened FrameBook
  import opened FramePaths
  import opened Wrappers

  /** The route is in the table. */
  ghost predicate Tabled(b: Book, r: nat) {
    exists k :: k in b.routes && b.routes[k] == r
  }

  /** Nothing about the route changed: the object, its entry in the table, its stage. */
  ghost predicate SameRoute(b: Book, c: Book, r: nat) {
    && r in b.objs && r in c.objs && c.objs[r] == b.objs[r]
    && (r in c.stages <==> r in b.stages)
    && (forall k :: (k in b.routes && b.routes[k] == r) <==> (k in c.routes && c.routes[k] == r))
  }

  /** The route is gone with this error, and whoever was parked on it was told so. */
  ghost predicate FailedWith(b: Book, c: Book, r: nat, error: Failure) {
    && r in b.objs && r in c.objs && r !in c.stages && !Tabled(c, r)
    && c.objs[r] == b.objs[r].(error := Some(error), waiters := {}, stageClosed := c.objs[r].stageClosed)
  }

  /** The waits of one route were told this, or stay as they are. */
  predicate WaitTold(b: Book, c: Book, w: nat, outcome: Option<Failure>)
  {
    && w in b.waits && w in c.waits
    && c.waits[w] == if outcome != None && b.waits[w].phase == Parked then b.waits[w].(phase := Woken(outcome)) else b.waits[w]
  }

  /** The numbers of the table are those of routes under their own keys. */
  lemma TabledIff(b: Book, r: nat)
    requires Linked(b) && r in b.objs
    ensures Tabled(b, r) <==> InTable(b, r)
  {
  }

  lemma RetireRoutes(b: Book, rs: set<nat>, error: Failure)
    requires Linked(b) && rs <= b.objs.Keys
    ensures var c := Retire(b, rs, Some(error));
            && Linked(c) && c.objs.Keys == b.objs.Keys
            && forall r :: r in b.objs ==>
                 if r in rs then c.objs[r] == b.objs[r].(error := Some(error), waiters := {}) && r !in c.stages && !Tabled(c, r)
                 else SameRoute(b, c, r)
  {
    RetireKeepsLinks(b, rs, Some(error));
  }

  lemma RetireWaits(b: Book, rs: set<nat>, error: Failure)
    requires Linked(b) && ParkedAreListed(b) && rs <= b.objs.Keys
    ensures var c := Retire(b, rs, Some(error));
            && c.waits.Keys == b.waits.Keys && ParkedAreListed(c)
            && forall w :: w in b.waits ==> WaitTold(b, c, w, if b.waits[w].route in rs then Some(error) else None)
  {
  }

  lemma CloseStagesRoutes(b: Book, rs: set<nat>)
    requires Linked(b)
    ensures var c := CloseStages(b, rs);
            && Linked(c) && (ParkedAreListed(b) ==> ParkedAreListed(c)) && c == b.(objs := c.objs) && c.objs.Keys == b.objs.Keys
            && forall r :: r in b.objs ==> c.objs[r] == if r in rs then b.objs[r].(stageClosed := true) else b.objs[r]
  {
  }

  /** What failing some routes and then aborting some stages does to each route. */
  lemma FailThenAbort(b: Book, rs: set<nat>, failure: Failure, ss: set<nat>)
    requires Linked(b) && ParkedAreListed(b) && rs <= b.objs.Keys && ss <= b.objs.Keys && rs !! ss
    ensures var c := AbortStages(Retire(b, rs, Some(failure)), ss);
            && c.objs.Keys == b.objs.Keys && c.waits.Keys == b.waits.Keys
            && (forall r :: r in b.objs ==>
                  if r in rs then FailedWith(b, c, r, failure)
                  else if r in ss then FailedWith(b, c, r, StageAborted)
                  else SameRoute(b, c, r))
            && (forall w :: w in b.waits ==>
                  WaitTold(b, c, w, if b.waits[w].route in rs then Some(failure)
                                    else if b.waits[w].route in ss then Some(StageAborted) else None))
  {
    RetireRoutes(b, rs, failure);
    RetireWaits(b, rs, failure);
    hide Retire, Linked, ParkedAreListed, AbortStages, FailedWith, SameRoute, WaitTold, Tabled;
    var m := Retire(b, rs, Some(failure));
    AbortAfter(m, ss);
    Combined(b, m, AbortStages(m, ss), rs, failure, ss);
  }

  /** What aborting some stages does to each route. */
  lemma AbortAfter(b: Book, ss: set<nat>)
    requires Linked(b) && ParkedAreListed(b) && ss <= b.objs.Keys
    ensures var c := AbortStages(b, ss);
            && c.objs.Keys == b.objs.Keys && c.waits.Keys == b.waits.Keys
            && (forall r :: r in b.objs ==> if r in ss then FailedWith(b, c, r, StageAborted) else SameRoute(b, c, r))
            && (forall w :: w in b.waits ==> WaitTold(b, c, w, if b.waits[w].route in ss then Some(StageAborted) else None))
  {
    CloseStagesRoutes(b, ss);
    var d := CloseStages(b, ss);
    RetireRoutes(d, ss, StageAborted);
    RetireWaits(d, ss, StageAborted);
    assert AbortStages(b, ss) == Retire(d, ss, Some(StageAborted));
    hide Retire, CloseStages, Linked, ParkedAreListed, AbortStages;
  }

  lemma Combined(b: Book, m: Book, c: Book, rs: set<nat>, failure: Failure, ss: set<nat>)
    requires rs !! ss && m.objs.Keys == b.objs.Keys && c.objs.Keys == m.objs.Keys
    requires forall r :: r in b.objs ==> if r in rs then FailedWith(b, m, r, failure) else SameRoute(b, m, r)
    requires forall r :: r in m.objs ==> if r in ss then FailedWith(m, c, r, StageAborted) else SameRoute(m, c, r)
    requires forall w :: w in b.waits ==> WaitTold(b, m, w, if b.waits[w].route in rs then Some(failure) else None)
    requires forall w :: w in m.waits ==> WaitTold(m, c, w, if m.waits[w].route in ss then Some(StageAborted) else None)
    ensures forall r :: r in b.objs ==>
              if r in rs then FailedWith(b, c, r, failure)
              else if r in ss then FailedWith(b, c, r, StageAborted)
              else SameRoute(b, c, r)
    ensures forall w :: w in b.waits ==>
              WaitTold(b, c, w, if b.waits[w].route in rs then Some(failure)
                                else if b.waits[w].route in ss then Some(StageAborted) else None)
  {
  }

  lemma SoundIsLinked(b: Book)
    requires Sound(b)
    ensures Linked(b) && ParkedAreListed(b)
    ensures forall r :: r in b.stages ==> r in b.objs && !Tabled(b, r)
  {
    SoundLists(b);
    var carrier :| Inv(b, carrier);
  }

  /** Which routes a lost connection takes out of the table, and which stages after that. */
  lemma OfConnection(b: Book, conn: string, failure: Failure)
    requires Linked(b) && forall r :: r in b.stages ==> r in b.objs && !Tabled(b, r)
    ensures var rs := RoutesOf(b, Some(conn));
            var ss := StagesOf(Retire(b, rs, Some(failure)), Some(conn));
            && (forall r :: r in rs <==> r in b.objs && Tabled(b, r) && b.objs[r].conn == conn)
            && (forall r :: r in ss <==> r in b.stages && b.objs[r].conn == conn)
  {
    forall r | r in b.objs
      ensures Tabled(b, r) <==> InTable(b, r)
    {
      TabledIff(b, r);
    }
    var rs := RoutesOf(b, Some(conn));
    RetireRoutes(b, rs, failure);
    var c := Retire(b, rs, Some(failure));
    hide Retire, Linked, Tabled, InTable;
    assert forall r :: r in rs <==> r in b.objs && Tabled(b, r) && b.objs[r].conn == conn;
    forall r
      ensures r in StagesOf(c, Some(conn)) <==> r in b.stages && b.objs[r].conn == conn
    {
      if r in b.stages {
        assert r !in rs && SameRoute(b, c, r);
      }
      if r in c.stages && r in c.objs {
        assert r in b.objs && (r in rs ==> r !in c.stages) && SameRoute(b, c, r);
      }
    }
  }

  /** Main result: a lost connection fails exactly the routes and aborts exactly the stages
      that are its own.  They leave the table and the stages with an error, and everyone
      parked on them is told.  Every other route keeps its object, its entry and its
      stage, and every other wait goes on. */
  lemma LostConnectionTells(b: Book, conn: string, failure: Failure)
    requires Sound(b)
    ensures var c := Step(b, DoFail(conn, failure));
            && c == b.(objs := c.objs, routes := c.routes, stages := c.stages, waits := c.waits)
            && c.objs.Keys == b.objs.Keys && c.waits.Keys == b.waits.Keys
            && (forall r :: r in b.objs ==>
                  if Tabled(b, r) && b.objs[r].conn == conn then FailedWith(b, c, r, failure)
                  else if r in b.stages && b.objs[r].conn == conn then FailedWith(b, c, r, StageAborted)
                  else SameRoute(b, c, r))
            && (forall w :: w in b.waits && b.waits[w].route in b.objs ==>
                  var r := b.waits[w].route;
                  WaitTold(b, c, w, if Tabled(b, r) && b.objs[r].conn == conn then Some(failure)
                                    else if r in b.stages && b.objs[r].conn == conn then Some(StageAborted) else None))
  {
    SoundIsLinked(b);
    OfConnection(b, conn, failure);
    var rs := RoutesOf(b, Some(conn));
    var ss := StagesOf(Retire(b, rs, Some(failure)), Some(conn));
    FailThenAbort(b, rs, failure, ss);
    hide Linked, ParkedAreListed, Sound, RoutesOf, StagesOf, Tabled, FailedWith, SameRoute, WaitTold;
  }

  // ---------------------------------------------------------------------------
  // One route at a time
  // ---------------------------------------------------------------------------

  /** No other route changes, nor any wait on another route. */
  ghost predicate OnlyRoute(b: Book, c: Book, r: nat) {
    && (forall x :: x in b.objs && x != r ==> SameRoute(b, c, x))
    && (forall w :: w in b.waits && b.waits[w].route != r ==> w in c.waits && c.waits[w] == b.waits[w])
  }

  /** The first owner of a key keeps it.  A free key gets a new route of this connection; a
      closed book takes nothing. */
  lemma RouteAnswers(b: Book, key: Key, conn: string, r: nat)
    requires Known(b) && Linked(b) && r !in b.objs
    ensures var c := RouteInput(b, key, conn, r);
            if b.closed || key in b.routes then c == b
            else
              && r in c.objs && c.objs[r].key == key && c.objs[r].conn == conn && !c.objs[r].staged
              && c.objs[r].expected == c.objs[r].resolved == None && c.objs[r].written == None && !c.objs[r].due
              && !c.objs[r].drained && c.objs[r].error == None && c.objs[r].waiters == c.objs[r].claims == {}
              && key in c.routes && c.routes[key] == r && OnlyRoute(b, c, r)
  {
  }

  /** A stage is a new route that is in no table; the one that has the key stays. */
  lemma StageAnswers(b: Book, key: Key, conn: string, r: nat)
    requires Known(b) && r !in b.objs
    ensures var c := StageInput(b, key, conn, r);
            if b.closed then c == b
            else
              && r in c.objs && c.objs[r].key == key && c.objs[r].conn == conn && c.objs[r].staged && !c.objs[r].stageClosed
              && c.objs[r].expected == c.objs[r].resolved == None && c.objs[r].written == None && !c.objs[r].due
              && !c.objs[r].drained && c.objs[r].error == None && c.objs[r].waiters == c.objs[r].claims == {}
              && r in c.stages && !Tabled(c, r) && OnlyRoute(b, c, r)
  {
  }

  /** The page holds, complete, the output that the route's resolver names. */
  predicate Carries(o: Route, conn: string, complete: set<(string, string)>, endings: map<nat, string>, r: nat) {
    o.conn == conn && r in endings && (o.key.session, endings[r]) in complete
  }

  /** Main result: a page is refused exactly when a route of its connection already expects
      another output than the complete one its resolver names.  An accepted page tracks
      exactly the routes whose own output it carries, and fixes that output for them; the
      claims of these routes learn it, and nothing else changes. */
  lemma PageAnswers(b: Book, p: nat, conn: string, complete: set<(string, string)>, endings: map<nat, string>, order: seq<nat>)
    requires p !in b.pages && forall i :: 0 <= i < |order| ==> order[i] in b.objs
    ensures var c := ResolvePage(b, p, conn, complete, endings, order);
            (p in c.pages <==> forall r :: r in order && Carries(b.objs[r], conn, complete, endings, r) ==>
               b.objs[r].expected == None || b.objs[r].expected == Some(endings[r]))
    ensures var c := ResolvePage(b, p, conn, complete, endings, order);
            p in c.pages ==>
              && c.pages == b.pages[p := c.pages[p]] && c.pages[p].conn == conn && c.pages[p].complete == complete
              && c.pages[p].status == Fresh
              && (forall r :: r in c.pages[p].tracked <==> r in order && Carries(b.objs[r], conn, complete, endings, r))
              && (forall r :: r in c.pages[p].tracked ==> c.pages[p].tracked[r] == endings[r])
              && c.objs.Keys == b.objs.Keys
              && (forall r :: r in b.objs ==>
                    c.objs[r] == if r in c.pages[p].tracked then b.objs[r].(expected := Some(endings[r]), resolved := Some(endings[r]))
                                 else b.objs[r])
  {
    PageRefusedIff(b, conn, complete, endings, order, map[]);
    forall r: nat
      ensures Conflicts(b, conn, complete, endings, r) <==>
                r in b.objs && Carries(b.objs[r], conn, complete, endings, r) &&
                b.objs[r].expected != None && b.objs[r].expected != Some(endings[r])
      ensures Named(b, conn, complete, endings, order, r) <==>
                r in order && r in b.objs && Carries(b.objs[r], conn, complete, endings, r)
    {
    }
    ResolvingKeepsPages(b, conn, complete, endings, order, map[]);
    if ResolveRoutes(b, conn, complete, endings, order, map[]).1 != None {
      PageTracksConcerned(b, conn, complete, endings, order, map[]);
      hide ResolveRoutes, Conflicts, Named, Carries;
    } else {
      hide ResolveRoutes, Carries;
    }
  }

  lemma {:induction false} ResolvingKeepsPages(b: Book, conn: string, complete: set<(string, string)>, endings: map<nat, string>,
                                               order: seq<nat>, tracked: map<nat, string>)
    requires forall i :: 0 <= i < |order| ==> order[i] in b.objs
    ensures ResolveRoutes(b, conn, complete, endings, order, tracked).0.pages == b.pages
    decreases |order|
  {
    if order != [] {
      var r := order[0];
      if !Concerns(b.objs[r], conn, complete, endings, r) {
        ResolvingKeepsPages(b, conn, complete, endings, order[1..], tracked);
      } else if b.objs[r].expected == None || b.objs[r].expected == Some(endings[r]) {
        ResolvingKeepsPages(Bind(b, r, endings[r]), conn, complete, endings, order[1..], tracked[r := endings[r]]);
      }
    }
  }

  /** Sending a page binds it to the routes it tracks that have no page yet and are not
      drained; a route that has one keeps it. */
  lemma AttachAnswers(b: Book, p: nat)
    requires p in b.pages
    ensures var c := AttachPage(b, p);
            && c == b.(objs := c.objs, pages := b.pages[p := b.pages[p].(status := Attached)]) && c.objs.Keys == b.objs.Keys
            && (forall r :: r in b.objs ==>
                  c.objs[r] == if r in b.pages[p].tracked && b.objs[r].written == None && !b.objs[r].drained
                               then b.objs[r].(written := Some(p), due := true) else b.objs[r])
  {
  }

  /** One route leaves, with this error if any, and its parked waits get `told`. */
  ghost predicate Leaves(b: Book, c: Book, r: nat, error: Option<Failure>, told: Failure) {
    && c == b.(objs := c.objs, routes := c.routes, stages := c.stages, waits := c.waits)
    && r in b.objs && r in c.objs && r !in c.stages && !Tabled(c, r)
    && c.objs[r] == b.objs[r].(error := error, waiters := {}, stageClosed := c.objs[r].stageClosed)
    && OnlyRoute(b, c, r)
    && (forall w :: w in b.waits && b.waits[w].route == r ==> WaitTold(b, c, w, Some(told)))
  }

  lemma OneLeaves(b: Book, r: nat, error: Option<Failure>)
    requires Linked(b) && ParkedAreListed(b) && r in b.objs
    ensures Leaves(b, Retire(b, {r}, error), r, error, if error == None then Released else error.value)
  {
    RetireKeepsLinks(b, {r}, error);
  }

  /** Releasing an input ends its route when no claim holds it: with its error, or the report
      that it had no output, unless it is drained.  A held route goes on. */
  lemma ReleaseAnswers(b: Book, key: Key)
    requires Sound(b)
    ensures var c := ReleaseInput(b, key);
            if key !in b.routes || b.objs[b.routes[key]].claims != {} then c == b
            else
              var r := b.routes[key];
              var error := if b.objs[r].error != None then b.objs[r].error else if b.objs[r].drained then None else Some(NoOutput);
              Leaves(b, c, r, error, if error == None then Released else error.value)
  {
    SoundIsLinked(b);
    if key in b.routes {
      var r := b.routes[key];
      OneLeaves(b, r, if b.objs[r].error == None && !b.objs[r].drained then Some(NoOutput) else b.objs[r].error);
    }
    hide Retire, Linked, ParkedAreListed, Sound, Leaves;
  }

  /** Settling an input releases a route that nothing claims; a claimed one is failed when
      there is an error to tell, and goes on otherwise. */
  lemma SettleAnswers(b: Book, key: Key, failure: Option<Failure>)
    requires Sound(b)
    ensures var c := SettleInput(b, key, failure);
            if key !in b.routes then c == b
            else if b.objs[b.routes[key]].claims == {} then c == ReleaseInput(b, key)
            else if failure == None then c == b
            else Leaves(b, c, b.routes[key], failure, failure.value)
  {
    SoundIsLinked(b);
    hide Retire, Linked, ParkedAreListed, Sound, Leaves, ReleaseRoute;
    if key in b.routes && failure != None {
      OneLeaves(b, b.routes[key], failure);
    }
  }

  /** Aborting a live stage ends its route, and whoever waits on it is told. */
  lemma AbortAnswers(b: Book, r: nat)
    requires Sound(b) && r in b.objs
    ensures var c := AbortStage(b, r);
            if r in b.stages then Leaves(b, c, r, Some(StageAborted), StageAborted) && c.objs[r].stageClosed
            else if b.objs[r].stageClosed || !b.objs[r].staged then c == b
            else OnlyRoute(b, c, r) && c.objs[r].error == Some(StageAborted) && c.objs[r].stageClosed
  {
    SoundIsLinked(b);
    if r in b.stages {
      StageIsLive(b, r);
    }
    hide AbortStages, Linked, ParkedAreListed, Sound, OnlyRoute;
    if b.objs[r].staged && !b.objs[r].stageClosed {
      AbortLeaves(b, r);
    }
  }

  lemma AbortLeaves(b: Book, r: nat)
    requires Linked(b) && ParkedAreListed(b) && r in b.objs
    ensures var c := AbortStages(b, {r}); Leaves(b, c, r, Some(StageAborted), StageAborted) && c.objs[r].stageClosed
  {
    CloseStagesRoutes(b, {r});
    OneLeaves(CloseStages(b, {r}), r, Some(StageAborted));
    hide Retire, CloseStages, Linked, ParkedAreListed, Leaves;
    LeavesClosed(b, r);
  }

  lemma LeavesClosed(b: Book, r: nat)
    requires r in b.objs && Linked(b)
    requires Leaves(CloseStages(b, {r}), AbortStages(b, {r}), r, Some(StageAborted), StageAborted)
    ensures Leaves(b, AbortStages(b, {r}), r, Some(StageAborted), StageAborted) && AbortStages(b, {r}).objs[r].stageClosed
  {
    CloseStagesRoutes(b, {r});
    hide AbortStages, CloseStages, Linked;
  }

  // ---------------------------------------------------------------------------
  // Waits and claims
  // ---------------------------------------------------------------------------

  /** Waiting for a message is refused when the route expects another one.  Otherwise the
      expectation is fixed, and the wait ends at once on a failed or drained route and
      parks on any other. */
  lemma WaitAnswers(b: Book, w: nat, r: nat, message: string)
    requires w !in b.waits && r in b.objs
    ensures var o, c := b.objs[r], WaitOutput(b, w, r, message);
            && c == b.(objs := c.objs, waits := c.waits) && w in c.waits && c.waits == b.waits[w := c.waits[w]]
            && c.waits[w].route == r && c.waits[w].wants == Output(message)
            && c.waits[w].phase == (if o.expected != None && o.expected != Some(message) then Ended(Mismatch)
                                    else if o.error != None then Ended(Failed(o.error.value))
                                    else if o.drained then Ended(Delivered) else Parked)
            && c.objs == (if o.expected != None && o.expected != Some(message) then b.objs
                          else b.objs[r := o.(expected := Some(message),
                                              waiters := if c.waits[w].phase == Parked then o.waiters + {w} else o.waiters)])
  {
    if b.objs[r].expected == None || b.objs[r].expected == Some(message) {
      var n := b.objs[r].(expected := Some(message));
      EnterAnswers(b.(objs := b.objs[r := n]), w, r, Output(message));
      assert b.objs[r := n][r := n.(waiters := n.waiters + {w})] == b.objs[r := n.(waiters := n.waiters + {w})];
      assert n.(waiters := n.waiters) == n;
      hide EnterWait;
    }
  }

  lemma EnterAnswers(b: Book, w: nat, r: nat, wants: Wants)
    requires r in b.objs
    ensures var o, c := b.objs[r], EnterWait(b, w, r, wants);
            && c == b.(objs := c.objs, waits := c.waits) && w in c.waits && c.waits == b.waits[w := c.waits[w]]
            && c.waits[w].route == r && c.waits[w].wants == wants
            && c.waits[w].phase == (if o.error != None then Ended(Failed(o.error.value))
                                    else if o.drained then Ended(Final(b, wants)) else Parked)
            && c.objs == (if c.waits[w].phase == Parked then b.objs[r := o.(waiters := o.waiters + {w})] else b.objs)
  {
  }

  /** Waiting for the ending of a claim ends at once on a closed claim or a decided route. */
  lemma ClaimWaitAnswers(b: Book, w: nat, c: nat)
    requires w !in b.waits && c in b.claims && b.claims[c].route in b.objs
    ensures var r := b.claims[c].route;
            var o, after := b.objs[r], WaitClaim(b, w, c);
            && after == b.(objs := after.objs, waits := after.waits) && w in after.waits
            && after.waits == b.waits[w := after.waits[w]]
            && after.waits[w].route == r && after.waits[w].wants == Ending(c)
            && after.waits[w].phase == (if b.claims[c].closed then Ended(Failed(Released))
                                        else if o.error != None then Ended(Failed(o.error.value))
                                        else if o.drained then Ended(if b.claims[c].ending == None then Unresolved else Delivered)
                                        else Parked)
            && after.objs == (if after.waits[w].phase == Parked then b.objs[r := o.(waiters := o.waiters + {w})] else b.objs)
  {
  }

  /** A claim of this call is open in the session. */
  ghost predicate HasClaim(b: Book, session: string, call: string) {
    exists d :: d in b.claims && !b.claims[d].closed && b.claims[d].call == call && b.claims[d].route in b.objs &&
                b.objs[b.claims[d].route].key.session == session
  }

  lemma IndexTells(b: Book, session: string, call: string, carrier: map<nat, nat>)
    requires Inv(b, carrier)
    ensures var at := (session, call);
            HasClaim(b, session, call) <==> at in b.index && b.index[at] in b.claims && !b.claims[b.index[at]].closed
  {
    hide TablesFit, RoutesFit, RoutesCarried, PagesFit, WaitsFit;
    var at := (session, call);
    if d :| d in b.claims && !b.claims[d].closed && b.claims[d].call == call && b.claims[d].route in b.objs &&
            b.objs[b.claims[d].route].key.session == session
    {
      assert ClaimFits(d, b.claims[d], b.objs, b.index);
    }
    if at in b.index {
      assert IndexFits(at, b.index[at], b.objs, b.claims);
    }
  }

  /** Main result: a call is claimed once.  A new claim belongs to the route of its input and
      knows its output if that is fixed; with no route, or with an open claim of the call in
      the session, nothing changes. */
  lemma ArmAnswers(b: Book, key: Key, call: string, c: nat)
    requires Sound(b) && c !in b.claims
    ensures var after := Step(b, DoArm(key, call, c));
            if key !in b.routes || HasClaim(b, key.session, call) then after == b
            else
              var r := b.routes[key];
              after == b.(claims := b.claims[c := Claim(r, call, b.objs[r].resolved, false)],
                          index := b.index[(key.session, call) := c],
                          objs := b.objs[r := b.objs[r].(claims := b.objs[r].claims + {c})])
  {
    var carrier :| Inv(b, carrier);
    IndexTells(b, key.session, call, carrier);
    hide Inv, HasClaim;
  }

  /** Ending an open claim takes it from its route and from the index, and ends the route
      exactly when it is in the table, drained, and held by no other claim. */
  lemma EndClaimAnswers(b: Book, c: nat)
    requires Sound(b) && c in b.claims
    ensures var after, r := Step(b, DoCloseClaim(c)), b.claims[c].route;
            if b.claims[c].closed then after == b
            else
              && r in after.objs && after.claims == b.claims[c := b.claims[c].(closed := true)]
              && after.index == b.index - {(b.objs[r].key.session, b.claims[c].call)}
              && after.objs == b.objs[r := after.objs[r]] && after.objs[r].claims == b.objs[r].claims - {c}
              && after.objs[r].error == b.objs[r].error && after.waits == b.waits && after.stages == b.stages
              && after.routes == (if Tabled(b, r) && b.objs[r].drained && b.objs[r].claims - {c} == {} then b.routes - {b.objs[r].key}
                                  else b.routes)
  {
    var carrier :| Inv(b, carrier);
    OpenClaim(b, c, carrier);
    if !b.claims[c].closed {
      UnclaimedMayGo(b, c, carrier);
      CloseIsUnclaim(b, c);
      UnclaimedGoes(b, c, Tabled(b, b.claims[c].route));
    }
    hide Inv, MaybeRelease, CloseClaim, Sound, Tabled, InTable, Unclaimed;
  }

  /** What is left when the route goes, or stays, after the claim. */
  lemma UnclaimedGoes(b: Book, c: nat, tabled: bool)
    requires c in b.claims && b.claims[c].route in b.objs
    requires var r, d := b.claims[c].route, Unclaimed(b, c);
             && r in d.objs && (InTable(d, r) <==> tabled) && (InTable(d, r) ==> !d.objs[r].staged && r !in d.stages)
             && (forall k :: k in d.routes && d.routes[k] == r ==> k == d.objs[r].key)
             && (d.objs[r].drained ==> forall w :: w in d.waits && d.waits[w].route == r ==> d.waits[w].phase != Parked)
    ensures var r := b.claims[c].route;
            var after := MaybeRelease(Unclaimed(b, c), r);
            && r in after.objs && after.claims == b.claims[c := b.claims[c].(closed := true)]
            && after.index == b.index - {(b.objs[r].key.session, b.claims[c].call)}
            && after.objs == b.objs[r := after.objs[r]] && after.objs[r].claims == b.objs[r].claims - {c}
            && after.objs[r].error == b.objs[r].error && after.waits == b.waits && after.stages == b.stages
            && after.routes == if tabled && b.objs[r].drained && b.objs[r].claims - {c} == {} then b.routes - {b.objs[r].key} else b.routes
  {
    var r, d := b.claims[c].route, Unclaimed(b, c);
    ReleasedQuietly(d, r);
    hide MaybeRelease, InTable;
    var n := MaybeRelease(d, r).objs[r];
    assert d.objs[r := n] == b.objs[r := n];
  }

  lemma CloseIsUnclaim(b: Book, c: nat)
    requires c in b.claims && b.claims[c].route in b.objs && !b.claims[c].closed
    requires var at := (b.objs[b.claims[c].route].key.session, b.claims[c].call); at in b.index && b.index[at] == c
    ensures b.claims[c].route in Unclaimed(b, c).objs
    ensures CloseClaim(b, c) == MaybeRelease(Unclaimed(b, c), b.claims[c].route)
  {
    hide MaybeRelease;
  }

  lemma UnclaimedMayGo(b: Book, c: nat, carrier: map<nat, nat>)
    requires Inv(b, carrier) && Sound(b) && c in b.claims && b.claims[c].route in b.objs
    ensures var r, d := b.claims[c].route, Unclaimed(b, c);
            && r in d.objs && (InTable(d, r) <==> Tabled(b, r)) && (InTable(d, r) ==> !d.objs[r].staged && r !in d.stages)
            && (forall k :: k in d.routes && d.routes[k] == r ==> k == d.objs[r].key)
            && (d.objs[r].drained ==> forall w :: w in d.waits && d.waits[w].route == r ==> d.waits[w].phase != Parked)
  {
    var r := b.claims[c].route;
    SoundIsLinked(b);
    TabledIff(b, r);
    NobodyOnDrained(b, r, carrier);
    NotStaged(b, r, carrier);
    hide Inv, Sound, ParkedAreListed, Tabled;
  }

  /** The book after a claim left its route, before the route may go. */
  function Unclaimed(b: Book, c: nat): Book
    requires c in b.claims && b.claims[c].route in b.objs
  {
    var r := b.claims[c].route;
    b.(claims := b.claims[c := b.claims[c].(closed := true)],
       objs := b.objs[r := b.objs[r].(claims := b.objs[r].claims - {c})],
       index := b.index - {(b.objs[r].key.session, b.claims[c].call)})
  }

  lemma OpenClaim(b: Book, c: nat, carrier: map<nat, nat>)
    requires Inv(b, carrier) && c in b.claims
    ensures var r := b.claims[c].route;
            r in b.objs && (!b.claims[c].closed ==>
              c in b.objs[r].claims && (b.objs[r].key.session, b.claims[c].call) in b.index &&
              b.index[(b.objs[r].key.session, b.claims[c].call)] == c)
  {
    hide TablesFit, RoutesFit, RoutesCarried, PagesFit, WaitsFit;
    assert ClaimFits(c, b.claims[c], b.objs, b.index);
  }

  lemma NobodyOnDrained(b: Book, r: nat, carrier: map<nat, nat>)
    requires Inv(b, carrier) && r in b.objs
    ensures b.objs[r].drained ==> forall w :: w in b.waits && b.waits[w].route == r ==> b.waits[w].phase != Parked
  {
    hide TablesFit, RoutesFit, RoutesCarried, PagesFit, ClaimsFit;
    forall w | w in b.waits && b.waits[w].route == r
      ensures b.objs[r].drained ==> b.waits[w].phase != Parked
    {
      assert WaitFits(w, b.waits[w], b.objs[r], b.claims);
    }
  }

  lemma NotStaged(b: Book, r: nat, carrier: map<nat, nat>)
    requires Inv(b, carrier) && r in b.objs
    ensures InTable(b, r) ==> !b.objs[r].staged && r !in b.stages
  {
    hide RoutesFit, RoutesCarried, PagesFit, ClaimsFit, WaitsFit;
  }

  /** A route that nobody is parked on goes without telling anybody. */
  lemma ReleasedQuietly(b: Book, r: nat)
    requires r in b.objs && (InTable(b, r) ==> !b.objs[r].staged && r !in b.stages)
    requires forall k :: k in b.routes && b.routes[k] == r ==> k == b.objs[r].key
    requires b.objs[r].drained ==> forall w :: w in b.waits && b.waits[w].route == r ==> b.waits[w].phase != Parked
    ensures var c := MaybeRelease(b, r);
            && c.claims == b.claims && c.index == b.index && c.waits == b.waits && c.stages == b.stages
            && r in c.objs && c.objs == b.objs[r := c.objs[r]]
            && c.objs[r].claims == b.objs[r].claims && c.objs[r].error == b.objs[r].error
            && c.routes == if InTable(b, r) && b.objs[r].drained && b.objs[r].claims == {} then b.routes - {b.objs[r].key} else b.routes
  {
    if b.objs[r].drained {
      MaybeReleaseTellsNobody(b, r);
    }
    assert b.objs == b.objs[r := b.objs[r]];
  }

  // ---------------------------------------------------------------------------
  // What a step leaves alone
  // ---------------------------------------------------------------------------

  lemma ReleasingLeavesOthers(b: Book, r: nat)
    requires Linked(b) && r in b.objs
    ensures OnlyRoute(b, MaybeRelease(b, r), r)
  {
  }

  /** Two changes of one route. */
  lemma OnlyTwice(b: Book, c: Book, d: Book, r: nat)
    requires OnlyRoute(b, c, r) && OnlyRoute(c, d, r)
    requires forall w :: w in b.waits && b.waits[w].route != r ==> w in c.waits && c.waits[w].route == b.waits[w].route
    ensures OnlyRoute(b, d, r)
  {
  }

  /** Main result: when the write of a page settles for a route, no other route and no wait
      on another one changes. */
  lemma FrameLeavesOthers(b: Book, r: nat)
    requires Sound(b) && Enabled(b, DoFrame(r))
    ensures OnlyRoute(b, FrameDone(b, r), r)
  {
    SoundIsLinked(b);
    if b.pages[b.objs[r].written.value].status == Broken {
      BrokenLeavesOthers(b, r);
    } else {
      WrittenLeavesOthers(b, r);
    }
    hide FrameDone, Linked, ParkedAreListed, Sound, OnlyRoute;
  }

  lemma BrokenLeavesOthers(b: Book, r: nat)
    requires Linked(b) && ParkedAreListed(b) && r in b.objs && b.objs[r].written != None && b.objs[r].written.value in b.pages
    requires b.pages[b.objs[r].written.value].status == Broken
    ensures OnlyRoute(b, FrameDone(b, r), r)
  {
    var o := b.objs[r].(due := false);
    var c := b.(objs := b.objs[r := o]);
    LinksSurvive(b, r, o, b.waits);
    OneLeaves(c, r, Some(Given("write failed")));
    ChangingLeavesOthers(b, r, o, b.waits);
    hide Retire, Linked, ParkedAreListed, OnlyRoute;
    OnlyTwice(b, c, FailRoute(c, r, Given("write failed")), r);
  }

  lemma WrittenLeavesOthers(b: Book, r: nat)
    requires Linked(b) && r in b.objs && b.objs[r].written != None && b.objs[r].written.value in b.pages
    requires b.pages[b.objs[r].written.value].status != Broken
    ensures OnlyRoute(b, FrameDone(b, r), r)
  {
    var e := WrittenIs(b, r);
    var o := b.objs[r].(due := false, written := None, drained := true);
    SettledKeepsRoutes(e.objs, b.waits, {r}, None);
    LinksSurvive(b, r, o, e.waits);
    ReleasingLeavesOthers(e, r);
    SettlingLeavesOthers(b, r, o, None);
    hide MaybeRelease, Linked, OnlyRoute, Settled, FrameDone;
    OnlyTwice(b, e, MaybeRelease(e, r), r);
  }

  lemma ChangingLeavesOthers(b: Book, r: nat, o: Route, waits: map<nat, Wait>)
    requires r in b.objs && waits == b.waits
    ensures OnlyRoute(b, b.(objs := b.objs[r := o], waits := waits), r)
  {
  }

  lemma SettlingLeavesOthers(b: Book, r: nat, o: Route, outcome: Option<Failure>)
    requires r in b.objs
    ensures OnlyRoute(b, b.(objs := b.objs[r := o], waits := Settled(b.objs[r := o], b.waits, {r}, outcome)), r)
  {
  }

  /** Resuming a wait ends that one wait and may end its route; nobody else is told
      anything. */
  lemma ResumeLeavesOthers(b: Book, w: nat)
    requires Sound(b) && w in b.waits && b.waits[w].route in b.objs && b.waits[w].phase.Woken?
    ensures var c := ResumeWait(b, w);
            && (forall x :: x in b.objs && x != b.waits[w].route ==> SameRoute(b, c, x))
            && c.waits == b.waits[w := b.waits[w].(phase := Ended(Told(b, w)))]
  {
    SoundIsLinked(b);
    var carrier :| Inv(b, carrier);
    var r := b.waits[w].route;
    NobodyOnDrained(b, r, carrier);
    DrainedWhenTold(b, w, carrier);
    LinkedResume(b, w);
    hide Inv, Sound, ResumeWait, Linked, ParkedAreListed, SameRoute;
  }

  lemma LinkedResume(b: Book, w: nat)
    requires Linked(b) && w in b.waits && b.waits[w].route in b.objs && b.waits[w].phase.Woken?
    requires var r := b.waits[w].route;
             && (b.waits[w].phase == Woken(None) ==> b.objs[r].drained)
             && (b.objs[r].drained ==> forall v :: v in b.waits && b.waits[v].route == r ==> b.waits[v].phase != Parked)
    ensures var c := ResumeWait(b, w);
            && (forall x :: x in b.objs && x != b.waits[w].route ==> SameRoute(b, c, x))
            && c.waits == b.waits[w := b.waits[w].(phase := Ended(Told(b, w)))]
  {
    ResumeIsEnd(b, w);
    LeavingLeavesOthers(b, w);
    if b.objs[b.waits[w].route].drained {
      MaybeReleaseTellsNobody(LeaveWaiters(b, w), b.waits[w].route);
    }
    hide MaybeRelease, Linked, LeaveWaiters, ResumeWait;
  }

  lemma LeavingLeavesOthers(b: Book, w: nat)
    requires Linked(b) && w in b.waits && b.waits[w].route in b.objs
    ensures var r, d := b.waits[w].route, LeaveWaiters(b, w);
            && r in d.objs
            && (forall x :: x in b.objs && x != r ==> SameRoute(b, d, x) && SameRoute(b, MaybeRelease(d, r), x))
  {
    var r, d := b.waits[w].route, LeaveWaiters(b, w);
    LeavingKeepsLinks(b, w);
    ReleasingLeavesOthers(d, r);
    hide MaybeRelease, Linked;
  }

  /** A resumed wait leaves its route, which may go, and ends with what it was told. */
  lemma ResumeIsEnd(b: Book, w: nat)
    requires w in b.waits && b.waits[w].route in b.objs && b.waits[w].phase.Woken?
    ensures var r, d := b.waits[w].route, LeaveWaiters(b, w);
            && r in d.objs && d.waits == b.waits && d.claims == b.claims && d.objs[r].drained == b.objs[r].drained
            && var e := if b.waits[w].phase.outcome == None && b.objs[r].error == None then MaybeRelease(d, r) else d;
            w in e.waits && e.claims == b.claims &&
            ResumeWait(b, w) == e.(waits := e.waits[w := e.waits[w].(phase := Ended(Told(b, w)))])
  {
    MaybeReleaseKeepsSettled(LeaveWaiters(b, w), b.waits[w].route, w);
    hide Settled;
  }

  lemma DrainedWhenTold(b: Book, w: nat, carrier: map<nat, nat>)
    requires Inv(b, carrier) && w in b.waits
    ensures b.waits[w].route in b.objs && (b.waits[w].phase == Woken(None) ==> b.objs[b.waits[w].route].drained)
  {
    hide TablesFit, RoutesFit, RoutesCarried, PagesFit, ClaimsFit;
    assert WaitFits(w, b.waits[w], b.objs[b.waits[w].route], b.claims);
  }

  lemma LeavingKeepsLinks(b: Book, w: nat)
    requires Linked(b) && w in b.waits && b.waits[w].route in b.objs
    ensures Linked(LeaveWaiters(b, w)) && OnlyRoute(b, LeaveWaiters(b, w), b.waits[w].route)
  {
  }

  /** A cancelled wait ends as interrupted and leaves its route; nothing else changes. */
  lemma CancelAnswers(b: Book, w: nat)
    requires Known(b) && Enabled(b, CancelWait(w))
    ensures var c, r := Step(b, CancelWait(w)), b.waits[w].route;
            c == b.(waits := b.waits[w := b.waits[w].(phase := Ended(Interrupted))],
                    objs := b.objs[r := b.objs[r].(waiters := b.objs[r].waiters - {w})])
  {
  }

  /** Main result: committing a live stage touches its own route and the one it replaces, and
      no other; the replaced one is gone with an error. */
  lemma CommitLeavesOthers(b: Book, r: nat)
    requires Sound(b) && r in b.stages
    ensures r in b.objs && CommittedAlone(b, CommitStage(b, r), r)
  {
    SoundIsLinked(b);
    LiveStageIsReady(b, r);
    CommitIsReplacing(b, r);
    StageIsLive(b, r);
    var e := Replacing(b, r);
    ReplacingRoutes(b, r);
    ReplacingTells(b, r);
    if b.objs[r].drained {
      NobodyParked(b, r, e);
    }
    InstalledGoes(e, r);
    InstalledAlone(b, e, r);
    hide Sound, MaybeRelease, CommitStage, Replacing, ParkedAreListed, StageReady, AllTold, Linked, Tabled, OnlyRoutes, CommittedAlone;
  }

  /** What a commit does to the routes: the stage's own, the replaced one, and all others. */
  ghost predicate CommittedAlone(b: Book, c: Book, r: nat)
    requires r in b.objs
  {
    var key := b.objs[r].key;
    && OnlyRoutes(b, c, {r} + if key in b.routes then {b.routes[key]} else {})
    && r !in c.stages && r in c.objs
    && c.objs[r] == b.objs[r].(staged := false, stageClosed := true, waiters := c.objs[r].waiters) && c.objs[r].error == None
    && (Tabled(c, r) <==> !b.objs[r].drained || b.objs[r].claims != {})
    && (key in b.routes ==>
          var q := b.routes[key];
          q in b.objs && q in c.objs && q !in c.stages && !Tabled(c, q) && c.objs[q] == b.objs[q].(error := Some(Replaced), waiters := {}))
  }

  lemma InstalledAlone(b: Book, e: Book, r: nat)
    requires Linked(b) && r in b.objs && r in e.objs && r !in e.stages && b.objs[r].error == None
    requires e.objs[r] == b.objs[r].(staged := false, stageClosed := true)
    requires b.objs[r].key in b.routes ==> b.routes[b.objs[r].key] != r
    requires OnlyRoutes(b, e, {r} + if b.objs[r].key in b.routes then {b.routes[b.objs[r].key]} else {})
    requires b.objs[r].key in b.routes ==>
               var q := b.routes[b.objs[r].key];
               q in e.objs && q !in e.stages && !Tabled(e, q) && e.objs[q] == b.objs[q].(error := Some(Replaced), waiters := {})
    requires var c := MaybeRelease(e, r);
             && r in c.objs && c.stages == e.stages && c.objs == e.objs[r := c.objs[r]]
             && c.objs[r] == e.objs[r].(waiters := c.objs[r].waiters)
             && (Tabled(c, r) <==> !e.objs[r].drained || e.objs[r].claims != {})
             && (forall x :: x in e.objs && x != r ==> SameRoute(e, c, x))
    ensures CommittedAlone(b, MaybeRelease(e, r), r)
  {
    hide MaybeRelease;
    var c, key := MaybeRelease(e, r), b.objs[r].key;
    var rs := {r} + if key in b.routes then {b.routes[key]} else {};
    assert OnlyRoutes(b, c, rs) by {
      assert forall x :: x in b.objs && x !in rs ==> SameRoute(b, e, x) && SameRoute(e, c, x);
    }
    if key in b.routes {
      assert SameRoute(e, c, b.routes[key]);
    }
  }

  lemma StageIsLive(b: Book, r: nat)
    requires Sound(b) && r in b.stages
    ensures r in b.objs && b.objs[r].error == None && b.objs[r].staged && !b.objs[r].stageClosed
  {
    var carrier :| Inv(b, carrier);
    assert TablesFit(b);
  }

  /** No other route than these changes. */
  ghost predicate OnlyRoutes(b: Book, c: Book, rs: set<nat>) {
    forall x :: x in b.objs && x !in rs ==> SameRoute(b, c, x)
  }

  lemma OnlyThrice(b: Book, c: Book, d: Book, e: Book, rs: set<nat>)
    requires OnlyRoutes(b, c, rs) && OnlyRoutes(c, d, rs) && OnlyRoutes(d, e, rs)
    ensures OnlyRoutes(b, e, rs)
  {
    assert forall x :: x in b.objs && x !in rs ==> SameRoute(b, c, x) && SameRoute(c, d, x) && SameRoute(d, e, x);
  }

  /** The routes of the book in which the replacement is visible and may not yet go. */
  lemma ReplacingRoutes(b: Book, r: nat)
    requires Linked(b) && r in b.stages && r in b.objs && forall x :: x in b.stages ==> !Tabled(b, x)
    ensures var key, e := b.objs[r].key, Replacing(b, r);
            && Linked(e) && r in e.objs && r !in e.stages && key in e.routes && e.routes[key] == r
            && e.objs[r] == b.objs[r].(staged := false, stageClosed := true)
            && OnlyRoutes(b, e, {r} + if key in b.routes then {b.routes[key]} else {})
            && (key in b.routes ==>
                  var q := b.routes[key];
                  q in e.objs && q !in e.stages && !Tabled(e, q) && e.objs[q] == b.objs[q].(error := Some(Replaced), waiters := {}))
  {
    var c := StageTaken(b, r);
    if b.objs[r].key in b.routes {
      TableIsOther(b, r);
      ReplacingOne(b, c, r, b.routes[b.objs[r].key]);
    } else {
      KeepsAll(c, {r});
      Installs(c, r);
      OnlyThrice(b, c, c, Replacing(b, r), {r});
      hide CloseStages, Linked, SameRoute, OnlyRoutes, Tabled, Retire;
      assert {r} + {} == {r};
    }
  }

  lemma ReplacingOne(b: Book, c: Book, r: nat, q: nat)
    requires r in b.objs && r in c.objs && q in c.objs && q != r && b.objs[r].key in b.routes && b.routes[b.objs[r].key] == q
    requires c == CloseStages(b, {r}).(stages := b.stages - {r}) && c.objs == b.objs[r := b.objs[r].(stageClosed := true)]
    requires Linked(c) && c.routes == b.routes && r !in c.stages && q !in c.stages && !Tabled(c, r) && OnlyRoutes(b, c, {r, q})
    ensures var key, e := b.objs[r].key, Replacing(b, r);
            && Linked(e) && r in e.objs && r !in e.stages && key in e.routes && e.routes[key] == r
            && e.objs[r] == b.objs[r].(staged := false, stageClosed := true)
            && OnlyRoutes(b, e, {r} + {q})
            && q in e.objs && q !in e.stages && !Tabled(e, q) && e.objs[q] == b.objs[q].(error := Some(Replaced), waiters := {})
  {
    OneFailed(c, r, q);
    var d := FailRoute(c, q, Replaced);
    Installs(d, r);
    assert {r} + {q} == {r, q};
    assert Replacing(b, r) == d.(objs := d.objs[r := d.objs[r].(staged := false)], routes := d.routes[b.objs[r].key := r]);
    hide CloseStages, Linked, SameRoute, OnlyRoutes, Tabled, FailRoute, Replacing;
    OnlyThrice(b, c, d, Replacing(b, r), {r, q});
  }

  lemma KeepsAll(b: Book, rs: set<nat>)
    ensures OnlyRoutes(b, b, rs)
  {
  }

  lemma TableIsOther(b: Book, r: nat)
    requires Linked(b) && r in b.stages && r in b.objs && b.objs[r].key in b.routes && forall x :: x in b.stages ==> !Tabled(b, x)
    ensures b.routes[b.objs[r].key] in b.objs && b.routes[b.objs[r].key] != r && b.routes[b.objs[r].key] !in b.stages
  {
    assert Tabled(b, b.routes[b.objs[r].key]);
  }

  /** The stage is closed and out of the set. */
  lemma StageTaken(b: Book, r: nat) returns (c: Book)
    requires Linked(b) && r in b.stages && r in b.objs && forall x :: x in b.stages ==> !Tabled(b, x)
    ensures c == CloseStages(b, {r}).(stages := b.stages - {r})
    ensures Linked(c) && c.routes == b.routes && c.stages == b.stages - {r} && r in c.objs
    ensures c.objs == b.objs[r := b.objs[r].(stageClosed := true)] && OnlyRoutes(b, c, {r})
    ensures forall rs :: r in rs ==> OnlyRoutes(b, c, rs)
    ensures !Tabled(c, r) && forall x :: x in c.stages ==> !Tabled(c, x)
  {
    c := CloseStages(b, {r}).(stages := b.stages - {r});
  }

  lemma OneFailed(c: Book, r: nat, q: nat)
    requires Linked(c) && r in c.objs && q in c.objs && q != r && q !in c.stages && r !in c.stages && !Tabled(c, r)
    requires c.objs[r].key in c.routes && c.routes[c.objs[r].key] == q
    ensures var d := FailRoute(c, q, Replaced);
            && Linked(d) && r in d.objs && d.objs[r] == c.objs[r] && r !in d.stages && !Tabled(d, r)
            && c.objs[r].key !in d.routes
            && q in d.objs && q !in d.stages && !Tabled(d, q) && d.objs[q] == c.objs[q].(error := Some(Replaced), waiters := {})
            && OnlyRoutes(c, d, {r, q})
  {
    RetireRoutes(c, {q}, Replaced);
    assert SameRoute(c, FailRoute(c, q, Replaced), r);
  }

  lemma Installs(d: Book, r: nat)
    requires Linked(d) && r in d.objs && r !in d.stages && !Tabled(d, r) && d.objs[r].key !in d.routes
    ensures var e := d.(objs := d.objs[r := d.objs[r].(staged := false)], routes := d.routes[d.objs[r].key := r]);
            && Linked(e) && (forall rs :: r in rs ==> OnlyRoutes(d, e, rs))
            && (forall x :: x != r && !Tabled(d, x) ==> !Tabled(e, x))
  {
    LinksInstall(d, r);
  }

  /** A visible replacement stays or goes by itself. */
  lemma InstalledGoes(e: Book, r: nat)
    requires Linked(e) && r in e.objs && r !in e.stages && InTable(e, r) && !e.objs[r].staged
    requires e.objs[r].drained ==> forall w :: w in e.waits && e.waits[w].route == r ==> e.waits[w].phase != Parked
    ensures var c := MaybeRelease(e, r);
            && r in c.objs && c.stages == e.stages && c.objs == e.objs[r := c.objs[r]]
            && c.objs[r] == e.objs[r].(waiters := c.objs[r].waiters)
            && (Tabled(c, r) <==> !e.objs[r].drained || e.objs[r].claims != {})
            && (forall x :: x in e.objs && x != r ==> SameRoute(e, c, x))
  {
    ReleasingLeavesOthers(e, r);
    ReleasedQuietly(e, r);
  }
}
