/** Active control routes: which connection gets the final output of an input, and who
    waits until that output has really been written.

    Routes, claims and waits refer to each other, so they are objects named by numbers.
    A stage is created together with its route and never outlives it; one number names
    both.  Every stretch of code between two awaits is one step. */
module FrameBook {
  import opened Wrappers

  datatype Key = Key(session: string, input: string)

  datatype Failure = NoOutput | Replaced | StageAborted | Released | Given(tag: string)

  datatype Route = Route(
    key: Key,
    conn: string,
    expected: Option<string>,
    resolved: Option<string>,
    written: Option<nat>,
    due: bool,
    drained: bool,
    error: Option<Failure>,
    waiters: set<nat>,
    claims: set<nat>,
    staged: bool,
    stageClosed: bool)

  datatype Claim = Claim(route: nat, call: string, ending: Option<string>, closed: bool)

  /** What a wait is for: one message, or the ending of a claim. */
  datatype Wants = Output(message: string) | Ending(claim: nat)

  datatype Answer = Delivered | Failed(failure: Failure) | Mismatch | Unresolved | Interrupted

  datatype Phase = Parked | Woken(outcome: Option<Failure>) | Ended(answer: Answer)

  datatype Wait = Wait(route: nat, wants: Wants, phase: Phase)

  datatype Status = Fresh | Attached | Written | Broken

  /** One message page: its complete outputs, and the routes it carries an ending for. */
  datatype Page = Page(conn: string, complete: set<(string, string)>, tracked: map<nat, string>, status: Status)

  datatype Book = Book(
    objs: map<nat, Route>,
    routes: map<Key, nat>,
    stages: set<nat>,
    claims: map<nat, Claim>,
    index: map<(string, string), nat>,
    waits: map<nat, Wait>,
    pages: map<nat, Page>,
    closed: bool)

  const EMPTY := Book(map[], map[], {}, map[], map[], map[], map[], false)

  predicate InTable(b: Book, r: nat)
    requires r in b.objs
  {
    b.objs[r].key in b.routes && b.routes[b.objs[r].key] == r
  }

  predicate Homed(b: Book, r: nat)
    requires r in b.objs
  {
    InTable(b, r) || r in b.stages
  }

  // ---------------------------------------------------------------------------
  // Sections
  // ---------------------------------------------------------------------------

  function NewRoute(key: Key, conn: string, staged: bool): Route {
    Route(key, conn, None, None, None, false, false, None, {}, {}, staged, false)
  }

  /** Keeps the first owner of a key. */
  function RouteInput(b: Book, key: Key, conn: string, r: nat): Book {
    if b.closed || key in b.routes then b
    else b.(objs := b.objs[r := NewRoute(key, conn, false)], routes := b.routes[key := r])
  }

  function StageInput(b: Book, key: Key, conn: string, r: nat): Book {
    if b.closed then b
    else b.(objs := b.objs[r := NewRoute(key, conn, true)], stages := b.stages + {r})
  }

  /** Settles every unsettled wait registered with one of the routes. */
  function Settled(objs: map<nat, Route>, waits: map<nat, Wait>, rs: set<nat>, outcome: Option<Failure>): map<nat, Wait> {
    map w | w in waits ::
      if waits[w].phase == Parked && waits[w].route in rs && waits[w].route in objs && w in objs[waits[w].route].waiters
      then waits[w].(phase := Woken(outcome)) else waits[w]
  }

  function Retired(objs: map<nat, Route>, rs: set<nat>, error: Option<Failure>): map<nat, Route> {
    map r | r in objs :: if r in rs then objs[r].(error := error, waiters := {}) else objs[r]
  }

  function Unlisted(routes: map<Key, nat>, rs: set<nat>): map<Key, nat> {
    map k | k in routes && routes[k] !in rs :: routes[k]
  }

  /** What the waiters of a retired route are told. */
  function Verdict(error: Option<Failure>): Option<Failure> {
    Some(if error == None then Released else error.value)
  }

  /** Takes routes out of the table and the stages, and tells everyone who waits. */
  function Retire(b: Book, rs: set<nat>, error: Option<Failure>): (c: Book)
    ensures c.claims == b.claims && c.index == b.index && c.pages == b.pages && c.closed == b.closed
    ensures c.objs == Retired(b.objs, rs, error)
  {
    b.(routes := Unlisted(b.routes, rs),
       stages := b.stages - rs,
       objs := Retired(b.objs, rs, error),
       waits := Settled(b.objs, b.waits, rs, Verdict(error)))
  }

  function FailRoute(b: Book, r: nat, failure: Failure): Book {
    Retire(b, {r}, Some(failure))
  }

  function ReleaseRoute(b: Book, r: nat): Book
    requires r in b.objs
  {
    var o := b.objs[r];
    Retire(b, {r}, if o.error == None && !o.drained then Some(NoOutput) else o.error)
  }

  function MaybeRelease(b: Book, r: nat): Book
    requires r in b.objs
  {
    var o := b.objs[r];
    if o.staged || !o.drained || o.claims != {} || !InTable(b, r) then b else ReleaseRoute(b, r)
  }

  /** Fixes the ending of a route and of its claims. */
  function Bind(b: Book, r: nat, ending: string): (c: Book)
    requires r in b.objs
    ensures c == b.(objs := c.objs, claims := c.claims)
    ensures c.objs == b.objs[r := b.objs[r].(expected := Some(ending), resolved := Some(ending))]
  {
    b.(objs := b.objs[r := b.objs[r].(expected := Some(ending), resolved := Some(ending))],
       claims := map c | c in b.claims ::
         if c in b.objs[r].claims then b.claims[c].(ending := Some(ending)) else b.claims[c])
  }

  /** A page concerns a route of its connection whose resolver names a complete output. */
  predicate Concerns(o: Route, conn: string, complete: set<(string, string)>, endings: map<nat, string>, r: nat) {
    o.conn == conn && r in endings && (o.key.session, endings[r]) in complete
  }

  /** Goes through the routes in order and stops at the first with a second ending; the
      routes before it stay bound. */
  function ResolveRoutes(b: Book, conn: string, complete: set<(string, string)>, endings: map<nat, string>,
                         order: seq<nat>, tracked: map<nat, string>): (Book, Option<map<nat, string>>)
    requires forall i :: 0 <= i < |order| ==> order[i] in b.objs
    decreases |order|
  {
    if order == [] then (b, Some(tracked))
    else
      var r := order[0];
      if !Concerns(b.objs[r], conn, complete, endings, r) then
        ResolveRoutes(b, conn, complete, endings, order[1..], tracked)
      else if b.objs[r].expected != None && b.objs[r].expected != Some(endings[r]) then (b, None)
      else ResolveRoutes(Bind(b, r, endings[r]), conn, complete, endings, order[1..], tracked[r := endings[r]])
  }

  function ResolvePage(b: Book, p: nat, conn: string, complete: set<(string, string)>, endings: map<nat, string>,
                       order: seq<nat>): Book
    requires forall i :: 0 <= i < |order| ==> order[i] in b.objs
  {
    var (c, tracked) := ResolveRoutes(b, conn, complete, endings, order, map[]);
    if tracked == None then c else c.(pages := c.pages[p := Page(conn, complete, tracked.value, Fresh)])
  }

  function AttachPage(b: Book, p: nat): Book
    requires p in b.pages
  {
    b.(pages := b.pages[p := b.pages[p].(status := Attached)],
       objs := map r | r in b.objs ::
         if r in b.pages[p].tracked && b.objs[r].written == None && !b.objs[r].drained
         then b.objs[r].(written := Some(p), due := true) else b.objs[r])
  }

  /** The write of a page has settled and a route's callback runs. */
  function FrameDone(b: Book, r: nat): Book
    requires r in b.objs && b.objs[r].written != None && b.objs[r].written.value in b.pages
  {
    var c := b.(objs := b.objs[r := b.objs[r].(due := false)]);
    if b.pages[b.objs[r].written.value].status == Broken then FailRoute(c, r, Given("write failed"))
    else
      var d := c.(objs := c.objs[r := c.objs[r].(written := None, drained := true)]);
      MaybeRelease(d.(waits := Settled(d.objs, d.waits, {r}, None)), r)
  }

  /** How a wait ends once its route is drained. */
  function Final(b: Book, wants: Wants): Answer {
    match wants
    case Output(_) => Delivered
    case Ending(c) => if c in b.claims && b.claims[c].ending == None then Unresolved else Delivered
  }

  /** Parks a wait unless its route is already decided. */
  function EnterWait(b: Book, w: nat, r: nat, wants: Wants): Book
    requires r in b.objs
  {
    var o := b.objs[r];
    if o.error != None then b.(waits := b.waits[w := Wait(r, wants, Ended(Failed(o.error.value)))])
    else if o.drained then b.(waits := b.waits[w := Wait(r, wants, Ended(Final(b, wants)))])
    else b.(waits := b.waits[w := Wait(r, wants, Parked)], objs := b.objs[r := o.(waiters := o.waiters + {w})])
  }

  function WaitOutput(b: Book, w: nat, r: nat, message: string): Book
    requires r in b.objs
  {
    if b.objs[r].expected != None && b.objs[r].expected != Some(message) then
      b.(waits := b.waits[w := Wait(r, Output(message), Ended(Mismatch))])
    else
      EnterWait(b.(objs := b.objs[r := b.objs[r].(expected := Some(message))]), w, r, Output(message))
  }

  function WaitClaim(b: Book, w: nat, c: nat): Book
    requires c in b.claims && b.claims[c].route in b.objs
  {
    if b.claims[c].closed then
      b.(waits := b.waits[w := Wait(b.claims[c].route, Ending(c), Ended(Failed(Released)))])
    else EnterWait(b, w, b.claims[c].route, Ending(c))
  }

  function LeaveWaiters(b: Book, w: nat): Book
    requires w in b.waits && b.waits[w].route in b.objs
  {
    var r := b.waits[w].route;
    b.(objs := b.objs[r := b.objs[r].(waiters := b.objs[r].waiters - {w})])
  }

  function EndWait(b: Book, w: nat, answer: Answer): Book
    requires w in b.waits
  {
    b.(waits := b.waits[w := b.waits[w].(phase := Ended(answer))])
  }

  function ResumeWait(b: Book, w: nat): Book
    requires w in b.waits && b.waits[w].route in b.objs && b.waits[w].phase.Woken?
  {
    var c := LeaveWaiters(b, w);
    var r, failure := b.waits[w].route, b.waits[w].phase.outcome;
    if failure != None then EndWait(c, w, Failed(failure.value))
    else if b.objs[r].error != None then EndWait(c, w, Failed(b.objs[r].error.value))
    else EndWait(MaybeRelease(c, r), w, Final(b, b.waits[w].wants))
  }

  function ReleaseInput(b: Book, key: Key): Book
    requires key in b.routes ==> b.routes[key] in b.objs
  {
    if key in b.routes && b.objs[b.routes[key]].claims == {} then ReleaseRoute(b, b.routes[key]) else b
  }

  function SettleInput(b: Book, key: Key, failure: Option<Failure>): Book
    requires key in b.routes ==> b.routes[key] in b.objs
  {
    if key !in b.routes then b
    else if b.objs[b.routes[key]].claims == {} then ReleaseRoute(b, b.routes[key])
    else if failure != None then FailRoute(b, b.routes[key], failure.value)
    else b
  }

  function ArmClaim(b: Book, key: Key, call: string, c: nat): Book
    requires key in b.routes ==> b.routes[key] in b.objs
  {
    if key !in b.routes then b
    else
      var r, at := b.routes[key], (key.session, call);
      if at in b.index && b.index[at] in b.claims && !b.claims[b.index[at]].closed then b
      else
        b.(claims := b.claims[c := Claim(r, call, b.objs[r].resolved, false)],
           index := b.index[at := c],
           objs := b.objs[r := b.objs[r].(claims := b.objs[r].claims + {c})])
  }

  /** A claim is consumed or aborted. */
  function CloseClaim(b: Book, c: nat): Book
    requires c in b.claims && b.claims[c].route in b.objs
  {
    if b.claims[c].closed then b
    else
      var r := b.claims[c].route;
      var at := (b.objs[r].key.session, b.claims[c].call);
      MaybeRelease(
        b.(claims := b.claims[c := b.claims[c].(closed := true)],
           objs := b.objs[r := b.objs[r].(claims := b.objs[r].claims - {c})],
           index := if at in b.index && b.index[at] == c then b.index - {at} else b.index),
        r)
  }

  function CloseStages(b: Book, rs: set<nat>): Book {
    b.(objs := map r | r in b.objs :: if r in rs then b.objs[r].(stageClosed := true) else b.objs[r])
  }

  /** The replacement becomes visible and the old route is told. */
  function CommitStage(b: Book, r: nat): Book
    requires r in b.objs
  {
    if b.objs[r].stageClosed || !b.objs[r].staged then b
    else
      var c := CloseStages(b, {r}).(stages := b.stages - {r});
      var key := b.objs[r].key;
      var d := if key in c.routes && c.routes[key] in c.objs then FailRoute(c, c.routes[key], Replaced) else c;
      MaybeRelease(d.(objs := d.objs[r := d.objs[r].(staged := false)], routes := d.routes[key := r]), r)
  }

  function AbortStages(b: Book, rs: set<nat>): Book {
    Retire(CloseStages(b, rs), rs, Some(StageAborted))
  }

  function AbortStage(b: Book, r: nat): Book
    requires r in b.objs
  {
    if b.objs[r].stageClosed || !b.objs[r].staged then b else AbortStages(b, {r})
  }

  /** The routes a disconnect or the end of the book concerns. */
  function RoutesOf(b: Book, conn: Option<string>): set<nat> {
    set r | r in b.objs && InTable(b, r) && (conn == None || conn == Some(b.objs[r].conn))
  }

  function StagesOf(b: Book, conn: Option<string>): set<nat> {
    set r | r in b.stages && r in b.objs && (conn == None || conn == Some(b.objs[r].conn))
  }

  function FailAll(b: Book, conn: Option<string>, failure: Failure): Book {
    var c := Retire(b, RoutesOf(b, conn), Some(failure));
    AbortStages(c, StagesOf(c, conn))
  }

  // ---------------------------------------------------------------------------
  // The book object
  // ---------------------------------------------------------------------------

  /** Registered waiters are waits of that route. */
  ghost predicate Linked(b: Book) {
    && (forall r, w :: r in b.objs && w in b.objs[r].waiters ==> w in b.waits && b.waits[w].route == r)
    && (forall k :: k in b.routes ==> b.routes[k] in b.objs && b.objs[b.routes[k]].key == k)
    && (forall r :: r in b.stages ==> r in b.objs && b.objs[r].staged)
  }

  class ControlFrameBook {
    var objs: map<nat, Route>
    var routes: map<Key, nat>
    var stages: set<nat>
    var claims: map<nat, Claim>
    var index: map<(string, string), nat>
    var waits: map<nat, Wait>
    var pages: map<nat, Page>
    var closed: bool

    function View(): Book
      reads this
    {
      Book(objs, routes, stages, claims, index, waits, pages, closed)
    }

    constructor ()
      ensures View() == EMPTY
    {
      objs, routes, stages, claims, index := map[], map[], {}, map[], map[];
      waits, pages, closed := map[], map[], false;
    }

    method AddRoute(key: Key, conn: string, r: nat)
      modifies this
      ensures View() == RouteInput(old(View()), key, conn, r)
    {
      if closed || key in routes {
        return;
      }
      objs := objs[r := NewRoute(key, conn, false)];
      routes := routes[key := r];
    }

    /** Wakes the unsettled waiters of one route. */
    method Wake(r: nat, outcome: Option<Failure>)
      requires r in objs && forall w :: w in objs[r].waiters ==> w in waits && waits[w].route == r
      modifies this`waits
      ensures waits == Settled(objs, old(waits), {r}, outcome)
    {
      var rest := objs[r].waiters;
      while rest != {}
        invariant rest <= objs[r].waiters
        invariant waits == map w | w in old(waits) ::
            if old(waits[w]).phase == Parked && w in objs[r].waiters && w !in rest
            then old(waits[w]).(phase := Woken(outcome)) else old(waits[w])
        decreases rest
      {
        var w :| w in rest;
        if waits[w].phase == Parked {
          waits := waits[w := waits[w].(phase := Woken(outcome))];
        }
        rest := rest - {w};
      }
    }

    method Fail(r: nat, failure: Failure)
      requires r in objs && Linked(View())
      modifies this
      ensures View() == FailRoute(old(View()), r, failure)
    {
      var key := objs[r].key;
      if key in routes && routes[key] == r {
        routes := routes - {key};
      }
      stages := stages - {r};
      UnlistOne(old(View()), r);
      Wake(r, Some(failure));
      RetireOne(objs, r, Some(failure));
      hide Unlisted, Settled, Retired, Linked;
      objs := objs[r := objs[r].(error := Some(failure), waiters := {})];
    }

    method Release(r: nat)
      requires r in objs && InTable(View(), r) && r !in stages && Linked(View())
      modifies this
      ensures View() == ReleaseRoute(old(View()), r)
    {
      var o := objs[r];
      routes := routes - {o.key};
      var error := if o.error == None && !o.drained then Some(NoOutput) else o.error;
      UnlistOne(old(View()), r);
      Wake(r, Verdict(error));
      RetireOne(objs, r, error);
      hide Unlisted, Settled, Retired, Linked;
      objs := objs[r := o.(error := error, waiters := {})];
    }

    /** Refuses a second ending by returning false; routes before it stay bound. */
    method Resolve(p: nat, conn: string, complete: set<(string, string)>, endings: map<nat, string>, order: seq<nat>)
      returns (ok: bool)
      requires forall i :: 0 <= i < |order| ==> order[i] in objs
      modifies this
      ensures View() == ResolvePage(old(View()), p, conn, complete, endings, order)
    {
      var i, tracked := 0, map[];
      while i < |order|
        invariant i <= |order| && (forall j :: 0 <= j < |order| ==> order[j] in objs)
        invariant ResolveRoutes(View(), conn, complete, endings, order[i..], tracked)
               == ResolveRoutes(old(View()), conn, complete, endings, order, map[])
      {
        var r := order[i];
        if Concerns(objs[r], conn, complete, endings, r) {
          var ending := endings[r];
          if objs[r].expected != None && objs[r].expected != Some(ending) {
            return false;
          }
          claims := map c | c in claims ::
            if c in objs[r].claims then claims[c].(ending := Some(ending)) else claims[c];
          objs := objs[r := objs[r].(expected := Some(ending), resolved := Some(ending))];
          tracked := tracked[r := ending];
        }
        i := i + 1;
      }
      pages := pages[p := Page(conn, complete, tracked, Fresh)];
      ok := true;
    }

    method Attach(p: nat)
      requires p in pages
      modifies this
      ensures View() == AttachPage(old(View()), p)
    {
      var rest := pages[p].tracked.Keys;
      while rest != {}
        invariant p in pages && View() == old(View()).(objs := objs)
        invariant objs == map r | r in old(objs) ::
            if r in pages[p].tracked && r !in rest && old(objs[r]).written == None && !old(objs[r]).drained
            then old(objs[r]).(written := Some(p), due := true) else old(objs[r])
        invariant rest <= pages[p].tracked.Keys
        decreases rest
      {
        var r :| r in rest;
        if r in objs && objs[r].written == None && !objs[r].drained {
          objs := objs[r := objs[r].(written := Some(p), due := true)];
        }
        rest := rest - {r};
      }
      pages := pages[p := pages[p].(status := Attached)];
      assert objs == AttachPage(old(View()), p).objs;
    }

    method ReleaseIfDone(r: nat)
      requires r in objs && Linked(View())
      modifies this
      ensures View() == MaybeRelease(old(View()), r)
    {
      hide Retire;
      var o := objs[r];
      if !o.staged && o.drained && o.claims == {} && o.key in routes && routes[o.key] == r {
        Release(r);
      }
    }

    method Done(r: nat)
      requires r in objs && objs[r].written != None && objs[r].written.value in pages
      requires Linked(View())
      modifies this
      ensures View() == FrameDone(old(View()), r)
    {
      hide Retire, Settled, MaybeRelease;
      var p := objs[r].written.value;
      LinksSurvive(View(), r, objs[r].(due := false), waits);
      WaitersKnown(View(), r);
      objs := objs[r := objs[r].(due := false)];
      if pages[p].status == Broken {
        hide Linked;
        Fail(r, Given("write failed"));
        return;
      }
      LinksSurvive(View(), r, objs[r].(written := None, drained := true), waits);
      hide Linked;
      objs := objs[r := objs[r].(written := None, drained := true)];
      ghost var before := View();
      Wake(r, None);
      SettledKeepsRoutes(objs, before.waits, {r}, None);
      LinksSurvive(before, r, objs[r], waits);
      assert objs[r := objs[r]] == objs;
      ReleaseIfDone(r);
    }

    /** The part of a wait before it may park. */
    method AwaitOutput(w: nat, r: nat, message: string)
      requires r in objs
      modifies this
      ensures View() == WaitOutput(old(View()), w, r, message)
    {
      if objs[r].expected != None && objs[r].expected != Some(message) {
        waits := waits[w := Wait(r, Output(message), Ended(Mismatch))];
        return;
      }
      objs := objs[r := objs[r].(expected := Some(message))];
      var o := objs[r];
      if o.error != None {
        waits := waits[w := Wait(r, Output(message), Ended(Failed(o.error.value)))];
      } else if o.drained {
        waits := waits[w := Wait(r, Output(message), Ended(Delivered))];
      } else {
        waits := waits[w := Wait(r, Output(message), Parked)];
        objs := objs[r := o.(waiters := o.waiters + {w})];
      }
    }

    method Arm(key: Key, call: string, c: nat)
      requires key in routes ==> routes[key] in objs
      modifies this
      ensures View() == ArmClaim(old(View()), key, call, c)
    {
      if key !in routes {
        return;
      }
      var r, at := routes[key], (key.session, call);
      if at in index && index[at] in claims && !claims[index[at]].closed {
        return;
      }
      claims := claims[c := Claim(r, call, objs[r].resolved, false)];
      index := index[at := c];
      objs := objs[r := objs[r].(claims := objs[r].claims + {c})];
    }

    method EndClaim(c: nat)
      requires c in claims && claims[c].route in objs && Linked(View())
      modifies this
      ensures View() == CloseClaim(old(View()), c)
    {
      hide MaybeRelease;
      if claims[c].closed {
        return;
      }
      var r := claims[c].route;
      var at := (objs[r].key.session, claims[c].call);
      LinksSurvive(View(), r, objs[r].(claims := objs[r].claims - {c}), waits);
      hide Linked;
      claims := claims[c := claims[c].(closed := true)];
      objs := objs[r := objs[r].(claims := objs[r].claims - {c})];
      if at in index && index[at] == c {
        index := index - {at};
      }
      LinksIgnoreClaims(old(View()).(objs := objs), View());
      ReleaseIfDone(r);
    }

    method Commit(r: nat)
      requires r in objs && Linked(View())
      modifies this
      ensures View() == CommitStage(old(View()), r)
    {
      hide MaybeRelease, Retire;
      if objs[r].stageClosed || !objs[r].staged {
        return;
      }
      CloseOne(View(), r);
      LinksSurvive(View(), r, objs[r].(stageClosed := true), waits);
      LinksLoseStage(View().(objs := objs[r := objs[r].(stageClosed := true)]), r);
      objs := objs[r := objs[r].(stageClosed := true)];
      stages := stages - {r};
      hide CloseStages;
      var key := objs[r].key;
      if key in routes && routes[key] in objs {
        RetireKeepsLinks(View(), {routes[key]}, Some(Replaced));
        RetireKeepsRoute(View(), routes[key], r, Some(Replaced));
        Fail(routes[key], Replaced);
      }
      LinksInstall(View(), r);
      hide Linked;
      objs := objs[r := objs[r].(staged := false)];
      routes := routes[key := r];
      ReleaseIfDone(r);
    }

    method FailTable(conn: Option<string>, failure: Failure)
      requires Linked(View())
      modifies this
      ensures Linked(View())
      ensures View() == Retire(old(View()), RoutesOf(old(View()), conn), Some(failure))
    {
      var todo := RoutesOf(View(), conn);
      ghost var before, done := View(), {};
      RetireNothing(before, Some(failure));
      RoutesKnown(before, conn, done, Some(failure));
      hide Linked, Retire, RoutesOf;
      while todo != {}
        invariant todo !! done && done + todo == RoutesOf(before, conn) && Linked(View())
        invariant View() == Retire(before, done, Some(failure))
        decreases todo
      {
        var r :| r in todo;
        RoutesKnown(before, conn, done, Some(failure));
        RetireOneMore(before, done, r, Some(failure));
        RetireKeepsLinks(View(), {r}, Some(failure));
        Fail(r, failure);
        todo, done := todo - {r}, done + {r};
      }
    }

    method AbortOne(r: nat)
      requires Linked(View()) && r in objs
      modifies this
      ensures Linked(View())
      ensures View() == Retire(CloseStages(old(View()), {r}), {r}, Some(StageAborted))
    {
      CloseOne(View(), r);
      LinksSurvive(View(), r, objs[r].(stageClosed := true), waits);
      objs := objs[r := objs[r].(stageClosed := true)];
      hide Linked, Retire, CloseStages;
      RetireKeepsLinks(View(), {r}, Some(StageAborted));
      Fail(r, StageAborted);
    }

    method AbortOpenStages(conn: Option<string>)
      requires Linked(View())
      modifies this
      ensures View() == AbortStages(old(View()), StagesOf(old(View()), conn))
    {
      var todo := StagesOf(View(), conn);
      ghost var before, done := View(), {};
      RetireNothing(before, Some(StageAborted));
      assert CloseStages(before, {}) == before;
      StagesKnown(before, conn, {});
      hide Linked, Retire, CloseStages, StagesOf;
      while todo != {}
        invariant todo !! done && done + todo == StagesOf(before, conn) && Linked(View())
        invariant View() == AbortStages(before, done)
        decreases todo
      {
        var r :| r in todo;
        StagesKnown(before, conn, done);
        AbortOneMore(before, done, r);
        AbortOne(r);
        todo, done := todo - {r}, done + {r};
      }
    }

    method FailConnection(conn: string, failure: Failure)
      requires Linked(View())
      modifies this
      ensures View() == FailAll(old(View()), Some(conn), failure)
    {
      FailTable(Some(conn), failure);
      AbortOpenStages(Some(conn));
    }

    method Close(failure: Failure)
      requires Linked(View())
      modifies this
      ensures View() == FailAll(old(View()).(closed := true), None, failure)
    {
      closed := true;
      FailTable(None, failure);
      AbortOpenStages(None);
    }
  }

  lemma UnlistOne(b: Book, r: nat)
    requires Linked(b) && r in b.objs
    ensures Unlisted(b.routes, {r}) == if InTable(b, r) then b.routes - {b.objs[r].key} else b.routes
  {
  }

  lemma RetireOne(objs: map<nat, Route>, r: nat, error: Option<Failure>)
    requires r in objs
    ensures Retired(objs, {r}, error) == objs[r := objs[r].(error := error, waiters := {})]
  {
  }

  lemma RoutesKnown(b: Book, conn: Option<string>, done: set<nat>, error: Option<Failure>)
    ensures RoutesOf(b, conn) <= b.objs.Keys && Retire(b, done, error).objs.Keys == b.objs.Keys
  {
  }

  lemma StagesKnown(b: Book, conn: Option<string>, done: set<nat>)
    ensures StagesOf(b, conn) <= b.objs.Keys && AbortStages(b, done).objs.Keys == b.objs.Keys
  {
  }

  lemma SettledKeepsRoutes(objs: map<nat, Route>, waits: map<nat, Wait>, rs: set<nat>, outcome: Option<Failure>)
    ensures Settled(objs, waits, rs, outcome).Keys == waits.Keys
    ensures forall w :: w in waits ==> Settled(objs, waits, rs, outcome)[w].route == waits[w].route
  {
  }

  lemma LinksIgnoreClaims(b: Book, c: Book)
    requires Linked(b) && c == b.(claims := c.claims, index := c.index)
    ensures Linked(c)
  {
  }

  lemma LinksLoseStage(b: Book, r: nat)
    requires Linked(b)
    ensures Linked(b.(stages := b.stages - {r}))
  {
  }

  lemma RetireKeepsRoute(b: Book, old_: nat, r: nat, error: Option<Failure>)
    requires r in b.objs
    ensures var c := Retire(b, {old_}, error);
            r in c.objs && c.objs[r].key == b.objs[r].key && (r !in b.stages ==> r !in c.stages)
  {
  }

  lemma LinksInstall(b: Book, r: nat)
    requires Linked(b) && r in b.objs && r !in b.stages
    ensures Linked(b.(objs := b.objs[r := b.objs[r].(staged := false)], routes := b.routes[b.objs[r].key := r]))
  {
  }

  lemma WaitersKnown(b: Book, r: nat)
    requires Linked(b) && r in b.objs
    ensures forall w :: w in b.objs[r].waiters ==> w in b.waits && b.waits[w].route == r
  {
  }

  lemma LinksSurvive(b: Book, r: nat, o: Route, waits: map<nat, Wait>)
    requires Linked(b) && r in b.objs && o.key == b.objs[r].key && o.waiters == b.objs[r].waiters
    requires o.staged == b.objs[r].staged
    requires waits.Keys == b.waits.Keys && forall w :: w in waits ==> waits[w].route == b.waits[w].route
    ensures Linked(b.(objs := b.objs[r := o], waits := waits))
  {
  }

  lemma CloseOne(b: Book, r: nat)
    requires r in b.objs
    ensures CloseStages(b, {r}) == b.(objs := b.objs[r := b.objs[r].(stageClosed := true)])
  {
  }

  lemma RetireNothing(b: Book, error: Option<Failure>)
    ensures Retire(b, {}, error) == b
  {
    var c := Retire(b, {}, error);
    assert c.waits == b.waits && c.objs == b.objs && c.routes == b.routes;
  }

  lemma RetireOneMore(b: Book, rs: set<nat>, r: nat, error: Option<Failure>)
    requires error != None && r !in rs
    ensures Retire(Retire(b, rs, error), {r}, error) == Retire(b, rs + {r}, error)
  {
    assert Unlisted(Unlisted(b.routes, rs), {r}) == Unlisted(b.routes, rs + {r});
    assert Retired(Retired(b.objs, rs, error), {r}, error) == Retired(b.objs, rs + {r}, error);
    SettleOneMore(b.objs, Retired(b.objs, rs, error), b.waits, rs, r, error);
    hide Unlisted, Retired, Settled;
    assert b.stages - rs - {r} == b.stages - (rs + {r});
  }

  lemma SettleOneMore(objs: map<nat, Route>, then_: map<nat, Route>, waits: map<nat, Wait>, rs: set<nat>, r: nat,
                      error: Option<Failure>)
    requires r !in rs && then_.Keys == objs.Keys && (r in objs ==> then_[r].waiters == objs[r].waiters)
    ensures Settled(then_, Settled(objs, waits, rs, Verdict(error)), {r}, Verdict(error))
         == Settled(objs, waits, rs + {r}, Verdict(error))
  {
  }

  lemma AbortOneMore(b: Book, rs: set<nat>, r: nat)
    requires r !in rs
    ensures AbortStages(b, rs + {r}) == Retire(CloseStages(AbortStages(b, rs), {r}), {r}, Some(StageAborted))
  {
    var error := Some(StageAborted);
    CloseCommutes(b, rs, r);
    RetireOneMore(CloseStages(b, rs + {r}), rs, r, error);
    hide Retire, CloseStages;
  }

  lemma CloseCommutes(b: Book, rs: set<nat>, r: nat)
    requires r !in rs
    ensures CloseStages(AbortStages(b, rs), {r}) == Retire(CloseStages(b, rs + {r}), rs, Some(StageAborted))
  {
    var error := Some(StageAborted);
    var c, d := CloseStages(AbortStages(b, rs), {r}), Retire(CloseStages(b, rs + {r}), rs, error);
    assert c.objs == d.objs;
    assert c.waits == d.waits;
    hide Retired, Settled;
  }

  lemma RetireKeepsLinks(b: Book, rs: set<nat>, error: Option<Failure>)
    requires Linked(b)
    ensures Linked(Retire(b, rs, error))
  {
  }

  // ---------------------------------------------------------------------------
  // Steps
  // ---------------------------------------------------------------------------

  datatype Action =
    | DoRoute(key: Key, conn: string, r: nat)
    | DoStage(key: Key, conn: string, r: nat)
    | DoResolve(p: nat, conn: string, complete: set<(string, string)>, endings: map<nat, string>, order: seq<nat>)
    | DoAttach(p: nat)
    | PageSettles(p: nat, ok: bool)
    | DoFrame(r: nat)
    | DoWait(w: nat, r: nat, message: string)
    | DoWaitClaim(w: nat, c: nat)
    | DoResume(w: nat)
    | CancelWait(w: nat)
    | DoRelease(key: Key)
    | DoSettle(key: Key, outcome: Option<Failure>)
    | DoArm(key: Key, call: string, c: nat)
    | DoCloseClaim(c: nat)
    | DoCommit(r: nat)
    | DoAbort(r: nat)
    | DoFail(conn: string, failure: Failure)
    | DoClose(failure: Failure)

  /** The objects that the state refers to exist. */
  ghost predicate Known(b: Book) {
    && (forall k :: k in b.routes ==> b.routes[k] in b.objs)
    && (forall c :: c in b.claims ==> b.claims[c].route in b.objs)
    && (forall w :: w in b.waits ==> b.waits[w].route in b.objs)
  }

  /** New objects get new numbers; a page is attached once, then written or broken; its
      callbacks run once for each route they were added for. */
  ghost predicate Enabled(b: Book, a: Action) {
    match a
    case DoRoute(_, _, r) => r !in b.objs
    case DoStage(_, _, r) => r !in b.objs
    case DoResolve(p, _, _, _, order) =>
      p !in b.pages && (forall i :: 0 <= i < |order| ==> order[i] in b.objs && Homed(b, order[i])) &&
      (forall r :: r in b.objs && Homed(b, r) ==> r in order)
    case DoAttach(p) => p in b.pages && b.pages[p].status == Fresh
    case PageSettles(p, _) => p in b.pages && b.pages[p].status == Attached
    case DoFrame(r) =>
      r in b.objs && b.objs[r].due && b.objs[r].written != None && b.objs[r].written.value in b.pages &&
      b.pages[b.objs[r].written.value].status in {Written, Broken}
    case DoWait(w, r, _) => w !in b.waits && r in b.objs
    case DoWaitClaim(w, c) => w !in b.waits && c in b.claims
    case DoResume(w) => w in b.waits && b.waits[w].phase.Woken?
    case CancelWait(w) => w in b.waits && !b.waits[w].phase.Ended?
    case DoArm(_, _, c) => c !in b.claims
    case DoCloseClaim(c) => c in b.claims
    case DoCommit(r) => r in b.objs
    case DoAbort(r) => r in b.objs
    case _ => true
  }

  ghost function Step(b: Book, a: Action): Book
    requires Known(b) && Enabled(b, a)
  {
    match a
    case DoRoute(key, conn, r) => RouteInput(b, key, conn, r)
    case DoStage(key, conn, r) => StageInput(b, key, conn, r)
    case DoResolve(p, conn, complete, endings, order) => ResolvePage(b, p, conn, complete, endings, order)
    case DoAttach(p) => AttachPage(b, p)
    case PageSettles(p, ok) => b.(pages := b.pages[p := b.pages[p].(status := if ok then Written else Broken)])
    case DoFrame(r) => FrameDone(b, r)
    case DoWait(w, r, message) => WaitOutput(b, w, r, message)
    case DoWaitClaim(w, c) => WaitClaim(b, w, c)
    case DoResume(w) => ResumeWait(b, w)
    case CancelWait(w) => EndWait(LeaveWaiters(b, w), w, Interrupted)
    case DoRelease(key) => ReleaseInput(b, key)
    case DoSettle(key, outcome) => SettleInput(b, key, outcome)
    case DoArm(key, call, c) => ArmClaim(b, key, call, c)
    case DoCloseClaim(c) => CloseClaim(b, c)
    case DoCommit(r) => CommitStage(b, r)
    case DoAbort(r) => AbortStage(b, r)
    case DoFail(conn, failure) => FailAll(b, Some(conn), failure)
    case DoClose(failure) => FailAll(b.(closed := true), None, failure)
  }

  ghost predicate Moves(b: Book, a: Action, c: Book) {
    Known(b) && Enabled(b, a) && c == Step(b, a)
  }

  ghost predicate IsRun(states: seq<Book>, acts: seq<Action>) {
    |states| == |acts| + 1 && states[0] == EMPTY &&
    forall i :: 0 <= i < |acts| ==> Moves(states[i], acts[i], states[i + 1])
  }

  // ---------------------------------------------------------------------------
  // The invariant
  // ---------------------------------------------------------------------------

  ghost predicate TablesFit(b: Book) {
    && (forall k :: k in b.routes ==> b.routes[k] in b.objs && b.objs[b.routes[k]].key == k && !b.objs[b.routes[k]].staged)
    && (forall r :: r in b.stages ==> r in b.objs && b.objs[r].staged && !b.objs[r].stageClosed && b.objs[r].error == None)
  }

  /** A route is at home in the table or the stages, or it is decided. */
  predicate RouteFits(o: Route, tabled: bool, staged: bool) {
    && (tabled || staged || o.drained || o.error != None)
    && (o.staged && !o.stageClosed && !staged ==> o.error != None)
    && (o.resolved != None ==> o.expected == o.resolved)
    && (o.drained ==> o.resolved != None)
    && (o.due ==> o.written != None && !o.drained)
  }

  predicate OnPage(pages: map<nat, Page>, p: nat, r: nat, o: Route) {
    p in pages && r in pages[p].tracked && o.resolved == Some(pages[p].tracked[r])
  }

  /** `carrier` names the page that drained a route. */
  ghost predicate RouteCarried(r: nat, o: Route, carrier: map<nat, nat>, pages: map<nat, Page>) {
    && (o.drained ==> r in carrier && OnPage(pages, carrier[r], r, o) && pages[carrier[r]].status == Written)
    && (o.written != None ==>
          var p := o.written.value;
          OnPage(pages, p, r, o) && pages[p].status != Fresh && (pages[p].status == Broken || o.due))
  }

  ghost predicate RoutesFit(b: Book) {
    forall r :: r in b.objs ==> RouteFits(b.objs[r], InTable(b, r), r in b.stages)
  }

  ghost predicate RoutesCarried(objs: map<nat, Route>, pages: map<nat, Page>, carrier: map<nat, nat>) {
    forall r :: r in objs ==> RouteCarried(r, objs[r], carrier, pages)
  }

  ghost predicate PageFits(pg: Page, objs: map<nat, Route>) {
    forall r :: r in pg.tracked ==>
      r in objs && objs[r].resolved == Some(pg.tracked[r]) && (objs[r].key.session, pg.tracked[r]) in pg.complete
  }

  ghost predicate PagesFit(objs: map<nat, Route>, pages: map<nat, Page>) {
    forall p :: p in pages ==> PageFits(pages[p], objs)
  }

  ghost predicate ClaimFits(c: nat, cl: Claim, objs: map<nat, Route>, index: map<(string, string), nat>) {
    && cl.route in objs
    && (c in objs[cl.route].claims <==> !cl.closed)
    && (cl.ending != None ==> cl.ending == objs[cl.route].resolved)
    && (!cl.closed ==>
          var at := (objs[cl.route].key.session, cl.call);
          cl.ending == objs[cl.route].resolved && at in index && index[at] == c)
  }

  predicate IndexFits(at: (string, string), c: nat, objs: map<nat, Route>, claims: map<nat, Claim>) {
    && c in claims
    && !claims[c].closed
    && claims[c].route in objs
    && at == (objs[claims[c].route].key.session, claims[c].call)
  }

  ghost predicate ClaimsFit(objs: map<nat, Route>, claims: map<nat, Claim>, index: map<(string, string), nat>) {
    && (forall c :: c in claims ==> ClaimFits(c, claims[c], objs, index))
    && (forall r, c :: r in objs && c in objs[r].claims ==> c in claims && claims[c].route == r)
    && (forall at :: at in index ==> IndexFits(at, index[at], objs, claims))
  }

  predicate WaitFits(w: nat, wt: Wait, o: Route, claims: map<nat, Claim>) {
    && (wt.phase == Parked ==> w in o.waiters && o.error == None && !o.drained)
    && (wt.phase == Woken(None) || wt.phase == Ended(Delivered) ==> o.drained)
    && (wt.wants.Output? && wt.phase != Ended(Mismatch) ==> o.expected == Some(wt.wants.message))
    && (wt.phase == Ended(Unresolved) ==> wt.wants.Ending?)
    && (wt.wants.Ending? ==>
          var c := wt.wants.claim;
          c in claims && claims[c].route == wt.route && (wt.phase == Ended(Delivered) ==> claims[c].ending != None) &&
          (wt.phase == Ended(Unresolved) ==> claims[c].closed))
  }

  ghost predicate WaitsFit(objs: map<nat, Route>, waits: map<nat, Wait>, claims: map<nat, Claim>) {
    && (forall w :: w in waits ==> waits[w].route in objs && WaitFits(w, waits[w], objs[waits[w].route], claims))
    && (forall r, w :: r in objs && w in objs[r].waiters ==> w in waits && waits[w].route == r)
  }

  ghost predicate Inv(b: Book, carrier: map<nat, nat>) {
    && TablesFit(b)
    && RoutesFit(b)
    && RoutesCarried(b.objs, b.pages, carrier)
    && PagesFit(b.objs, b.pages)
    && ClaimsFit(b.objs, b.claims, b.index)
    && WaitsFit(b.objs, b.waits, b.claims)
  }

  lemma KnownFromInv(b: Book, carrier: map<nat, nat>)
    requires Inv(b, carrier)
    ensures Known(b)
  {
    assert forall c :: c in b.claims ==> ClaimFits(c, b.claims[c], b.objs, b.index);
  }

  // ---------------------------------------------------------------------------
  // Frames: which part of a route each part of the invariant looks at
  // ---------------------------------------------------------------------------

  predicate SameDelivery(o: Route, n: Route) {
    n.key == o.key && n.resolved == o.resolved && n.written == o.written && n.drained == o.drained && n.due == o.due
  }

  predicate SameClaims(o: Route, n: Route) {
    n.key == o.key && n.resolved == o.resolved && n.claims == o.claims
  }

  predicate SameWaits(o: Route, n: Route) {
    n.waiters == o.waiters && n.error == o.error && n.drained == o.drained && n.expected == o.expected
  }

  ghost predicate Grows(objs: map<nat, Route>, then_: map<nat, Route>) {
    && objs.Keys <= then_.Keys
    && forall r :: r in then_ && r !in objs ==>
         then_[r].waiters == {} && then_[r].claims == {} && then_[r].written == None && !then_[r].drained
  }

  lemma DeliveryFrame(objs: map<nat, Route>, then_: map<nat, Route>, pages: map<nat, Page>, carrier: map<nat, nat>)
    requires RoutesCarried(objs, pages, carrier) && PagesFit(objs, pages) && Grows(objs, then_)
    requires forall r :: r in objs ==> SameDelivery(objs[r], then_[r])
    ensures RoutesCarried(then_, pages, carrier) && PagesFit(then_, pages)
  {
    forall p | p in pages
      ensures PageFits(pages[p], then_)
    {
      assert PageFits(pages[p], objs);
    }
    forall r | r in then_
      ensures RouteCarried(r, then_[r], carrier, pages)
    {
      assert r in objs ==> RouteCarried(r, objs[r], carrier, pages);
    }
  }

  lemma ClaimsFrame(objs: map<nat, Route>, then_: map<nat, Route>, claims: map<nat, Claim>, index: map<(string, string), nat>)
    requires ClaimsFit(objs, claims, index) && Grows(objs, then_)
    requires forall r :: r in objs ==> SameClaims(objs[r], then_[r])
    ensures ClaimsFit(then_, claims, index)
  {
    forall c | c in claims
      ensures ClaimFits(c, claims[c], then_, index)
    {
      assert ClaimFits(c, claims[c], objs, index);
    }
    forall at | at in index
      ensures IndexFits(at, index[at], then_, claims)
    {
      assert IndexFits(at, index[at], objs, claims);
    }
  }

  lemma WaitsFrame(objs: map<nat, Route>, then_: map<nat, Route>, waits: map<nat, Wait>, claims: map<nat, Claim>)
    requires WaitsFit(objs, waits, claims) && Grows(objs, then_)
    requires forall r :: r in objs ==> SameWaits(objs[r], then_[r])
    ensures WaitsFit(then_, waits, claims)
  {
    forall w | w in waits
      ensures waits[w].route in then_ && WaitFits(w, waits[w], then_[waits[w].route], claims)
    {
      assert WaitFits(w, waits[w], objs[waits[w].route], claims);
    }
  }

  lemma RetiredWaitsFit(objs: map<nat, Route>, waits: map<nat, Wait>, claims: map<nat, Claim>, rs: set<nat>,
                        error: Option<Failure>)
    requires WaitsFit(objs, waits, claims)
    ensures WaitsFit(Retired(objs, rs, error), Settled(objs, waits, rs, Verdict(error)), claims)
  {
    var then_, after := Retired(objs, rs, error), Settled(objs, waits, rs, Verdict(error));
    forall w | w in after
      ensures after[w].route in then_ && WaitFits(w, after[w], then_[after[w].route], claims)
    {
      assert WaitFits(w, waits[w], objs[waits[w].route], claims);
    }
  }

  lemma RetiredRelations(objs: map<nat, Route>, rs: set<nat>, error: Option<Failure>)
    ensures var then_ := Retired(objs, rs, error);
            Grows(objs, then_) && forall r :: r in objs ==> SameDelivery(objs[r], then_[r]) && SameClaims(objs[r], then_[r])
  {
  }

  lemma RetiredTables(b: Book, rs: set<nat>, error: Option<Failure>)
    requires TablesFit(b) && RoutesFit(b)
    requires error != None || forall r :: r in rs && r in b.objs ==> b.objs[r].drained && !b.objs[r].staged
    ensures TablesFit(Retire(b, rs, error)) && RoutesFit(Retire(b, rs, error))
  {
    hide Settled;
    var c := Retire(b, rs, error);
    forall r | r in c.objs
      ensures RouteFits(c.objs[r], InTable(c, r), r in c.stages)
    {
      assert RouteFits(b.objs[r], InTable(b, r), r in b.stages);
    }
  }

  lemma AddedTables(b: Book, r: nat, key: Key, conn: string, staged: bool)
    requires TablesFit(b) && RoutesFit(b) && r !in b.objs && (!staged ==> key !in b.routes)
    ensures var o := NewRoute(key, conn, staged);
            var c := if staged then b.(objs := b.objs[r := o], stages := b.stages + {r})
                     else b.(objs := b.objs[r := o], routes := b.routes[key := r]);
            TablesFit(c) && RoutesFit(c)
  {
    forall q | q in b.objs
      ensures RouteFits(b.objs[q], InTable(b, q), q in b.stages)
    {
    }
  }

  /** Retiring decided routes, or retiring any with an error, strands nobody. */
  lemma RetireKeepsInv(b: Book, rs: set<nat>, error: Option<Failure>, carrier: map<nat, nat>)
    requires Inv(b, carrier)
    requires error != None || forall r :: r in rs && r in b.objs ==> b.objs[r].drained && !b.objs[r].staged
    ensures Inv(Retire(b, rs, error), carrier)
  {
    var c := Retire(b, rs, error);
    RetiredTables(b, rs, error);
    RetiredRelations(b.objs, rs, error);
    hide TablesFit, RoutesFit, RoutesCarried, PagesFit, ClaimsFit, WaitsFit, Settled, Unlisted, Retired, Grows;
    DeliveryFrame(b.objs, c.objs, b.pages, carrier);
    ClaimsFrame(b.objs, c.objs, b.claims, b.index);
    RetiredWaitsFit(b.objs, b.waits, b.claims, rs, error);
  }

  /** A new route, in the table or staged. */
  lemma AddKeepsInv(b: Book, r: nat, key: Key, conn: string, staged: bool, carrier: map<nat, nat>)
    requires Inv(b, carrier) && r !in b.objs && (!staged ==> key !in b.routes)
    ensures var o := NewRoute(key, conn, staged);
            Inv(if staged then b.(objs := b.objs[r := o], stages := b.stages + {r})
                else b.(objs := b.objs[r := o], routes := b.routes[key := r]), carrier)
  {
    var objs := b.objs[r := NewRoute(key, conn, staged)];
    AddedTables(b, r, key, conn, staged);
    hide TablesFit, RoutesFit, RoutesCarried, PagesFit, ClaimsFit, WaitsFit;
    DeliveryFrame(b.objs, objs, b.pages, carrier);
    ClaimsFrame(b.objs, objs, b.claims, b.index);
    WaitsFrame(b.objs, objs, b.waits, b.claims);
  }

  /** One route changes in a way its tables allow. */
  lemma OneRouteFits(b: Book, r: nat, n: Route)
    requires TablesFit(b) && RoutesFit(b) && r in b.objs
    requires n.key == b.objs[r].key && n.staged == b.objs[r].staged && n.stageClosed == b.objs[r].stageClosed
    requires n.error == b.objs[r].error && RouteFits(n, InTable(b, r), r in b.stages)
    ensures TablesFit(b.(objs := b.objs[r := n])) && RoutesFit(b.(objs := b.objs[r := n]))
  {
  }

  lemma RouteIsFit(b: Book, r: nat)
    requires RoutesFit(b) && r in b.objs
    ensures RouteFits(b.objs[r], InTable(b, r), r in b.stages)
  {
  }

  lemma BoundTables(b: Book, r: nat, ending: string)
    requires TablesFit(b) && RoutesFit(b) && r in b.objs
    requires b.objs[r].expected == None || b.objs[r].expected == Some(ending)
    ensures b.objs[r].resolved == None || b.objs[r].resolved == Some(ending)
    ensures TablesFit(Bind(b, r, ending)) && RoutesFit(Bind(b, r, ending))
  {
    RouteIsFit(b, r);
    var c := Bind(b, r, ending);
    hide TablesFit, RoutesFit, Bind;
    OneRouteFits(b, r, c.objs[r]);
    TablesIgnoreClaims(b.(objs := c.objs), c.claims, b.index);
  }

  lemma BindKeepsInv(b: Book, r: nat, ending: string, carrier: map<nat, nat>)
    requires Inv(b, carrier) && r in b.objs
    requires b.objs[r].expected == None || b.objs[r].expected == Some(ending)
    ensures Inv(Bind(b, r, ending), carrier)
  {
    hide TablesFit, RoutesFit, RoutesCarried, PagesFit, ClaimsFit, WaitsFit, Bind;
    BoundTables(b, r, ending);
    BoundDelivery(b.objs, r, Bind(b, r, ending).objs[r], b.pages, carrier);
    BoundClaims(b, r, ending);
    BoundWaits(b, r, ending);
  }

  lemma BoundDelivery(objs: map<nat, Route>, r: nat, n: Route, pages: map<nat, Page>, carrier: map<nat, nat>)
    requires RoutesCarried(objs, pages, carrier) && PagesFit(objs, pages) && r in objs
    requires n == objs[r].(expected := n.expected, resolved := n.resolved)
    requires objs[r].resolved != None ==> n.resolved == objs[r].resolved
    ensures RoutesCarried(objs[r := n], pages, carrier) && PagesFit(objs[r := n], pages)
  {
    forall p | p in pages
      ensures PageFits(pages[p], objs[r := n])
    {
      assert PageFits(pages[p], objs);
    }
    assert RouteCarried(r, objs[r], carrier, pages);
  }

  lemma BoundClaims(b: Book, r: nat, ending: string)
    requires ClaimsFit(b.objs, b.claims, b.index) && r in b.objs && (b.objs[r].resolved == None || b.objs[r].resolved == Some(ending))
    ensures var c := Bind(b, r, ending); ClaimsFit(c.objs, c.claims, c.index)
  {
    var c := Bind(b, r, ending);
    forall k | k in c.claims
      ensures ClaimFits(k, c.claims[k], c.objs, c.index)
    {
      assert ClaimFits(k, b.claims[k], b.objs, b.index);
    }
    forall at | at in c.index
      ensures IndexFits(at, c.index[at], c.objs, c.claims)
    {
      assert IndexFits(at, b.index[at], b.objs, b.claims);
    }
  }

  lemma BoundWaits(b: Book, r: nat, ending: string)
    requires WaitsFit(b.objs, b.waits, b.claims) && r in b.objs && (b.objs[r].expected == None || b.objs[r].expected == Some(ending))
    ensures var c := Bind(b, r, ending); WaitsFit(c.objs, c.waits, c.claims)
  {
    var c := Bind(b, r, ending);
    forall w | w in c.waits
      ensures c.waits[w].route in c.objs && WaitFits(w, c.waits[w], c.objs[c.waits[w].route], c.claims)
    {
      assert WaitFits(w, b.waits[w], b.objs[b.waits[w].route], b.claims);
    }
  }

  /** The routes a page concerned are bound to its complete outputs, also when a later
      route refused the page. */
  lemma {:induction false} ResolveKeepsInv(b: Book, conn: string, complete: set<(string, string)>,
                                           endings: map<nat, string>, order: seq<nat>, tracked: map<nat, string>,
                                           carrier: map<nat, nat>)
    requires Inv(b, carrier) && (forall i :: 0 <= i < |order| ==> order[i] in b.objs)
    requires PageFits(Page(conn, complete, tracked, Fresh), b.objs)
    ensures var (c, t) := ResolveRoutes(b, conn, complete, endings, order, tracked);
            Inv(c, carrier) && c.pages == b.pages &&
            (t != None ==> PageFits(Page(conn, complete, t.value, Fresh), c.objs))
    decreases |order|
  {
    hide Inv;
    if order != [] {
      var r := order[0];
      if !Concerns(b.objs[r], conn, complete, endings, r) {
        ResolveKeepsInv(b, conn, complete, endings, order[1..], tracked, carrier);
      } else if b.objs[r].expected == None || b.objs[r].expected == Some(endings[r]) {
        BindKeepsInv(b, r, endings[r], carrier);
        TrackedGrows(b, conn, complete, tracked, r, endings[r], carrier);
        ResolveKeepsInv(Bind(b, r, endings[r]), conn, complete, endings, order[1..], tracked[r := endings[r]], carrier);
      }
    }
  }

  lemma TrackedGrows(b: Book, conn: string, complete: set<(string, string)>, tracked: map<nat, string>, r: nat,
                     ending: string, carrier: map<nat, nat>)
    requires Inv(b, carrier) && r in b.objs && b.objs[r].expected in {None, Some(ending)}
    requires PageFits(Page(conn, complete, tracked, Fresh), b.objs) && (b.objs[r].key.session, ending) in complete
    ensures PageFits(Page(conn, complete, tracked[r := ending], Fresh), Bind(b, r, ending).objs)
  {
    assert RouteFits(b.objs[r], InTable(b, r), r in b.stages);
    hide Inv;
    var objs := Bind(b, r, ending).objs;
    forall q | q in tracked[r := ending]
      ensures q in objs && objs[q].resolved == Some(tracked[r := ending][q])
      ensures (objs[q].key.session, tracked[r := ending][q]) in complete
    {
      assert q != r ==> objs[q] == b.objs[q] && b.objs[q].resolved == Some(tracked[q]);
    }
  }

  lemma TablesIgnorePages(b: Book, pages: map<nat, Page>)
    requires TablesFit(b) && RoutesFit(b)
    ensures TablesFit(b.(pages := pages)) && RoutesFit(b.(pages := pages))
  {
    forall r | r in b.objs
      ensures RouteFits(b.objs[r], InTable(b, r), r in b.stages)
    {
    }
  }

  lemma AddedCarries(objs: map<nat, Route>, pages: map<nat, Page>, p: nat, pg: Page, carrier: map<nat, nat>)
    requires RoutesCarried(objs, pages, carrier) && PagesFit(objs, pages) && p !in pages && PageFits(pg, objs)
    ensures RoutesCarried(objs, pages[p := pg], carrier) && PagesFit(objs, pages[p := pg])
  {
    forall r | r in objs
      ensures RouteCarried(r, objs[r], carrier, pages[p := pg])
    {
      assert RouteCarried(r, objs[r], carrier, pages);
    }
  }

  lemma PageAddedKeepsInv(b: Book, p: nat, pg: Page, carrier: map<nat, nat>)
    requires Inv(b, carrier) && p !in b.pages && PageFits(pg, b.objs)
    ensures Inv(b.(pages := b.pages[p := pg]), carrier)
  {
    TablesIgnorePages(b, b.pages[p := pg]);
    hide TablesFit, RoutesFit, ClaimsFit, WaitsFit, RoutesCarried, PagesFit, PageFits;
    AddedCarries(b.objs, b.pages, p, pg, carrier);
  }

  lemma TurnCarries(objs: map<nat, Route>, pages: map<nat, Page>, p: nat, status: Status, carrier: map<nat, nat>)
    requires p in pages && pages[p].status == Attached && status in {Written, Broken}
    requires RoutesCarried(objs, pages, carrier) && PagesFit(objs, pages)
    ensures RoutesCarried(objs, pages[p := pages[p].(status := status)], carrier)
    ensures PagesFit(objs, pages[p := pages[p].(status := status)])
  {
    var then_ := pages[p := pages[p].(status := status)];
    forall q | q in then_
      ensures PageFits(then_[q], objs)
    {
      assert PageFits(pages[q], objs);
    }
    forall r | r in objs
      ensures RouteCarried(r, objs[r], carrier, then_)
    {
      assert RouteCarried(r, objs[r], carrier, pages);
    }
  }

  /** A page's write settles. */
  lemma PageTurnKeepsInv(b: Book, p: nat, status: Status, carrier: map<nat, nat>)
    requires Inv(b, carrier) && p in b.pages && b.pages[p].status == Attached && status in {Written, Broken}
    ensures Inv(b.(pages := b.pages[p := b.pages[p].(status := status)]), carrier)
  {
    TablesIgnorePages(b, b.pages[p := b.pages[p].(status := status)]);
    hide TablesFit, RoutesFit, ClaimsFit, WaitsFit, RoutesCarried, PagesFit;
    TurnCarries(b.objs, b.pages, p, status, carrier);
  }

  lemma AttachTables(b: Book, p: nat)
    requires TablesFit(b) && RoutesFit(b) && p in b.pages
    ensures TablesFit(AttachPage(b, p)) && RoutesFit(AttachPage(b, p))
  {
    var c := AttachPage(b, p);
    forall r | r in c.objs
      ensures RouteFits(c.objs[r], InTable(c, r), r in c.stages)
    {
      assert RouteFits(b.objs[r], InTable(b, r), r in b.stages);
    }
  }

  lemma AttachCarries(b: Book, p: nat, carrier: map<nat, nat>)
    requires p in b.pages && b.pages[p].status == Fresh
    requires RoutesCarried(b.objs, b.pages, carrier) && PagesFit(b.objs, b.pages)
    ensures var c := AttachPage(b, p); RoutesCarried(c.objs, c.pages, carrier) && PagesFit(c.objs, c.pages)
  {
    var c := AttachPage(b, p);
    assert PageFits(b.pages[p], b.objs);
    forall q | q in c.pages
      ensures PageFits(c.pages[q], c.objs)
    {
      assert PageFits(b.pages[q], b.objs);
    }
    forall r | r in c.objs
      ensures RouteCarried(r, c.objs[r], carrier, c.pages)
    {
      assert RouteCarried(r, b.objs[r], carrier, b.pages);
    }
  }

  lemma AttachRelations(b: Book, p: nat)
    requires p in b.pages
    ensures var c := AttachPage(b, p);
            Grows(b.objs, c.objs) &&
            forall r :: r in b.objs ==> SameClaims(b.objs[r], c.objs[r]) && SameWaits(b.objs[r], c.objs[r])
  {
  }

  lemma AttachKeepsInv(b: Book, p: nat, carrier: map<nat, nat>)
    requires Inv(b, carrier) && p in b.pages && b.pages[p].status == Fresh
    ensures Inv(AttachPage(b, p), carrier)
  {
    var c := AttachPage(b, p);
    AttachTables(b, p);
    AttachCarries(b, p, carrier);
    AttachRelations(b, p);
    hide TablesFit, RoutesFit, RoutesCarried, PagesFit, ClaimsFit, WaitsFit, Grows;
    ClaimsFrame(b.objs, c.objs, b.claims, b.index);
    WaitsFrame(b.objs, c.objs, b.waits, b.claims);
  }

  // ---------------------------------------------------------------------------
  // One route changes
  // ---------------------------------------------------------------------------

  lemma OneRouteRelations(objs: map<nat, Route>, r: nat, n: Route)
    requires r in objs
    ensures Grows(objs, objs[r := n])
    ensures SameDelivery(objs[r], n) ==> forall q :: q in objs ==> SameDelivery(objs[q], objs[r := n][q])
    ensures SameClaims(objs[r], n) ==> forall q :: q in objs ==> SameClaims(objs[q], objs[r := n][q])
    ensures SameWaits(objs[r], n) ==> forall q :: q in objs ==> SameWaits(objs[q], objs[r := n][q])
  {
  }

  lemma ReleaseKeepsInv(b: Book, r: nat, carrier: map<nat, nat>)
    requires Inv(b, carrier) && r in b.objs && !b.objs[r].staged
    ensures Inv(ReleaseRoute(b, r), carrier)
  {
    hide Inv, Retire;
    var o := b.objs[r];
    RetireKeepsInv(b, {r}, if o.error == None && !o.drained then Some(NoOutput) else o.error, carrier);
  }

  lemma MaybeReleaseKeepsInv(b: Book, r: nat, carrier: map<nat, nat>)
    requires Inv(b, carrier) && r in b.objs
    ensures Inv(MaybeRelease(b, r), carrier)
  {
    hide Inv, ReleaseRoute;
    if !b.objs[r].staged {
      ReleaseKeepsInv(b, r, carrier);
    }
  }

  /** The page of a route has been written: its waiters are told so. */
  function Drain(b: Book, r: nat): (c: Book)
    requires r in b.objs
    ensures c == b.(objs := c.objs, waits := c.waits)
  {
    var n := b.objs[r].(due := false, written := None, drained := true);
    b.(objs := b.objs[r := n], waits := Settled(b.objs[r := n], b.waits, {r}, None))
  }

  lemma DrainTables(b: Book, r: nat)
    requires TablesFit(b) && RoutesFit(b) && r in b.objs && b.objs[r].resolved != None
    ensures TablesFit(Drain(b, r)) && RoutesFit(Drain(b, r))
  {
    hide Settled;
    var n := b.objs[r].(due := false, written := None, drained := true);
    assert RouteFits(b.objs[r], InTable(b, r), r in b.stages);
    OneRouteFits(b, r, n);
    hide TablesFit;
    var c := b.(objs := b.objs[r := n]);
    assert TablesFit(Drain(b, r)) by { TablesIgnoreWaits(c, Drain(b, r).waits); }
    TablesIgnoreWaits(c, Drain(b, r).waits);
  }

  lemma TablesIgnoreWaits(b: Book, waits: map<nat, Wait>)
    requires TablesFit(b) && RoutesFit(b)
    ensures TablesFit(b.(waits := waits)) && RoutesFit(b.(waits := waits))
  {
    forall r | r in b.objs
      ensures RouteFits(b.objs[r], InTable(b, r), r in b.stages)
    {
    }
  }

  lemma DrainCarries(objs: map<nat, Route>, pages: map<nat, Page>, r: nat, p: nat, carrier: map<nat, nat>)
    requires RoutesCarried(objs, pages, carrier) && PagesFit(objs, pages)
    requires r in objs && objs[r].written == Some(p) && p in pages && pages[p].status == Written
    ensures var then_ := objs[r := objs[r].(due := false, written := None, drained := true)];
            RoutesCarried(then_, pages, carrier[r := p]) && PagesFit(then_, pages)
  {
    var then_ := objs[r := objs[r].(due := false, written := None, drained := true)];
    assert RouteCarried(r, objs[r], carrier, pages);
    forall q | q in then_
      ensures RouteCarried(q, then_[q], carrier[r := p], pages)
    {
      assert RouteCarried(q, objs[q], carrier, pages);
    }
    forall q | q in pages
      ensures PageFits(pages[q], then_)
    {
      assert PageFits(pages[q], objs);
    }
  }

  lemma DrainWaits(objs: map<nat, Route>, waits: map<nat, Wait>, claims: map<nat, Claim>, r: nat)
    requires WaitsFit(objs, waits, claims) && r in objs
    ensures var then_ := objs[r := objs[r].(due := false, written := None, drained := true)];
            WaitsFit(then_, Settled(then_, waits, {r}, None), claims)
  {
    var then_ := objs[r := objs[r].(due := false, written := None, drained := true)];
    var after := Settled(then_, waits, {r}, None);
    forall w | w in after
      ensures after[w].route in then_ && WaitFits(w, after[w], then_[after[w].route], claims)
    {
      assert WaitFits(w, waits[w], objs[waits[w].route], claims);
    }
  }

  lemma DrainKeepsInv(b: Book, r: nat, carrier: map<nat, nat>)
    requires Inv(b, carrier) && Enabled(b, DoFrame(r)) && b.pages[b.objs[r].written.value].status == Written
    ensures Inv(Drain(b, r), carrier[r := b.objs[r].written.value])
  {
    var p, n := b.objs[r].written.value, b.objs[r].(due := false, written := None, drained := true);
    assert RouteCarried(r, b.objs[r], carrier, b.pages);
    DrainTables(b, r);
    DrainCarries(b.objs, b.pages, r, p, carrier);
    DrainWaits(b.objs, b.waits, b.claims, r);
    OneRouteRelations(b.objs, r, n);
    hide TablesFit, RoutesFit, RoutesCarried, PagesFit, ClaimsFit, WaitsFit, Settled, Grows;
    ClaimsFrame(b.objs, b.objs[r := n], b.claims, b.index);
  }

  lemma FrameDoneKeepsInv(b: Book, r: nat, carrier: map<nat, nat>) returns (w: map<nat, nat>)
    requires Inv(b, carrier) && Enabled(b, DoFrame(r))
    ensures Inv(FrameDone(b, r), w)
  {
    hide Inv, FailRoute, MaybeRelease, Settled;
    var p, o := b.objs[r].written.value, b.objs[r];
    if b.pages[p].status == Broken {
      w := carrier;
      BrokenKeepsInv(b, r, carrier);
    } else {
      w := carrier[r := p];
      DrainKeepsInv(b, r, carrier);
      assert b.objs[r := o.(due := false)][r := o.(due := false, written := None, drained := true)]
          == b.objs[r := o.(due := false, written := None, drained := true)];
      MaybeReleaseKeepsInv(Drain(b, r), r, w);
    }
  }

  lemma BrokenKeepsInv(b: Book, r: nat, carrier: map<nat, nat>)
    requires Inv(b, carrier) && Enabled(b, DoFrame(r)) && b.pages[b.objs[r].written.value].status == Broken
    ensures Inv(FailRoute(b.(objs := b.objs[r := b.objs[r].(due := false)]), r, Given("write failed")), carrier)
  {
    var n := b.objs[r].(due := false);
    assert RouteFits(b.objs[r], InTable(b, r), r in b.stages) && RouteCarried(r, b.objs[r], carrier, b.pages);
    OneRouteFits(b, r, n);
    OneRouteRelations(b.objs, r, n);
    var objs := b.objs[r := n];
    UndueCarries(b.objs, r, b.pages, carrier);
    hide TablesFit, RoutesFit, RoutesCarried, PagesFit, ClaimsFit, WaitsFit, Grows;
    ClaimsFrame(b.objs, objs, b.claims, b.index);
    WaitsFrame(b.objs, objs, b.waits, b.claims);
    RetireKeepsInv(b.(objs := objs), {r}, Some(Given("write failed")), carrier);
  }

  lemma UndueCarries(objs: map<nat, Route>, r: nat, pages: map<nat, Page>, carrier: map<nat, nat>)
    requires RoutesCarried(objs, pages, carrier) && PagesFit(objs, pages)
    requires r in objs && objs[r].written != None && objs[r].written.value in pages
    requires pages[objs[r].written.value].status == Broken
    ensures RoutesCarried(objs[r := objs[r].(due := false)], pages, carrier)
    ensures PagesFit(objs[r := objs[r].(due := false)], pages)
  {
    var then_ := objs[r := objs[r].(due := false)];
    forall q | q in then_
      ensures RouteCarried(q, then_[q], carrier, pages)
    {
      assert RouteCarried(q, objs[q], carrier, pages);
    }
    forall q | q in pages
      ensures PageFits(pages[q], then_)
    {
      assert PageFits(pages[q], objs);
    }
  }

  // ---------------------------------------------------------------------------
  // Waits
  // ---------------------------------------------------------------------------

  /** Only what waits look at changes on one route. */
  lemma WaitersKeepInv(b: Book, r: nat, n: Route, waits: map<nat, Wait>, carrier: map<nat, nat>)
    requires Inv(b, carrier) && r in b.objs && n == b.objs[r].(expected := n.expected, waiters := n.waiters)
    requires n.expected == b.objs[r].expected || b.objs[r].expected == None
    requires WaitsFit(b.objs[r := n], waits, b.claims)
    ensures Inv(b.(objs := b.objs[r := n], waits := waits), carrier)
  {
    var objs := b.objs[r := n];
    assert RouteFits(b.objs[r], InTable(b, r), r in b.stages);
    OneRouteFits(b, r, n);
    TablesIgnoreWaits(b.(objs := objs), waits);
    OneRouteRelations(b.objs, r, n);
    hide TablesFit, RoutesFit, RoutesCarried, PagesFit, ClaimsFit, WaitsFit, Grows;
    DeliveryFrame(b.objs, objs, b.pages, carrier);
    ClaimsFrame(b.objs, objs, b.claims, b.index);
  }

  lemma NewWaitFits(b: Book, r: nat, n: Route, w: nat, wt: Wait)
    requires WaitsFit(b.objs, b.waits, b.claims) && r in b.objs && wt.route == r
    requires n == b.objs[r].(expected := n.expected, waiters := n.waiters)
    requires n.expected == b.objs[r].expected || b.objs[r].expected == None
    requires n.waiters == if wt.phase == Parked then b.objs[r].waiters + {w} else b.objs[r].waiters - {w}
    requires w in b.waits ==> b.waits[w].route == r
    requires WaitFits(w, wt, n, b.claims)
    ensures WaitsFit(b.objs[r := n], b.waits[w := wt], b.claims)
  {
    var objs, waits := b.objs[r := n], b.waits[w := wt];
    forall v | v in waits
      ensures waits[v].route in objs && WaitFits(v, waits[v], objs[waits[v].route], b.claims)
    {
      assert v != w ==> WaitFits(v, b.waits[v], b.objs[b.waits[v].route], b.claims);
    }
    forall q, v | q in objs && v in objs[q].waiters
      ensures v in waits && waits[v].route == q
    {
    }
  }

  /** An undecided claim has no ending; a decided route has told its open claims. */
  lemma FinalFits(b: Book, r: nat, wants: Wants, carrier: map<nat, nat>)
    requires Inv(b, carrier) && r in b.objs && b.objs[r].drained
    requires wants.Ending? ==> wants.claim in b.claims && b.claims[wants.claim].route == r
    ensures Final(b, wants) == Unresolved ==> wants.Ending? && b.claims[wants.claim].closed
    ensures Final(b, wants) == Delivered && wants.Ending? ==> b.claims[wants.claim].ending != None
    ensures Final(b, wants) in {Unresolved, Delivered}
  {
    assert RouteFits(b.objs[r], InTable(b, r), r in b.stages);
    if wants.Ending? {
      assert ClaimFits(wants.claim, b.claims[wants.claim], b.objs, b.index);
    }
  }

  lemma NewWaiterIsUnknown(b: Book, w: nat, r: nat, carrier: map<nat, nat>)
    requires Inv(b, carrier) && w !in b.waits && r in b.objs
    ensures w !in b.objs[r].waiters
  {
  }

  /** A new wait, parked or over at once. */
  lemma AddWaitKeepsInv(b: Book, w: nat, wt: Wait, carrier: map<nat, nat>)
    requires Inv(b, carrier) && w !in b.waits && wt.route in b.objs
    requires var o := b.objs[wt.route]; WaitFits(w, wt, if wt.phase == Parked then o.(waiters := o.waiters + {w}) else o, b.claims)
    ensures var o := b.objs[wt.route];
            Inv(b.(objs := if wt.phase == Parked then b.objs[wt.route := o.(waiters := o.waiters + {w})] else b.objs,
                   waits := b.waits[w := wt]), carrier)
  {
    var r, o := wt.route, b.objs[wt.route];
    var n := if wt.phase == Parked then o.(waiters := o.waiters + {w}) else o;
    NewWaiterIsUnknown(b, w, r, carrier);
    assert b.objs[r := o] == b.objs && o.waiters - {w} == o.waiters;
    NewWaitFits(b, r, n, w, wt);
    hide Inv, WaitsFit;
    WaitersKeepInv(b, r, n, b.waits[w := wt], carrier);
  }

  lemma EnterKeepsInv(b: Book, w: nat, r: nat, wants: Wants, carrier: map<nat, nat>)
    requires Inv(b, carrier) && w !in b.waits && r in b.objs
    requires wants.Output? ==> b.objs[r].expected == Some(wants.message)
    requires wants.Ending? ==> wants.claim in b.claims && b.claims[wants.claim].route == r
    ensures Inv(EnterWait(b, w, r, wants), carrier)
  {
    hide Inv;
    if b.objs[r].error != None {
      AddWaitKeepsInv(b, w, Wait(r, wants, Ended(Failed(b.objs[r].error.value))), carrier);
    } else if b.objs[r].drained {
      FinalFits(b, r, wants, carrier);
      AddWaitKeepsInv(b, w, Wait(r, wants, Ended(Final(b, wants))), carrier);
    } else {
      AddWaitKeepsInv(b, w, Wait(r, wants, Parked), carrier);
    }
  }

  lemma ExpectKeepsInv(b: Book, r: nat, message: string, carrier: map<nat, nat>)
    requires Inv(b, carrier) && r in b.objs && b.objs[r].expected in {None, Some(message)}
    ensures Inv(b.(objs := b.objs[r := b.objs[r].(expected := Some(message))]), carrier)
  {
    var n := b.objs[r].(expected := Some(message));
    ExpectedWaits(b.objs, b.waits, b.claims, r, n);
    hide Inv, WaitsFit;
    WaitersKeepInv(b, r, n, b.waits, carrier);
  }

  lemma WaitOutputKeepsInv(b: Book, w: nat, r: nat, message: string, carrier: map<nat, nat>)
    requires Inv(b, carrier) && w !in b.waits && r in b.objs
    ensures Inv(WaitOutput(b, w, r, message), carrier)
  {
    hide Inv, EnterWait;
    if b.objs[r].expected != None && b.objs[r].expected != Some(message) {
      AddWaitKeepsInv(b, w, Wait(r, Output(message), Ended(Mismatch)), carrier);
    } else {
      ExpectKeepsInv(b, r, message, carrier);
      EnterKeepsInv(b.(objs := b.objs[r := b.objs[r].(expected := Some(message))]), w, r, Output(message), carrier);
    }
  }

  lemma ExpectedWaits(objs: map<nat, Route>, waits: map<nat, Wait>, claims: map<nat, Claim>, r: nat, n: Route)
    requires WaitsFit(objs, waits, claims) && r in objs && n == objs[r].(expected := n.expected)
    requires n.expected == objs[r].expected || objs[r].expected == None
    ensures WaitsFit(objs[r := n], waits, claims)
  {
    forall w | w in waits
      ensures waits[w].route in objs[r := n] && WaitFits(w, waits[w], objs[r := n][waits[w].route], claims)
    {
      assert WaitFits(w, waits[w], objs[waits[w].route], claims);
    }
  }

  lemma WaitClaimKeepsInv(b: Book, w: nat, c: nat, carrier: map<nat, nat>)
    requires Inv(b, carrier) && w !in b.waits && c in b.claims && b.claims[c].route in b.objs
    ensures Inv(WaitClaim(b, w, c), carrier)
  {
    var r := b.claims[c].route;
    if b.claims[c].closed {
      AddWaitKeepsInv(b, w, Wait(r, Ending(c), Ended(Failed(Released))), carrier);
    } else {
      hide Inv;
      EnterKeepsInv(b, w, r, Ending(c), carrier);
    }
  }

  /** A wait that was not over ends with an answer its route supports. */
  lemma EndKeepsInv(b: Book, w: nat, answer: Answer, carrier: map<nat, nat>)
    requires Inv(b, carrier) && w in b.waits && b.waits[w].route in b.objs && !b.waits[w].phase.Ended?
    requires answer != Mismatch && (answer == Delivered || answer == Unresolved ==>
               b.objs[b.waits[w].route].drained && answer == Final(b, b.waits[w].wants))
    ensures Inv(EndWait(LeaveWaiters(b, w), w, answer), carrier)
  {
    var r, wt := b.waits[w].route, b.waits[w].(phase := Ended(answer));
    assert WaitFits(w, b.waits[w], b.objs[r], b.claims);
    if b.objs[r].drained {
      FinalFits(b, r, wt.wants, carrier);
    }
    var n := b.objs[r].(waiters := b.objs[r].waiters - {w});
    NewWaitFits(b, r, n, w, wt);
    hide Inv, WaitsFit;
    WaitersKeepInv(b, r, n, b.waits[w := wt], carrier);
  }

  /** Releasing a decided route and ending a wait on it do not disturb each other. */
  lemma ReleaseCommutes(b: Book, r: nat, w: nat, answer: Answer)
    requires r in b.objs && w in b.waits && b.waits[w].route == r && w !in b.objs[r].waiters
    requires b.objs[r].error == None && b.objs[r].drained
    ensures EndWait(MaybeRelease(b, r), w, answer) == MaybeRelease(EndWait(b, w, answer), r)
  {
    var c := EndWait(b, w, answer);
    assert Settled(b.objs, b.waits, {r}, Verdict(None))[w := c.waits[w]] == Settled(b.objs, c.waits, {r}, Verdict(None));
  }

  lemma ResumeKeepsInv(b: Book, w: nat, carrier: map<nat, nat>)
    requires Inv(b, carrier) && Known(b) && w in b.waits && b.waits[w].phase.Woken?
    ensures Inv(ResumeWait(b, w), carrier)
  {
    var r, failure := b.waits[w].route, b.waits[w].phase.outcome;
    assert WaitFits(w, b.waits[w], b.objs[r], b.claims);
    hide Inv, WaitFits, MaybeRelease;
    if failure != None {
      EndKeepsInv(b, w, Failed(failure.value), carrier);
    } else if b.objs[r].error != None {
      EndKeepsInv(b, w, Failed(b.objs[r].error.value), carrier);
    } else {
      assert b.objs[r].drained;
      var answer := Final(b, b.waits[w].wants);
      EndKeepsInv(b, w, answer, carrier);
      ReleaseCommutes(LeaveWaiters(b, w), r, w, answer);
      MaybeReleaseKeepsInv(EndWait(LeaveWaiters(b, w), w, answer), r, carrier);
    }
  }

  // ---------------------------------------------------------------------------
  // Claims, stages and disconnects
  // ---------------------------------------------------------------------------

  /** The index only names open claims, so a key that is in it is taken. */
  lemma ArmIsNew(b: Book, key: Key, call: string, c: nat)
    requires ClaimsFit(b.objs, b.claims, b.index) && key in b.routes && b.routes[key] in b.objs
    requires ArmClaim(b, key, call, c) != b
    ensures (key.session, call) !in b.index
  {
    var at := (key.session, call);
    if at in b.index {
      assert false;
    }
  }

  lemma ArmedClaims(objs: map<nat, Route>, claims: map<nat, Claim>, index: map<(string, string), nat>, r: nat, call: string,
                    c: nat)
    requires ClaimsFit(objs, claims, index) && c !in claims && r in objs && (objs[r].key.session, call) !in index
    ensures ClaimsFit(objs[r := objs[r].(claims := objs[r].claims + {c})],
                      claims[c := Claim(r, call, objs[r].resolved, false)], index[(objs[r].key.session, call) := c])
  {
    var o, cs := objs[r := objs[r].(claims := objs[r].claims + {c})], claims[c := Claim(r, call, objs[r].resolved, false)];
    var ix := index[(objs[r].key.session, call) := c];
    forall k | k in claims
      ensures ClaimFits(k, claims[k], o, ix)
    {
      assert ClaimFits(k, claims[k], objs, index);
    }
    forall at | at in index
      ensures IndexFits(at, index[at], o, cs)
    {
      assert IndexFits(at, index[at], objs, claims);
    }
  }

  /** Waits see no difference when a claim is armed or closed. */
  lemma WaitsIgnoreClaims(objs: map<nat, Route>, waits: map<nat, Wait>, claims: map<nat, Claim>, then_: map<nat, Claim>)
    requires WaitsFit(objs, waits, claims) && claims.Keys <= then_.Keys
    requires forall c :: c in claims ==>
               then_[c].route == claims[c].route && then_[c].ending == claims[c].ending && (claims[c].closed ==> then_[c].closed)
    ensures WaitsFit(objs, waits, then_)
  {
    forall w | w in waits
      ensures WaitFits(w, waits[w], objs[waits[w].route], then_)
    {
      assert WaitFits(w, waits[w], objs[waits[w].route], claims);
    }
  }

  /** Only the claims of one route change. */
  lemma OwnersKeepInv(b: Book, r: nat, owners: set<nat>, claims: map<nat, Claim>, index: map<(string, string), nat>,
                      carrier: map<nat, nat>)
    requires Inv(b, carrier) && r in b.objs
    requires ClaimsFit(b.objs[r := b.objs[r].(claims := owners)], claims, index)
    requires WaitsFit(b.objs, b.waits, claims)
    ensures Inv(b.(objs := b.objs[r := b.objs[r].(claims := owners)], claims := claims, index := index), carrier)
  {
    var n := b.objs[r].(claims := owners);
    var objs := b.objs[r := n];
    assert RouteFits(b.objs[r], InTable(b, r), r in b.stages);
    OneRouteFits(b, r, n);
    TablesIgnoreClaims(b.(objs := objs), claims, index);
    OneRouteRelations(b.objs, r, n);
    hide TablesFit, RoutesFit, RoutesCarried, PagesFit, ClaimsFit, WaitsFit, Grows;
    DeliveryFrame(b.objs, objs, b.pages, carrier);
    WaitsFrame(b.objs, objs, b.waits, claims);
  }

  lemma TablesIgnoreClaims(b: Book, claims: map<nat, Claim>, index: map<(string, string), nat>)
    requires TablesFit(b) && RoutesFit(b)
    ensures TablesFit(b.(claims := claims, index := index)) && RoutesFit(b.(claims := claims, index := index))
  {
    forall r | r in b.objs
      ensures RouteFits(b.objs[r], InTable(b, r), r in b.stages)
    {
    }
  }

  /** A new claim joins its route and the index. */
  function Armed(b: Book, r: nat, call: string, c: nat): Book
    requires r in b.objs
  {
    b.(claims := b.claims[c := Claim(r, call, b.objs[r].resolved, false)],
       index := b.index[(b.objs[r].key.session, call) := c],
       objs := b.objs[r := b.objs[r].(claims := b.objs[r].claims + {c})])
  }

  lemma ArmedWaits(b: Book, r: nat, call: string, c: nat)
    requires WaitsFit(b.objs, b.waits, b.claims) && r in b.objs && c !in b.claims
    ensures WaitsFit(b.objs, b.waits, Armed(b, r, call, c).claims)
  {
    hide WaitsFit;
    WaitsIgnoreClaims(b.objs, b.waits, b.claims, Armed(b, r, call, c).claims);
  }

  lemma ArmedKeepsInv(b: Book, r: nat, call: string, c: nat, carrier: map<nat, nat>)
    requires Inv(b, carrier) && r in b.objs && c !in b.claims && (b.objs[r].key.session, call) !in b.index
    ensures Inv(Armed(b, r, call, c), carrier)
  {
    hide TablesFit, RoutesFit, RoutesCarried, PagesFit, WaitsFit, ClaimsFit;
    ArmedClaims(b.objs, b.claims, b.index, r, call, c);
    ArmedWaits(b, r, call, c);
    hide Inv;
    var d := Armed(b, r, call, c);
    OwnersKeepInv(b, r, d.objs[r].claims, d.claims, d.index, carrier);
  }

  lemma ArmKeepsInv(b: Book, key: Key, call: string, c: nat, carrier: map<nat, nat>)
    requires Inv(b, carrier) && Known(b) && c !in b.claims
    ensures Inv(ArmClaim(b, key, call, c), carrier)
  {
    if ArmClaim(b, key, call, c) != b {
      var r := b.routes[key];
      assert b.objs[r].key == key by { hide RoutesFit, RoutesCarried, PagesFit, WaitsFit, ClaimsFit; }
      hide TablesFit, RoutesFit, RoutesCarried, PagesFit, WaitsFit, ClaimsFit;
      ArmIsNew(b, key, call, c);
      hide Inv;
      ArmedKeepsInv(b, r, call, c, carrier);
    }
  }

  /** A claim leaves its route and the index. */
  function Closed(b: Book, c: nat): Book
    requires c in b.claims && b.claims[c].route in b.objs
  {
    var r := b.claims[c].route;
    var at := (b.objs[r].key.session, b.claims[c].call);
    b.(claims := b.claims[c := b.claims[c].(closed := true)],
       objs := b.objs[r := b.objs[r].(claims := b.objs[r].claims - {c})],
       index := if at in b.index && b.index[at] == c then b.index - {at} else b.index)
  }

  lemma ClosedClaims(b: Book, c: nat)
    requires ClaimsFit(b.objs, b.claims, b.index) && c in b.claims && b.claims[c].route in b.objs && !b.claims[c].closed
    ensures var d := Closed(b, c); ClaimsFit(d.objs, d.claims, d.index)
  {
    var d := Closed(b, c);
    assert ClaimFits(c, b.claims[c], b.objs, b.index);
    forall k | k in d.claims
      ensures ClaimFits(k, d.claims[k], d.objs, d.index)
    {
      assert ClaimFits(k, b.claims[k], b.objs, b.index);
    }
    forall at | at in d.index
      ensures IndexFits(at, d.index[at], d.objs, d.claims)
    {
      assert IndexFits(at, b.index[at], b.objs, b.claims);
    }
  }

  lemma CloseClaimKeepsInv(b: Book, c: nat, carrier: map<nat, nat>)
    requires Inv(b, carrier) && Known(b) && c in b.claims
    ensures Inv(CloseClaim(b, c), carrier)
  {
    if !b.claims[c].closed {
      var r, d := b.claims[c].route, Closed(b, c);
      ClosedClaims(b, c);
      WaitsIgnoreClaims(b.objs, b.waits, b.claims, d.claims);
      hide Inv, ClaimsFit, WaitsFit, MaybeRelease;
      OwnersKeepInv(b, r, d.objs[r].claims, d.claims, d.index, carrier);
      MaybeReleaseKeepsInv(d, r, carrier);
    }
  }

  lemma CloseStagesRelations(b: Book, rs: set<nat>)
    ensures var c := CloseStages(b, rs);
            Grows(b.objs, c.objs) &&
            forall r :: r in b.objs ==> SameClaims(b.objs[r], c.objs[r]) && SameWaits(b.objs[r], c.objs[r]) &&
                                        SameDelivery(b.objs[r], c.objs[r])
  {
  }

  lemma AbortTables(b: Book, rs: set<nat>)
    requires TablesFit(b) && RoutesFit(b)
    ensures TablesFit(AbortStages(b, rs)) && RoutesFit(AbortStages(b, rs))
  {
    hide Settled;
    var c := AbortStages(b, rs);
    forall r | r in c.objs
      ensures RouteFits(c.objs[r], InTable(c, r), r in c.stages)
    {
      assert RouteFits(b.objs[r], InTable(b, r), r in b.stages);
    }
  }

  lemma AbortKeepsInv(b: Book, rs: set<nat>, carrier: map<nat, nat>)
    requires Inv(b, carrier)
    ensures Inv(AbortStages(b, rs), carrier)
  {
    var objs, error := CloseStages(b, rs).objs, Some(StageAborted);
    AbortTables(b, rs);
    CloseStagesRelations(b, rs);
    RetiredRelations(objs, rs, error);
    hide TablesFit, RoutesFit, RoutesCarried, PagesFit, ClaimsFit, WaitsFit, Grows, Settled, Retired, Unlisted;
    DeliveryFrame(b.objs, objs, b.pages, carrier);
    ClaimsFrame(b.objs, objs, b.claims, b.index);
    WaitsFrame(b.objs, objs, b.waits, b.claims);
    DeliveryFrame(objs, Retired(objs, rs, error), b.pages, carrier);
    ClaimsFrame(objs, Retired(objs, rs, error), b.claims, b.index);
    RetiredWaitsFit(objs, b.waits, b.claims, rs, error);
  }

  lemma FailAllKeepsInv(b: Book, conn: Option<string>, failure: Failure, carrier: map<nat, nat>)
    requires Inv(b, carrier)
    ensures Inv(FailAll(b, conn, failure), carrier)
  {
    hide Inv, Retire, AbortStages;
    RetireKeepsInv(b, RoutesOf(b, conn), Some(failure), carrier);
    var c := Retire(b, RoutesOf(b, conn), Some(failure));
    AbortKeepsInv(c, StagesOf(c, conn), carrier);
  }

  /** The stage's route moves to the table, where no other route is left. */
  function Installed(b: Book, r: nat): Book
    requires r in b.objs
  {
    var n := b.objs[r].(staged := false, stageClosed := true);
    b.(objs := b.objs[r := n], stages := b.stages - {r}, routes := b.routes[n.key := r])
  }

  lemma InstalledTables(b: Book, r: nat)
    requires TablesFit(b) && RoutesFit(b) && r in b.objs && b.objs[r].staged && b.objs[r].key !in b.routes
    ensures TablesFit(Installed(b, r)) && RoutesFit(Installed(b, r))
  {
    var c := Installed(b, r);
    forall q | q in c.objs
      ensures RouteFits(c.objs[q], InTable(c, q), q in c.stages)
    {
      assert RouteFits(b.objs[q], InTable(b, q), q in b.stages);
    }
  }

  lemma InstallKeepsInv(b: Book, r: nat, carrier: map<nat, nat>)
    requires Inv(b, carrier) && r in b.objs && b.objs[r].staged && b.objs[r].key !in b.routes
    ensures Inv(Installed(b, r), carrier)
  {
    var n := b.objs[r].(staged := false, stageClosed := true);
    InstalledTables(b, r);
    OneRouteRelations(b.objs, r, n);
    hide TablesFit, RoutesFit, RoutesCarried, PagesFit, ClaimsFit, WaitsFit, Grows;
    DeliveryFrame(b.objs, b.objs[r := n], b.pages, carrier);
    ClaimsFrame(b.objs, b.objs[r := n], b.claims, b.index);
    WaitsFrame(b.objs, b.objs[r := n], b.waits, b.claims);
  }

  /** Telling the old route first or last makes no difference. */
  lemma FailCommutes(b: Book, old_: nat, r: nat, n: Route)
    requires old_ != r && r in b.objs
    requires n == b.objs[r].(staged := n.staged, stageClosed := n.stageClosed)
    ensures var c := b.(stages := b.stages - {r}, objs := b.objs[r := n]);
            var d, e := FailRoute(b, old_, Replaced), FailRoute(c, old_, Replaced);
            r in d.objs && d.objs[r] == b.objs[r] && e == d.(stages := d.stages - {r}, objs := d.objs[r := n])
  {
    var error := Some(Replaced);
    RetiredElsewhere(b.objs, old_, r, n, error);
    SettledElsewhere(b.objs, b.waits, old_, r, n, Verdict(error));
    hide Retired, Settled, Unlisted;
    assert b.stages - {r} - {old_} == b.stages - {old_} - {r};
  }

  lemma RetiredElsewhere(objs: map<nat, Route>, old_: nat, r: nat, n: Route, error: Option<Failure>)
    requires old_ != r && r in objs
    ensures r in Retired(objs, {old_}, error) && Retired(objs, {old_}, error)[r] == objs[r]
    ensures Retired(objs[r := n], {old_}, error) == Retired(objs, {old_}, error)[r := n]
  {
  }

  lemma SettledElsewhere(objs: map<nat, Route>, waits: map<nat, Wait>, old_: nat, r: nat, n: Route, outcome: Option<Failure>)
    requires old_ != r
    ensures Settled(objs[r := n], waits, {old_}, outcome) == Settled(objs, waits, {old_}, outcome)
  {
  }

  lemma CommitIsInstall(b: Book, r: nat)
    requires r in b.objs && b.objs[r].staged && !b.objs[r].stageClosed
    requires var key := b.objs[r].key; key in b.routes ==> b.routes[key] in b.objs && b.routes[key] != r
    ensures var key := b.objs[r].key;
            var d := if key in b.routes then FailRoute(b, b.routes[key], Replaced) else b;
            r in d.objs && d.objs[r] == b.objs[r] && key !in d.routes &&
            CommitStage(b, r) == MaybeRelease(Installed(d, r), r)
  {
    hide MaybeRelease, Retired, Settled;
    var key, n := b.objs[r].key, b.objs[r].(stageClosed := true);
    CloseOne(b, r);
    if key in b.routes {
      FailCommutes(b, b.routes[key], r, n);
      FailUnlists(b, key);
      var d := FailRoute(b, b.routes[key], Replaced);
      hide FailRoute, CloseStages, Unlisted;
      assert d.objs[r := n][r := n.(staged := false)] == d.objs[r := n.(staged := false)];
    } else {
      assert b.objs[r := n][r := n.(staged := false)] == b.objs[r := n.(staged := false)];
    }
  }

  lemma FailUnlists(b: Book, key: Key)
    requires key in b.routes
    ensures key !in FailRoute(b, b.routes[key], Replaced).routes
  {
  }

  lemma CommitKeepsInv(b: Book, r: nat, carrier: map<nat, nat>)
    requires Inv(b, carrier) && r in b.objs
    ensures Inv(CommitStage(b, r), carrier)
  {
    if b.objs[r].staged && !b.objs[r].stageClosed {
      CommitIsInstall(b, r);
      hide Inv, FailRoute, MaybeRelease, Installed, CommitStage;
      var key := b.objs[r].key;
      var d := if key in b.routes then FailRoute(b, b.routes[key], Replaced) else b;
      if key in b.routes {
        FailKeepsInv(b, b.routes[key], Replaced, carrier);
      }
      InstallKeepsInv(d, r, carrier);
      InstalledKnown(d, r);
      MaybeReleaseKeepsInv(Installed(d, r), r, carrier);
    }
  }

  lemma InstalledKnown(b: Book, r: nat)
    requires r in b.objs
    ensures r in Installed(b, r).objs
  {
  }

  lemma EffectKeepsInv(b: Book, a: Action, carrier: map<nat, nat>) returns (w: map<nat, nat>)
    requires Inv(b, carrier) && Known(b) && Enabled(b, a)
    requires a.DoRoute? || a.DoStage? || a.DoResolve? || a.DoAttach? || a.PageSettles? || a.DoFrame? || a.DoCommit? || a.DoAbort?
    ensures Inv(Step(b, a), w)
  {
    hide Inv, Retire, RouteFits, WaitOutput, WaitClaim, ResumeWait, ArmClaim, CloseClaim, FailAll, ReleaseInput, SettleInput;
    w := carrier;
    match a
    case DoRoute(key, conn, r) =>
      hide FrameDone, CommitStage, AbortStages, AttachPage, ResolvePage;
      if key !in b.routes {
        AddKeepsInv(b, r, key, conn, false, carrier);
      }
    case DoStage(key, conn, r) =>
      hide FrameDone, CommitStage, AbortStages, AttachPage, ResolvePage;
      AddKeepsInv(b, r, key, conn, true, carrier);
    case DoResolve(p, conn, complete, endings, order) =>
      hide FrameDone, CommitStage, AbortStages, AttachPage;
      ResolveKeepsInv(b, conn, complete, endings, order, map[], carrier);
      var (c, t) := ResolveRoutes(b, conn, complete, endings, order, map[]);
      if t != None {
        PageAddedKeepsInv(c, p, Page(conn, complete, t.value, Fresh), carrier);
      }
    case DoAttach(p) =>
      hide FrameDone, CommitStage, AbortStages, AttachPage, ResolvePage;
      AttachKeepsInv(b, p, carrier);
    case PageSettles(p, ok) =>
      hide FrameDone, CommitStage, AbortStages, AttachPage, ResolvePage;
      PageTurnKeepsInv(b, p, if ok then Written else Broken, carrier);
    case DoFrame(r) =>
      hide FrameDone, CommitStage, AbortStages, AttachPage, ResolvePage;
      w := FrameDoneKeepsInv(b, r, carrier);
    case DoCommit(r) =>
      hide FrameDone, CommitStage, AbortStages, AttachPage, ResolvePage;
      CommitKeepsInv(b, r, carrier);
    case DoAbort(r) =>
      hide FrameDone, CommitStage, AbortStages, AttachPage, ResolvePage;
      AbortKeepsInv(b, {r}, carrier);
  }

  lemma WaitStepKeepsInv(b: Book, a: Action, carrier: map<nat, nat>)
    requires Inv(b, carrier) && Known(b) && Enabled(b, a)
    requires a.DoWait? || a.DoWaitClaim? || a.DoResume? || a.CancelWait? || a.DoArm? || a.DoCloseClaim?
    ensures Inv(Step(b, a), carrier)
  {
    hide Inv, WaitOutput, WaitClaim, ResumeWait, ArmClaim, CloseClaim;
    match a
    case DoWait(w, r, message) => WaitOutputKeepsInv(b, w, r, message, carrier);
    case DoWaitClaim(w, c) => WaitClaimKeepsInv(b, w, c, carrier);
    case DoResume(w) => ResumeKeepsInv(b, w, carrier);
    case CancelWait(w) => EndKeepsInv(b, w, Interrupted, carrier);
    case DoArm(key, call, c) => ArmKeepsInv(b, key, call, c, carrier);
    case DoCloseClaim(c) => CloseClaimKeepsInv(b, c, carrier);
  }

  lemma EndingKeepsInv(b: Book, a: Action, carrier: map<nat, nat>)
    requires Inv(b, carrier) && Known(b) && Enabled(b, a) && (a.DoRelease? || a.DoSettle? || a.DoFail? || a.DoClose?)
    ensures Inv(Step(b, a), carrier)
  {
    if (a.DoRelease? || a.DoSettle?) && a.key in b.routes {
      assert !b.objs[b.routes[a.key]].staged;
    }
    assert a.DoClose? ==> Inv(b.(closed := true), carrier) by {
      ClosingKeepsInv(b, carrier);
    }
    hide Inv, FailAll, FailRoute, ReleaseRoute;
    if (a.DoRelease? || a.DoSettle?) && a.key in b.routes {
      ReleaseKeepsInv(b, b.routes[a.key], carrier);
      if a.DoSettle? && a.outcome != None {
        FailKeepsInv(b, b.routes[a.key], a.outcome.value, carrier);
      }
    } else if a.DoFail? {
      FailAllKeepsInv(b, Some(a.conn), a.failure, carrier);
    } else if a.DoClose? {
      FailAllKeepsInv(b.(closed := true), None, a.failure, carrier);
    }
  }

  lemma ClosingKeepsInv(b: Book, carrier: map<nat, nat>)
    requires Inv(b, carrier)
    ensures Inv(b.(closed := true), carrier)
  {
    hide RoutesCarried, PagesFit, ClaimsFit, WaitsFit;
    forall r | r in b.objs
      ensures RouteFits(b.objs[r], InTable(b, r), r in b.stages)
    {
    }
  }

  lemma StepKeepsInv(b: Book, a: Action, carrier: map<nat, nat>) returns (w: map<nat, nat>)
    requires Inv(b, carrier) && Known(b) && Enabled(b, a)
    ensures Inv(Step(b, a), w)
  {
    hide Inv, Step, Enabled, Known;
    w := carrier;
    if a.DoRelease? || a.DoSettle? || a.DoFail? || a.DoClose? {
      EndingKeepsInv(b, a, carrier);
    } else if a.DoWait? || a.DoWaitClaim? || a.DoResume? || a.CancelWait? || a.DoArm? || a.DoCloseClaim? {
      WaitStepKeepsInv(b, a, carrier);
    } else {
      w := EffectKeepsInv(b, a, carrier);
    }
  }

  lemma {:induction false} RunsKeepInv(states: seq<Book>, acts: seq<Action>, i: nat) returns (carrier: map<nat, nat>)
    requires IsRun(states, acts) && i < |states|
    ensures Inv(states[i], carrier) && Known(states[i])
  {
    if i == 0 {
      carrier := map[];
    } else {
      carrier := RunsKeepInv(states, acts, i - 1);
      assert Moves(states[i - 1], acts[i - 1], states[i - 1 + 1]);
      hide Inv, Step, Enabled;
      carrier := StepKeepsInv(states[i - 1], acts[i - 1], carrier);
      KnownFromInv(states[i], carrier);
    }
  }

  lemma FailKeepsInv(b: Book, r: nat, failure: Failure, carrier: map<nat, nat>)
    requires Inv(b, carrier)
    ensures Inv(FailRoute(b, r, failure), carrier)
  {
    hide Inv, Retire;
    RetireKeepsInv(b, {r}, Some(failure), carrier);
  }

  // ---------------------------------------------------------------------------
  // Main results
  // ---------------------------------------------------------------------------

  /** Main result: in every run, a route that is neither in the table nor a stage is
      drained or failed, and nobody is parked on it.  So whoever waits, waits on a route
      that can still be written, failed or released. */
  lemma NobodyHangs(states: seq<Book>, acts: seq<Action>, i: nat)
    requires IsRun(states, acts) && i < |states|
    ensures var b := states[i];
            && (forall r :: r in b.objs && !Homed(b, r) ==> b.objs[r].drained || b.objs[r].error != None)
            && (forall w :: w in b.waits && b.waits[w].phase == Parked ==>
                  var r := b.waits[w].route;
                  r in b.objs && Homed(b, r) && !b.objs[r].drained && b.objs[r].error == None && w in b.objs[r].waiters)
  {
    var carrier := RunsKeepInv(states, acts, i);
    var b := states[i];
    forall r | r in b.objs && !Homed(b, r)
      ensures b.objs[r].drained || b.objs[r].error != None
    {
      assert RouteFits(b.objs[r], InTable(b, r), r in b.stages);
    }
    forall w | w in b.waits && b.waits[w].phase == Parked
      ensures b.waits[w].route in b.objs && Homed(b, b.waits[w].route)
    {
      var r := b.waits[w].route;
      assert WaitFits(w, b.waits[w], b.objs[r], b.claims);
      assert RouteFits(b.objs[r], InTable(b, r), r in b.stages);
    }
  }

  /** Main result: whoever was told that message `m` is delivered waited on a route whose
      own resolver named `m`, as a complete output of its session, on a page that has
      been written. */
  lemma DeliveredMeansWritten(states: seq<Book>, acts: seq<Action>, i: nat, w: nat) returns (p: nat)
    requires IsRun(states, acts) && i < |states| && w in states[i].waits
    requires states[i].waits[w].phase == Ended(Delivered)
    ensures var b, wt := states[i], states[i].waits[w];
            && wt.route in b.objs && p in b.pages && b.pages[p].status == Written && wt.route in b.pages[p].tracked
            && var m := b.pages[p].tracked[wt.route];
            && b.objs[wt.route].expected == Some(m)
            && (b.objs[wt.route].key.session, m) in b.pages[p].complete
            && (wt.wants.Output? ==> wt.wants.message == m)
            && (wt.wants.Ending? ==> wt.wants.claim in b.claims && b.claims[wt.wants.claim].ending == Some(m))
  {
    var carrier := RunsKeepInv(states, acts, i);
    p := CarrierOf(states[i], w, carrier);
  }

  lemma CarrierOf(b: Book, w: nat, carrier: map<nat, nat>) returns (p: nat)
    requires Inv(b, carrier) && w in b.waits && b.waits[w].phase == Ended(Delivered)
    ensures var wt := b.waits[w];
            && wt.route in b.objs && p in b.pages && b.pages[p].status == Written && wt.route in b.pages[p].tracked
            && var m := b.pages[p].tracked[wt.route];
            && b.objs[wt.route].expected == Some(m)
            && (b.objs[wt.route].key.session, m) in b.pages[p].complete
            && (wt.wants.Output? ==> wt.wants.message == m)
            && (wt.wants.Ending? ==> wt.wants.claim in b.claims && b.claims[wt.wants.claim].ending == Some(m))
  {
    var wt := b.waits[w];
    var r := wt.route;
    assert WaitFits(w, wt, b.objs[r], b.claims);
    assert RouteFits(b.objs[r], InTable(b, r), r in b.stages);
    assert RouteCarried(r, b.objs[r], carrier, b.pages);
    p := carrier[r];
    assert PageFits(b.pages[p], b.objs);
    if wt.wants.Ending? {
      assert ClaimFits(wt.wants.claim, b.claims[wt.wants.claim], b.objs, b.index);
    }
  }

  /** A wait on a claim that is still open never ends without an ending: the answer
      "not resolved" needs a claim that was closed meanwhile. */
  lemma OpenClaimsAreResolved(states: seq<Book>, acts: seq<Action>, i: nat, w: nat)
    requires IsRun(states, acts) && i < |states| && w in states[i].waits
    requires states[i].waits[w].phase == Ended(Unresolved)
    ensures var b, wants := states[i], states[i].waits[w].wants;
            wants.Ending? && wants.claim in b.claims && b.claims[wants.claim].closed
  {
    var carrier := RunsKeepInv(states, acts, i);
    var b := states[i];
    assert WaitFits(w, b.waits[w], b.objs[b.waits[w].route], b.claims);
  }

  /** Main result: the index and the open claims are in bijection, and an open claim knows
      the ending of its route. */
  lemma ClaimsMatchIndex(states: seq<Book>, acts: seq<Action>, i: nat)
    requires IsRun(states, acts) && i < |states|
    ensures var b := states[i];
            && (forall at :: at in b.index ==> IndexFits(at, b.index[at], b.objs, b.claims))
            && (forall c :: c in b.claims && !b.claims[c].closed ==>
                  var r := b.claims[c].route;
                  r in b.objs && c in b.objs[r].claims && b.claims[c].ending == b.objs[r].resolved &&
                  var at := (b.objs[r].key.session, b.claims[c].call);
                  at in b.index && b.index[at] == c)
            && (forall r, c :: r in b.objs && c in b.objs[r].claims ==> c in b.claims && !b.claims[c].closed && b.claims[c].route == r)
  {
    hide TablesFit, RoutesFit, RoutesCarried, PagesFit, WaitsFit, IsRun;
    var carrier := RunsKeepInv(states, acts, i);
    var b := states[i];
    forall c | c in b.claims
      ensures ClaimFits(c, b.claims[c], b.objs, b.index)
    {
    }
  }

  /** What was decided about the ending of a route, and whether it was written, stays. */
  predicate Kept(o: Route, n: Route) {
    && (o.expected != None ==> n.expected == o.expected)
    && (o.drained ==> n.drained)
    && (o.error != None ==> n.error != None)
    && n.key == o.key
  }

  ghost predicate AllKept(objs: map<nat, Route>, then_: map<nat, Route>) {
    forall r :: r in objs ==> r in then_ && Kept(objs[r], then_[r])
  }

  lemma KeptTwice(a: map<nat, Route>, b: map<nat, Route>, c: map<nat, Route>)
    requires AllKept(a, b) && AllKept(b, c)
    ensures AllKept(a, c)
  {
    forall r | r in a
      ensures r in c && Kept(a[r], c[r])
    {
      assert Kept(a[r], b[r]) && Kept(b[r], c[r]);
    }
  }

  lemma RetireKeeps(b: Book, rs: set<nat>, error: Option<Failure>)
    requires error != None || forall r :: r in rs && r in b.objs ==> b.objs[r].error == None
    ensures AllKept(b.objs, Retire(b, rs, error).objs)
  {
    hide Settled, Unlisted;
  }

  lemma ReleaseKeeps(b: Book, r: nat)
    requires r in b.objs
    ensures AllKept(b.objs, ReleaseRoute(b, r).objs) && AllKept(b.objs, MaybeRelease(b, r).objs)
  {
    hide Retire;
    var o := b.objs[r];
    RetireKeeps(b, {r}, if o.error == None && !o.drained then Some(NoOutput) else o.error);
  }

  lemma OneKept(objs: map<nat, Route>, r: nat, n: Route)
    requires r in objs && Kept(objs[r], n)
    ensures AllKept(objs, objs[r := n])
  {
  }

  lemma {:induction false} ResolveKeeps(b: Book, conn: string, complete: set<(string, string)>, endings: map<nat, string>,
                                        order: seq<nat>, tracked: map<nat, string>)
    requires forall i :: 0 <= i < |order| ==> order[i] in b.objs
    ensures AllKept(b.objs, ResolveRoutes(b, conn, complete, endings, order, tracked).0.objs)
    decreases |order|
  {
    hide AllKept, Bind;
    NothingChanges(b);
    if order != [] {
      var r := order[0];
      if !Concerns(b.objs[r], conn, complete, endings, r) {
        ResolveKeeps(b, conn, complete, endings, order[1..], tracked);
      } else if b.objs[r].expected == None || b.objs[r].expected == Some(endings[r]) {
        var c := Bind(b, r, endings[r]);
        OneKept(b.objs, r, c.objs[r]);
        ResolveKeeps(c, conn, complete, endings, order[1..], tracked[r := endings[r]]);
        KeptTwice(b.objs, c.objs, ResolveRoutes(b, conn, complete, endings, order, tracked).0.objs);
      }
    }
  }

  lemma CommitKeeps(b: Book, r: nat)
    requires r in b.objs && b.objs[r].staged && !b.objs[r].stageClosed
    requires var key := b.objs[r].key; key in b.routes ==> b.routes[key] in b.objs && b.routes[key] != r
    ensures AllKept(b.objs, CommitStage(b, r).objs)
  {
    CommitIsInstall(b, r);
    var key := b.objs[r].key;
    var d := if key in b.routes then FailRoute(b, b.routes[key], Replaced) else b;
    NothingChanges(b);
    if key in b.routes {
      RetireKeeps(b, {b.routes[key]}, Some(Replaced));
    }
    OneKept(d.objs, r, d.objs[r].(staged := false, stageClosed := true));
    hide AllKept, FailRoute, CommitStage, MaybeRelease;
    ReleaseKeeps(Installed(d, r), r);
    KeptTwice(b.objs, d.objs, Installed(d, r).objs);
    KeptTwice(b.objs, Installed(d, r).objs, CommitStage(b, r).objs);
  }

  lemma FailAllKeeps(b: Book, conn: Option<string>, failure: Failure)
    ensures AllKept(b.objs, FailAll(b, conn, failure).objs)
  {
    hide AbortStages, Retire, AllKept, RoutesOf, StagesOf;
    RetireKeeps(b, RoutesOf(b, conn), Some(failure));
    var d := Retire(b, RoutesOf(b, conn), Some(failure));
    AbortKeeps(d, StagesOf(d, conn));
    KeptTwice(b.objs, d.objs, FailAll(b, conn, failure).objs);
  }

  lemma AbortKeeps(b: Book, rs: set<nat>)
    ensures AllKept(b.objs, AbortStages(b, rs).objs)
  {
    var c := CloseStages(b, rs);
    RetireKeeps(c, rs, Some(StageAborted));
    hide Retire;
    assert AllKept(b.objs, c.objs);
    KeptTwice(b.objs, c.objs, AbortStages(b, rs).objs);
  }

  lemma DrainKeeps(b: Book, r: nat)
    requires r in b.objs
    ensures AllKept(b.objs, MaybeRelease(Drain(b, r), r).objs)
  {
    hide Settled, AllKept, MaybeRelease;
    var c := Drain(b, r);
    OneKept(b.objs, r, c.objs[r]);
    ReleaseKeeps(c, r);
    KeptTwice(b.objs, c.objs, MaybeRelease(c, r).objs);
  }

  lemma BreakKeeps(b: Book, r: nat)
    requires r in b.objs
    ensures AllKept(b.objs, FailRoute(b.(objs := b.objs[r := b.objs[r].(due := false)]), r, Given("write failed")).objs)
  {
    hide AllKept, Retire;
    var c := b.(objs := b.objs[r := b.objs[r].(due := false)]);
    OneKept(b.objs, r, c.objs[r]);
    RetireKeeps(c, {r}, Some(Given("write failed")));
    KeptTwice(b.objs, c.objs, FailRoute(c, r, Given("write failed")).objs);
  }

  lemma DoneKeeps(b: Book, r: nat)
    requires r in b.objs && b.objs[r].written != None && b.objs[r].written.value in b.pages
    ensures AllKept(b.objs, FrameDone(b, r).objs)
  {
    hide Settled, AllKept, FailRoute, MaybeRelease;
    var o := b.objs[r];
    if b.pages[o.written.value].status == Broken {
      BreakKeeps(b, r);
    } else {
      DrainKeeps(b, r);
      assert b.objs[r := o.(due := false)][r := o.(due := false, written := None, drained := true)]
          == b.objs[r := o.(due := false, written := None, drained := true)];
    }
  }

  lemma EnterKeeps(b: Book, w: nat, r: nat, wants: Wants)
    requires r in b.objs
    ensures AllKept(b.objs, EnterWait(b, w, r, wants).objs)
  {
    hide AllKept;
    NothingChanges(b);
    OneKept(b.objs, r, b.objs[r].(waiters := b.objs[r].waiters + {w}));
  }

  lemma WaitOutputKeeps(b: Book, w: nat, r: nat, message: string)
    requires r in b.objs
    ensures AllKept(b.objs, WaitOutput(b, w, r, message).objs)
  {
    hide AllKept, EnterWait;
    NothingChanges(b);
    if b.objs[r].expected == None || b.objs[r].expected == Some(message) {
      var c := b.(objs := b.objs[r := b.objs[r].(expected := Some(message))]);
      OneKept(b.objs, r, c.objs[r]);
      EnterKeeps(c, w, r, Output(message));
      KeptTwice(b.objs, c.objs, WaitOutput(b, w, r, message).objs);
    }
  }

  lemma ResumeKeeps(b: Book, w: nat)
    requires w in b.waits && b.waits[w].route in b.objs && b.waits[w].phase.Woken?
    ensures AllKept(b.objs, ResumeWait(b, w).objs)
  {
    hide AllKept, MaybeRelease;
    var r, c := b.waits[w].route, LeaveWaiters(b, w);
    OneKept(b.objs, r, b.objs[r].(waiters := b.objs[r].waiters - {w}));
    ReleaseKeeps(c, r);
    KeptTwice(b.objs, c.objs, MaybeRelease(c, r).objs);
  }

  lemma CloseClaimKeeps(b: Book, c: nat)
    requires c in b.claims && b.claims[c].route in b.objs
    ensures AllKept(b.objs, CloseClaim(b, c).objs)
  {
    hide AllKept, MaybeRelease;
    NothingChanges(b);
    if !b.claims[c].closed {
      var r, d := b.claims[c].route, Closed(b, c);
      OneKept(b.objs, r, b.objs[r].(claims := b.objs[r].claims - {c}));
      ReleaseKeeps(d, r);
      KeptTwice(b.objs, d.objs, MaybeRelease(d, r).objs);
    }
  }

  lemma ArmKeeps(b: Book, key: Key, call: string, c: nat)
    requires key in b.routes ==> b.routes[key] in b.objs
    ensures AllKept(b.objs, ArmClaim(b, key, call, c).objs)
  {
    hide AllKept;
    NothingChanges(b);
    if key in b.routes {
      var r := b.routes[key];
      OneKept(b.objs, r, b.objs[r].(claims := b.objs[r].claims + {c}));
    }
  }

  lemma CancelKeeps(b: Book, w: nat)
    requires w in b.waits && b.waits[w].route in b.objs
    ensures AllKept(b.objs, EndWait(LeaveWaiters(b, w), w, Interrupted).objs)
  {
    hide AllKept;
    var r := b.waits[w].route;
    OneKept(b.objs, r, b.objs[r].(waiters := b.objs[r].waiters - {w}));
  }

  lemma StepKeeps(b: Book, a: Action)
    requires TablesFit(b) && Known(b) && Enabled(b, a)
    ensures AllKept(b.objs, Step(b, a).objs)
  {
    hide FrameDone, Retire, MaybeRelease, ResolveRoutes, CommitStage, AbortStages, FailAll, WaitOutput, WaitClaim,
         ResumeWait, ArmClaim, CloseClaim, AttachPage, ReleaseRoute, AllKept, Homed, EnterWait;
    NothingChanges(b);
    match a
    case DoRoute(_, _, _) => AddKeeps(b, a);
    case DoStage(_, _, _) => AddKeeps(b, a);
    case DoResolve(_, conn, complete, endings, order) => ResolveKeeps(b, conn, complete, endings, order, map[]);
    case DoAttach(p) => AttachKeeps(b, p);
    case DoFrame(r) => DoneKeeps(b, r);
    case DoWait(w, r, message) => WaitOutputKeeps(b, w, r, message);
    case DoWaitClaim(w, c) => ClaimWaitKeeps(b, w, c);
    case DoResume(w) => ResumeKeeps(b, w);
    case CancelWait(w) => CancelKeeps(b, w);
    case DoArm(key, call, c) => ArmKeeps(b, key, call, c);
    case DoCloseClaim(c) => CloseClaimKeeps(b, c);
    case DoRelease(_) => InputKeeps(b, a);
    case DoSettle(_, _) => InputKeeps(b, a);
    case DoCommit(r) => CommitStepKeeps(b, r);
    case DoAbort(r) => AbortKeeps(b, {r});
    case DoFail(conn, failure) => FailAllKeeps(b, Some(conn), failure);
    case DoClose(failure) => FailAllKeeps(b.(closed := true), None, failure);
    case _ =>
  }

  lemma ClaimWaitKeeps(b: Book, w: nat, c: nat)
    requires c in b.claims && b.claims[c].route in b.objs
    ensures AllKept(b.objs, WaitClaim(b, w, c).objs)
  {
    hide AllKept, EnterWait;
    NothingChanges(b);
    EnterKeeps(b, w, b.claims[c].route, Ending(c));
  }

  lemma CommitStepKeeps(b: Book, r: nat)
    requires TablesFit(b) && r in b.objs
    ensures AllKept(b.objs, CommitStage(b, r).objs)
  {
    if b.objs[r].staged && !b.objs[r].stageClosed {
      CommitKeeps(b, r);
    } else {
      NothingChanges(b);
    }
  }

  lemma InputKeeps(b: Book, a: Action)
    requires Known(b) && Enabled(b, a) && (a.DoRelease? || a.DoSettle?)
    ensures AllKept(b.objs, Step(b, a).objs)
  {
    hide Retire, MaybeRelease, AllKept, ReleaseRoute, Homed;
    NothingChanges(b);
    if a.key in b.routes {
      ReleaseKeeps(b, b.routes[a.key]);
      if a.DoSettle? && a.outcome != None {
        RetireKeeps(b, {b.routes[a.key]}, a.outcome);
      }
    }
  }

  lemma AddKeeps(b: Book, a: Action)
    requires Known(b) && Enabled(b, a) && (a.DoRoute? || a.DoStage?)
    ensures AllKept(b.objs, Step(b, a).objs)
  {
    hide Homed;
  }

  lemma AttachKeeps(b: Book, p: nat)
    requires p in b.pages
    ensures AllKept(b.objs, AttachPage(b, p).objs)
  {
  }

  lemma NothingChanges(b: Book)
    ensures AllKept(b.objs, b.objs)
  {
  }

  /** Main result: over any run the expected output of a route is fixed once, and a route
      that was drained or failed stays so. */
  lemma {:induction false} EndingsAreFixedOnce(states: seq<Book>, acts: seq<Action>, i: nat, j: nat)
    requires IsRun(states, acts) && i <= j < |states|
    ensures AllKept(states[i].objs, states[j].objs)
    decreases j - i
  {
    hide Moves, AllKept;
    if i == j {
      NothingChanges(states[i]);
    } else {
      EndingsAreFixedOnce(states, acts, i, j - 1);
      OneStepKeeps(states, acts, j - 1);
      KeptTwice(states[i].objs, states[j - 1].objs, states[j].objs);
    }
  }

  lemma OneStepKeeps(states: seq<Book>, acts: seq<Action>, i: nat)
    requires IsRun(states, acts) && i < |acts|
    ensures AllKept(states[i].objs, states[i + 1].objs)
  {
    var carrier := RunsKeepInv(states, acts, i);
    assert TablesFit(states[i]);
    hide Inv, Step, Enabled, AllKept, TablesFit;
    assert Moves(states[i], acts[i], states[i + 1]);
    StepKeeps(states[i], acts[i]);
  }

  // ---------------------------------------------------------------------------
  // A stage whose page write broke
  // ---------------------------------------------------------------------------

  /** A stage that has left the stage set can still be committed, and its route comes into
      the table like any other, unless it is written and unclaimed.  Whether it is a live
      one is decided by the stage: the route is dead exactly when its stage was no longer
      in the set. */
  lemma CommitInstallsDeadRouteIffStageGone(b: Book, r: nat, carrier: map<nat, nat>)
    requires Inv(b, carrier) && r in b.objs && b.objs[r].staged && !b.objs[r].stageClosed
    ensures r in CommitStage(b, r).objs
    ensures CommitStage(b, r).objs[r].error != None <==> r !in b.stages
    ensures InTable(CommitStage(b, r), r) <==> !b.objs[r].drained || b.objs[r].claims != {}
  {
    hide Inv, FailRoute, CommitStage, MaybeRelease;
    StageFacts(b, r, carrier);
    CommitIsInstall(b, r);
    var key := b.objs[r].key;
    var d := if key in b.routes then FailRoute(b, b.routes[key], Replaced) else b;
    InstalledIsReleased(Installed(d, r), r);
  }

  lemma StageFacts(b: Book, r: nat, carrier: map<nat, nat>)
    requires Inv(b, carrier) && r in b.objs && b.objs[r].staged && !b.objs[r].stageClosed
    ensures b.objs[r].error == None <==> r in b.stages
    ensures var key := b.objs[r].key; key in b.routes ==> b.routes[key] in b.objs && b.routes[key] != r
  {
    RouteIsFit(b, r);
  }

  lemma InstalledIsReleased(b: Book, r: nat)
    requires r in b.objs && InTable(b, r) && !b.objs[r].staged
    ensures r in MaybeRelease(b, r).objs && MaybeRelease(b, r).objs[r].error == b.objs[r].error
    ensures InTable(MaybeRelease(b, r), r) <==> !b.objs[r].drained || b.objs[r].claims != {}
  {
    hide Settled;
  }

  const KEY := Key("s", "i")
  const DEAD := NewRoute(KEY, "new", true).(expected := Some("m"), resolved := Some("m"), written := Some(0),
                                            error := Some(Given("write failed")))

  /** A live route, and a resume whose page could not be written. */
  const BROKEN := Book(map[0 := NewRoute(KEY, "old", false), 1 := DEAD], map[KEY := 0], {}, map[], map[], map[],
                       map[0 := Page("new", {("s", "m")}, map[1 := "m"], Broken)], false)

  const LIVE := NewRoute(KEY, "old", false)
  const NAMED := NewRoute(KEY, "new", true).(expected := Some("m"), resolved := Some("m"))
  const PAGE := Page("new", {("s", "m")}, map[1 := "m"], Fresh)

  const STAGED := EMPTY.(objs := map[0 := LIVE, 1 := NewRoute(KEY, "new", true)], routes := map[KEY := 0], stages := {1})
  const RESOLVED := STAGED.(objs := map[0 := LIVE, 1 := NAMED], pages := map[0 := PAGE])
  const ATTACHED := STAGED.(objs := map[0 := LIVE, 1 := NAMED.(written := Some(0), due := true)],
                            pages := map[0 := PAGE.(status := Attached)])

  lemma TwoRoutesAreReached(acts: seq<Action>) returns (states: seq<Book>)
    requires acts == [DoRoute(KEY, "old", 0), DoStage(KEY, "new", 1)]
    ensures IsRun(states, acts) && states[2] == STAGED
  {
    var s1 := EMPTY.(objs := map[0 := LIVE], routes := map[KEY := 0]);
    assert Moves(EMPTY, acts[0], s1);
    assert Moves(s1, acts[1], STAGED);
    hide Moves;
    states := [EMPTY, s1, STAGED];
  }

  lemma ResolvesToSecond(b: Book, conn: string)
    requires 0 in b.objs && b.objs[0].conn != conn
    requires 1 in b.objs && b.objs[1].conn == conn && b.objs[1].key.session == "s" && b.objs[1].expected == None
    ensures ResolveRoutes(b, conn, {("s", "m")}, map[1 := "m"], [0, 1], map[]) == (Bind(b, 1, "m"), Some(map[1 := "m"]))
  {
    var e: map<nat, string> := map[1 := "m"];
    assert [0, 1][1..] == [1] && [1][1..] == [];
    assert ResolveRoutes(b, conn, {("s", "m")}, e, [1], map[]) == ResolveRoutes(Bind(b, 1, "m"), conn, {("s", "m")}, e, [], e);
  }

  /** Committing it replaces the live route by the dead one. */
  lemma DeadStageReplacesLiveRoute() returns (states: seq<Book>, acts: seq<Action>)
    ensures IsRun(states, acts) && states[|acts|] == BROKEN
    ensures BROKEN.objs[0].error == None && InTable(BROKEN, 0)
    ensures var b := CommitStage(BROKEN, 1);
            1 in b.objs && InTable(b, 1) && b.objs[1].error != None && 0 in b.objs && b.objs[0].error == Some(Replaced)
  {
    var first := [DoRoute(KEY, "old", 0), DoStage(KEY, "new", 1)];
    var start := TwoRoutesAreReached(first);
    var tail, last := StageBreaks(start[2]);
    acts, states := first + last, start + tail[1..];
    assert forall i :: |first| <= i < |acts| ==> states[i] == tail[i - |first|] && acts[i] == last[i - |first|];
    hide Moves;
  }

  lemma StageResolves()
    ensures Moves(STAGED, DoResolve(0, "new", {("s", "m")}, map[1 := "m"], [0, 1]), RESOLVED)
  {
    ResolvesToSecond(STAGED, "new");
    assert Bind(STAGED, 1, "m").objs == RESOLVED.objs && Bind(STAGED, 1, "m").claims == map[];
    hide ResolveRoutes, Bind;
  }

  lemma StageAttaches()
    ensures Moves(RESOLVED, DoAttach(0), ATTACHED)
  {
    assert AttachPage(RESOLVED, 0).objs == ATTACHED.objs;
  }

  lemma WriteBreaks(b: Book)
    requires b == ATTACHED.(pages := map[0 := PAGE.(status := Broken)])
    ensures Moves(b, DoFrame(1), BROKEN)
  {
    var c := FrameDone(b, 1);
    assert c.objs == BROKEN.objs && c.routes == BROKEN.routes && c.waits == BROKEN.waits;
    hide Retired, Settled, Unlisted;
  }

  lemma StageBreaks(b: Book) returns (states: seq<Book>, acts: seq<Action>)
    requires b == STAGED
    ensures |states| == |acts| + 1 && states[0] == b && states[|acts|] == BROKEN
    ensures forall i :: 0 <= i < |acts| ==> Moves(states[i], acts[i], states[i + 1])
  {
    var s3 := ATTACHED.(pages := map[0 := PAGE.(status := Broken)]);
    acts := [DoResolve(0, "new", {("s", "m")}, map[1 := "m"], [0, 1]), DoAttach(0), PageSettles(0, false), DoFrame(1)];
    assert Moves(ATTACHED, acts[2], s3);
    hide Moves;
    StageResolves();
    StageAttaches();
    WriteBreaks(s3);
    states := [b, RESOLVED, ATTACHED, s3, BROKEN];
  }
}
