/** When the message log takes a write, and what the write changes. */
module Effects {
  import opened Codec
  import opened MessageLog
  import opened Wrappers

  // ---------------------------------------------------------------------------
  // Parts
  // ---------------------------------------------------------------------------

  /** The part is granted and its owner accepted it. */
  predicate Allowed(g: Grant, verdicts: map<Part, Refs>, p: Part) {
    (if p.Call? then g.mayCall else p.kind in g.contents) && p in verdicts
  }

  function BindingsOf(verdicts: map<Part, Refs>, p: Part): set<string> {
    if p.Call? then {p.binding} else if p in verdicts then verdicts[p].bindings else {}
  }

  function ArtifactsOf(verdicts: map<Part, Refs>, p: Part): seq<string> {
    if p.Content? && p in verdicts then verdicts[p].artifacts else []
  }

  predicate Has(l: List<Part>, p: Part) {
    l.Cons? && (l.head == p || Has(l.tail, p))
  }

  lemma {:induction false} CollectSucceeds(g: Grant, verdicts: map<Part, Refs>, l: List<Part>)
    ensures Collect(g, verdicts, l).Ok? <==> forall p :: Has(l, p) ==> Allowed(g, verdicts, p)
  {
    if l.Cons? {
      CollectSucceeds(g, verdicts, l.tail);
      if !Allowed(g, verdicts, l.head) {
        assert Has(l, l.head);
      } else if Collect(g, verdicts, l.tail).Err? {
        var p :| Has(l.tail, p) && !Allowed(g, verdicts, p);
        assert Has(l, p);
      } else {
        forall p | Has(l, p)
          ensures Allowed(g, verdicts, p)
        {
          assert p == l.head || Has(l.tail, p);
        }
      }
    }
  }

  /** What is gathered is what some part refers to. */
  lemma {:induction false} CollectGathers(g: Grant, verdicts: map<Part, Refs>, l: List<Part>, x: string)
    requires Collect(g, verdicts, l).Ok?
    ensures x in Collect(g, verdicts, l).value.bindings <==> exists p :: Has(l, p) && x in BindingsOf(verdicts, p)
    ensures x in Collect(g, verdicts, l).value.artifacts <==> exists p :: Has(l, p) && x in ArtifactsOf(verdicts, p)
  {
    if l.Cons? {
      CollectGathers(g, verdicts, l.tail, x);
      assert Has(l, l.head);
      if p :| Has(l.tail, p) && x in BindingsOf(verdicts, p) {
        assert Has(l, p);
      }
      if p :| Has(l.tail, p) && x in ArtifactsOf(verdicts, p) {
        assert Has(l, p);
      }
      if p :| Has(l, p) && x in BindingsOf(verdicts, p) {
        assert p == l.head || Has(l.tail, p);
      }
      if p :| Has(l, p) && x in ArtifactsOf(verdicts, p) {
        assert p == l.head || Has(l.tail, p);
      }
    }
  }

  // ---------------------------------------------------------------------------
  // When a new message is taken
  // ---------------------------------------------------------------------------

  /** The metadata is a JSON mapping with proper names that this writer may use. */
  predicate MetadataGranted(g: Grant, r: Request) {
    && r.metadata.Mapped? && Freeze(r.metadata).Some? && "" !in Names(r.metadata.entries) && r.metadataFits
    && (g.checksMetadata ==> r.metadata.entries.Nil? || r.metadataOk)
    && (!g.checksMetadata ==> Names(r.metadata.entries) <= g.messageKeys)
  }

  /** Every part is granted and accepted, its artifacts are published and its bindings known. */
  ghost predicate PartsGranted(db: Db, g: Grant, r: Request) {
    r.body.Control? ||
    forall p :: Has(r.body.parts, p) ==>
                  && Allowed(g, r.verdicts, p)
                  && (forall a :: a in ArtifactsOf(r.verdicts, p) ==> a in db.ready)
                  && BindingsOf(r.verdicts, p) <= db.bindings
  }

  /** A real call of this session and source that has no result yet. */
  ghost predicate Callable(db: Db, g: Grant, message: string, index: int) {
    && (exists m :: m in db.messages && m.id == message && m.session == g.session && m.source == g.source && HasCallAt(m, index))
    && (forall m :: m in db.messages ==> !IsResultOf(m, message, index))
  }

  /** The session keys to change are granted, and what results is JSON or makes no
      difference. */
  ghost predicate UpdateGranted(db: Db, g: Grant, r: Request) {
    && r.update.Some? && r.update.value.Keys <= g.sessionKeys
    && var before := SessionOf(db, g.session).metadata;
       var merged := Merge(before, r.update.value);
       SameItems(merged, before) || forall k :: k in merged ==> Freeze(merged[k]).Some?
  }

  ghost predicate Admissible(db: Db, g: Grant, r: Request) {
    && KindOf(r.body) in g.kinds && (r.body.ToolResult? ==> g.call == Some((r.body.message, r.body.index)))
    && !(r.body.ToolResult? && r.body.legacy) && MetadataGranted(g, r) && r.active
    && (r.expectedHead == None || r.expectedHead.value == SourceHead(db.messages, g.session, g.source))
    && PartsGranted(db, g, r)
    && (r.body.ToolResult? ==> Callable(db, g, r.body.message, r.body.index))
    && UpdateGranted(db, g, r)
    && r.id != "" && g.session != "" && g.author != "" && g.source != ""
    && (r.body.Control? ==> r.body.through < SessionOf(db, g.session).nextSeq)
  }

  lemma PartsChecked(db: Db, g: Grant, r: Request)
    ensures CheckParts(db, g, r).Ok? && CheckParts(db, g, r).value.bindings <= db.bindings <==> PartsGranted(db, g, r)
  {
    if !r.body.Control? {
      var l := r.body.parts;
      CollectSucceeds(g, r.verdicts, l);
      hide Collect, Allowed;
      if Collect(g, r.verdicts, l).Ok? {
        var refs := Collect(g, r.verdicts, l).value;
        forall x: string
          ensures x in refs.bindings <==> exists p :: Has(l, p) && x in BindingsOf(r.verdicts, p)
          ensures x in refs.artifacts <==> exists p :: Has(l, p) && x in ArtifactsOf(r.verdicts, p)
        {
          CollectGathers(g, r.verdicts, l, x);
        }
      }
    }
  }

  lemma ResultChecked(db: Db, g: Grant, message: string, index: int)
    requires Chain(db.messages)
    ensures CheckResult(db, g, message, index) == None <==> Callable(db, g, message, index)
  {
    hide Chain, Find, HasCallAt, IsResultOf;
    if m :| m in db.messages && m.id == message && m.session == g.session && m.source == g.source && HasCallAt(m, index) {
      FindsStored(db.messages, m);
    }
  }

  /** What is decided about a new id after its text and metadata. */
  lemma AdmittedNewIff(db: Db, g: Grant, r: Request, text: Json, metadata: Json)
    requires Chain(db.messages) && r.metadata.Mapped?
    ensures var v := AdmitNew(db, g, r, text, metadata);
            && !v.Replay?
            && (v.Fresh? <==>
                  && r.active && (g.checksMetadata ==> r.metadata.entries.Nil? || r.metadataOk)
                  && (r.expectedHead == None || r.expectedHead.value == SourceHead(db.messages, g.session, g.source))
                  && CheckParts(db, g, r).Ok?
                  && (r.body.ToolResult? ==> Callable(db, g, r.body.message, r.body.index))
                  && r.update.Some? && r.update.value.Keys <= g.sessionKeys)
            && (v.Fresh? ==> v.text == text && v.metadata == metadata && v.update == r.update.value &&
                             CheckParts(db, g, r) == Ok(v.refs))
  {
    if r.body.ToolResult? {
      ResultChecked(db, g, r.body.message, r.body.index);
    }
    hide Chain, Callable, CheckResult, CheckParts, SourceHead;
  }

  /** Everything that is decided before the first row. */
  lemma AdmittedIff(db: Db, g: Grant, r: Request)
    requires Chain(db.messages) && Valid(r.body) && Find(db.messages, r.id) == None
    ensures var v := Admit(db, g, r);
            v.Fresh? <==>
              && Granted(g, r.body) && !(r.body.ToolResult? && r.body.legacy) && MetadataGranted(g, r) && r.active
              && (r.expectedHead == None || r.expectedHead.value == SourceHead(db.messages, g.session, g.source))
              && CheckParts(db, g, r).Ok?
              && (r.body.ToolResult? ==> Callable(db, g, r.body.message, r.body.index))
              && r.update.Some? && r.update.value.Keys <= g.sessionKeys
    ensures var v := Admit(db, g, r);
            v.Fresh? ==> v.update == r.update.value && CheckParts(db, g, r) == Ok(v.refs) && Encode(r.body, false) == Some(v.text) &&
                         Freeze(r.metadata).Some? && v.metadata == Tree(Freeze(r.metadata).value)
    ensures !Admit(db, g, r).Replay?
  {
    EncodeNewRefusesLegacy(r.body);
    hide Encode, Freeze, Chain, Callable, AdmitNew, CheckParts, SourceHead, Granted, Valid, Find, Names;
    if r.metadata.Mapped? && Freeze(r.metadata).Some? && Encode(r.body, false).Some? {
      AdmittedNewIff(db, g, r, Encode(r.body, false).value, Tree(Freeze(r.metadata).value));
    }
  }

  /** The rows go in exactly when the names are there, the bindings are known, a Control
      points back, and the new session metadata is JSON. */
  lemma WrittenIff(db: Db, g: Grant, r: Request, v: Verdict)
    requires Inv(db) && v.Fresh?
    ensures var before := SessionOf(db, g.session);
            var merged := Merge(before.metadata, v.update);
            Write(db, g, r, v).1.Ok? <==>
              && r.id != "" && g.session != "" && g.author != "" && g.source != ""
              && (r.body.Control? ==> r.body.through < before.nextSeq)
              && v.refs.bindings <= db.bindings
              && (SameItems(merged, before.metadata) || forall k :: k in merged ==> Freeze(merged[k]).Some?)
  {
    NextSeqIsCount(db, g.session);
    forall x | x in db.messages && x.session == g.session
      ensures x.seqNo != SessionOf(db, g.session).nextSeq
    {
      SeqBelowCount(db.messages, x);
    }
    hide Inv, Chain, Rows, Freeze, Merge, SessionOf, SameItems;
  }

  /** Main result: a new id is taken if and only if the request is admissible, and a refused
      append changes nothing. */
  lemma NewIsAppendedIff(db: Db, g: Grant, r: Request)
    requires Inv(db) && Valid(r.body) && Find(db.messages, r.id) == None
    ensures Append(db, g, r).1.Ok? <==> Admissible(db, g, r)
    ensures Append(db, g, r).1.Err? ==> Append(db, g, r).0 == db
  {
    AdmittedIff(db, g, r);
    PartsChecked(db, g, r);
    var v := Admit(db, g, r);
    if v.Fresh? {
      WrittenIff(db, g, r, v);
    }
    hide Admit, Write, PartsGranted, Callable, MetadataGranted, CheckParts, SourceHead, SessionOf, Merge, Freeze, SameItems, Inv, Valid,
         Find;
  }

  // ---------------------------------------------------------------------------
  // What a taken message changes
  // ---------------------------------------------------------------------------

  /** The values as they are stored, with keys in order. */
  function Stored(values: map<string, Value>): map<string, Value> {
    map k | k in values && Freeze(values[k]).Some? :: Norm(Freeze(values[k]).value)
  }

  /** The update makes no difference that Python sees: what goes is not there, and what
      comes is there already or equals what is. */
  ghost predicate Idle(before: map<string, Value>, update: map<string, Option<Value>>) {
    forall k :: k in update ==>
      match update[k]
      case None => k !in before
      case Some(v) => k in before && (v == before[k] || Equal(v, before[k]))
  }

  /** An idle update changes nothing.  Any other is stored as a whole: its keys get their
      values, or go, and every other key stays, with what it held. */
  ghost predicate Updated(before: map<string, Value>, update: map<string, Option<Value>>, after: map<string, Value>) {
    if Idle(before, update) then after == before
    else forall k ::
      if k in update then
        (k in after <==> update[k].Some?) &&
        (k in after ==> Freeze(update[k].value).Some? && after[k] == Norm(Freeze(update[k].value).value))
      else (k in after <==> k in before) && (k in after ==> Freeze(before[k]).Some? && after[k] == Norm(Freeze(before[k]).value))
  }

  lemma MergedAt(before: map<string, Value>, update: map<string, Option<Value>>, k: string)
    ensures var merged := Merge(before, update);
            if k in update then (k in merged <==> update[k].Some?) && (k in merged ==> merged[k] == update[k].value)
            else (k in merged <==> k in before) && (k in merged ==> merged[k] == before[k])
  {
  }

  /** Main result: the merged metadata is dropped if and only if no key of the update comes,
      goes or gets a value that Python calls different. */
  lemma DroppedIffIdle(before: map<string, Value>, update: map<string, Option<Value>>)
    ensures SameItems(Merge(before, update), before) <==> Idle(before, update)
  {
    var merged := Merge(before, update);
    forall k: string
      ensures if k in update then (k in merged <==> update[k].Some?) && (k in merged ==> merged[k] == update[k].value)
              else (k in merged <==> k in before) && (k in merged ==> merged[k] == before[k])
    {
      MergedAt(before, update, k);
    }
    hide Merge, Equal;
    if SameItems(merged, before) {
      assert forall k :: k in merged <==> k in before;
    }
    if Idle(before, update) {
      assert merged.Keys == before.Keys;
    }
  }

  lemma MergedIsUpdated(before: map<string, Value>, update: map<string, Option<Value>>)
    ensures var merged := Merge(before, update);
            SameItems(merged, before) ==> Updated(before, update, before)
    ensures var merged := Merge(before, update);
            !SameItems(merged, before) && (forall k :: k in merged ==> Freeze(merged[k]).Some?) ==>
              Updated(before, update, Stored(merged))
  {
    DroppedIffIdle(before, update);
    var merged := Merge(before, update);
    forall k: string
      ensures if k in update then (k in merged <==> update[k].Some?) && (k in merged ==> merged[k] == update[k].value)
              else (k in merged <==> k in before) && (k in merged ==> merged[k] == before[k])
    {
      MergedAt(before, update, k);
    }
    hide Merge, Freeze, Norm, Idle, SameItems;
  }

  /** What one new message changes: one message at the end with the next number of its
      session, its references, the counter and the granted keys of that session.  No other
      session, record, binding or artifact is touched. */
  ghost predicate OneMore(db: Db, g: Grant, r: Request, after: Db, m: Message) {
    && after == db.(messages := db.messages + [m], sessions := after.sessions, links := after.links)
    && m == Message(r.id, g.session, SessionOf(db, g.session).nextSeq, g.author, g.source, m.body, m.metadata)
    && Decode(m.body) == Ok(NormBody(r.body))
    && Freeze(r.metadata).Some? && m.metadata == Tree(Freeze(r.metadata).value)
    && g.session in after.sessions && after.sessions == db.sessions[g.session := after.sessions[g.session]]
    && after.sessions[g.session].nextSeq == m.seqNo + 1
    && r.update.Some? && Updated(SessionOf(db, g.session).metadata, r.update.value, after.sessions[g.session].metadata)
    && r.id in after.links && after.links == db.links[r.id := after.links[r.id]]
    && CheckParts(db, g, r) == Ok(after.links[r.id])
  }

  /** The session metadata after a write: what it was, or the merged one as it is stored. */
  lemma WriteMergesMetadata(db: Db, g: Grant, r: Request, v: Verdict)
    requires v.Fresh? && Write(db, g, r, v).1.Ok?
    ensures var before := SessionOf(db, g.session).metadata;
            var merged := Merge(before, v.update);
            var after := Write(db, g, r, v).0;
            g.session in after.sessions &&
            (if SameItems(merged, before) then after.sessions[g.session].metadata == before
             else after.sessions[g.session].metadata == Stored(merged) && forall k :: k in merged ==> Freeze(merged[k]).Some?)
  {
    hide Merge, SessionOf, Freeze, Norm, SameItems;
  }

  lemma WriteAddsRow(db: Db, g: Grant, r: Request, v: Verdict)
    requires v.Fresh? && Write(db, g, r, v).1.Ok?
    ensures var (after, answer) := Write(db, g, r, v);
            var before, m := SessionOf(db, g.session), answer.value;
            && m == Message(r.id, g.session, before.nextSeq, g.author, g.source, v.text, v.metadata)
            && g.session in after.sessions && after.sessions == db.sessions[g.session := after.sessions[g.session]]
            && after == db.(messages := db.messages + [m], sessions := after.sessions, links := db.links[r.id := v.refs])
            && after.sessions[g.session].nextSeq == m.seqNo + 1
  {
    hide Merge, SessionOf, Freeze, Norm, SameItems;
    assert v.refs.bindings <= db.bindings ==> v.refs.bindings * db.bindings == v.refs.bindings;
  }

  /** Main result: an accepted new message changes exactly this, and is what was asked for. */
  lemma NewAppendsOne(db: Db, g: Grant, r: Request)
    requires Inv(db) && Valid(r.body) && Find(db.messages, r.id) == None && Append(db, g, r).1.Ok?
    ensures OneMore(db, g, r, Append(db, g, r).0, Append(db, g, r).1.value)
  {
    AdmittedIff(db, g, r);
    EncodeNewRefusesLegacy(r.body);
    DecodeUndoesEncode(r.body);
    var v := Admit(db, g, r);
    if v.Fresh? {
      WriteAddsRow(db, g, r, v);
      WriteMergesMetadata(db, g, r, v);
      MergedIsUpdated(SessionOf(db, g.session).metadata, v.update);
    }
    hide Admit, Write, PartsGranted, Callable, MetadataGranted, CheckParts, SourceHead, SessionOf, Merge, Freeze, Granted,
         Inv, Valid, Find, Updated, SameItems, Stored, Decode, Encode, Tree, NormBody;
  }

  // ---------------------------------------------------------------------------
  // An update that Python calls no change
  // ---------------------------------------------------------------------------

  const USER := Grant("s", "user", "chat", {InputKind}, {}, None, false, {"k"}, {}, true)

  function Asking(id: string, v: Value): Request {
    Request(id, Input(Nil), None, Mapped(false, Nil), true, true, true, map[], Some(map["k" := Some(v)]))
  }

  lemma AskingIsAdmissible(db: Db, id: string, v: Value)
    requires id != "" && Freeze(v).Some? && SessionOf(db, "s").metadata.Keys <= {"k"}
    ensures Admissible(db, USER, Asking(id, v)) && Valid(Input(Nil))
  {
    var r := Asking(id, v);
    assert Freeze(Mapped(false, Nil)) == Some(Mapped(true, Nil));
    hide Freeze, SessionOf, Equal, SourceHead;
    assert Merge(SessionOf(db, "s").metadata, r.update.value).Keys == {"k"};
  }

  lemma OneKeyUpdated(before: map<string, Value>, v: Value, after: map<string, Value>)
    requires before.Keys <= {"k"} && Freeze(v) == Some(v) && Updated(before, map["k" := Some(v)], after)
    ensures after == if "k" in before && (v == before["k"] || Equal(v, before["k"])) then before else map["k" := Norm(v)]
  {
    hide Freeze, Norm, Equal;
    var update := map["k" := Some(v)];
    assert "k" in update;
    if !Idle(before, update) {
      forall k
        ensures k in after <==> k == "k"
      {
        assert k in update <==> k == "k";
      }
    }
  }

  /** Such a request is always taken, and what it does to the metadata is decided by
      whether the key holds an equal value. */
  lemma AskingIsTaken(db: Db, id: string, v: Value)
    requires Inv(db) && Find(db.messages, id) == None && id != "" && Frozen(v) && SessionOf(db, "s").metadata.Keys <= {"k"}
    ensures var (after, answer) := Append(db, USER, Asking(id, v));
            var before := SessionOf(db, "s").metadata;
            && answer.Ok? && Inv(after) && after.messages == db.messages + [answer.value] && answer.value.id == id
            && "s" in after.sessions
            && after.sessions["s"].metadata ==
                 (if "k" in before && (v == before["k"] || Equal(v, before["k"])) then before else map["k" := Norm(v)])
  {
    hide Append, Inv, Find, Equal, Norm, Freeze, Frozen, Decode, CheckParts, Admissible, SessionOf, Updated, Valid;
    FreezeUndoesThaw(v);
    AskingIsAdmissible(db, id, v);
    var r := Asking(id, v);
    NewIsAppendedIff(db, USER, r);
    NewAppendsOne(db, USER, r);
    AppendKeepsInv(db, USER, r);
    OneKeyUpdated(SessionOf(db, "s").metadata, v, Append(db, USER, r).0.sessions["s"].metadata);
  }

  lemma AppendKeepsInv(db: Db, g: Grant, r: Request)
    requires Inv(db) && Valid(r.body)
    ensures Inv(Append(db, g, r).0)
  {
    if AppendStep(db, g, r).1.Ok? {
      WriteKeepsInv(db, g, r);
    }
    hide Inv, AppendStep;
  }

  /** A run in which a message asks for true where 1 is stored: it is taken, and 1 stays. */
  lemma EqualUpdateIsDropped() returns (states: seq<Db>, acts: seq<Action>)
    ensures IsRun(states, acts) && acts == [DoAppend(USER, Asking("a", Int(1))), DoAppend(USER, Asking("b", Bool(true)))]
    ensures Append(states[1], USER, Asking("b", Bool(true))).1.Ok? && |states[2].messages| == 2
    ensures "s" in states[2].sessions && states[2].sessions["s"].metadata == map["k" := Int(1)]
  {
    acts := [DoAppend(USER, Asking("a", Int(1))), DoAppend(USER, Asking("b", Bool(true)))];
    var one := Append(EMPTY, USER, Asking("a", Int(1))).0;
    var two := Append(one, USER, Asking("b", Bool(true))).0;
    assert Norm(Int(1)) == Int(1) && Equal(Bool(true), Int(1)) && Frozen(Int(1)) && Frozen(Bool(true));
    hide Append, Find, Norm, Equal, Inv, Frozen, Asking, Moves, IsRun;
    NothingYet();
    AskingIsTaken(EMPTY, "a", Int(1));
    FindsOnly(one, "a", "b");
    AskingIsTaken(one, "b", Bool(true));
    states := [EMPTY, one, two];
    AskingMoves(EMPTY, "a", Int(1));
    AskingMoves(one, "b", Bool(true));
    IsShortRun(acts[0], one, acts[1], two);
  }

  lemma AskingMoves(db: Db, id: string, v: Value)
    ensures Moves(db, DoAppend(USER, Asking(id, v)), Append(db, USER, Asking(id, v)).0)
  {
    hide Append;
  }

  lemma IsShortRun(a: Action, one: Db, b: Action, two: Db)
    requires Moves(EMPTY, a, one) && Moves(one, b, two)
    ensures IsRun([EMPTY, one, two], [a, b])
  {
    hide Moves;
  }

  lemma NothingYet()
    ensures Inv(EMPTY) && Find(EMPTY.messages, "a") == None && SessionOf(EMPTY, "s").metadata == map[]
  {
  }

  lemma FindsOnly(db: Db, id: string, other: string)
    requires |db.messages| == 1 && db.messages[0].id == id && id != other
    ensures Find(db.messages, other) == None
  {
    assert db.messages[..0] == [];
  }

  // ---------------------------------------------------------------------------
  // Saved records
  // ---------------------------------------------------------------------------

  /** A save works if and only if the key is not empty, the value is a JSON mapping, and the
      expected version is the current one; a record nobody saved has none.  It touches no
      other record. */
  lemma SaveSucceedsIff(db: Db, owner: string, key: string, value: Value, expected: Option<int>)
    ensures SaveStep(db, owner, key, value, expected).1 <==>
              key != "" && value.Mapped? && Freeze(value).Some? && Expected(expected) == Rank(db, (owner, key)) &&
              (expected.Some? ==> expected.value >= 0)
    ensures SaveStep(db, owner, key, value, expected).1 ==>
              SaveStep(db, owner, key, value, expected).0 ==
              db.(records := db.records[(owner, key) := Record(Expected(expected) + 1, Norm(Freeze(value).value))])
  {
    hide Freeze, Norm;
  }

  /** The value of the last save of a key among the calls. */
  function LastSaved(ops: seq<Op>, key: string): Option<Value>
    decreases |ops|
  {
    if ops == [] then None
    else
      var last := ops[|ops| - 1].call;
      if last.Save? && last.key == key then Some(last.value) else LastSaved(ops[..|ops| - 1], key)
  }

  lemma {:induction false} AllSucceedInTwo(db: Db, owner: string, ops: seq<Op>, last: Op)
    ensures AllSucceed(db, owner, ops + [last]) ==
              if AllSucceed(db, owner, ops).Some? then Succeed(AllSucceed(db, owner, ops).value, owner, last.call) else None
    decreases |ops|
  {
    hide Succeed;
    if ops == [] {
      assert [last][1..] == [];
    } else {
      assert (ops + [last])[1..] == ops[1..] + [last];
      if Succeed(db, owner, ops[0].call).Some? {
        AllSucceedInTwo(Succeed(db, owner, ops[0].call).value, owner, ops[1..], last);
      }
    }
  }

  /** What one successful call does to a record. */
  lemma CallOnRecord(db: Db, owner: string, call: Call, at: (string, string))
    requires Succeed(db, owner, call).Some?
    ensures var after := Succeed(db, owner, call).value;
            if call.Save? && (owner, call.key) == at then
              at in after.records && Freeze(call.value).Some? && after.records[at].value == Norm(Freeze(call.value).value)
            else (at in after.records <==> at in db.records) && (at in db.records ==> after.records[at] == db.records[at])
  {
    if call.AppendTo? {
      AppendKeepsRecords(db, call.grant, call.request);
    }
    hide AppendStep, Freeze, Norm;
  }

  /** Main result: after a committed transaction a record holds what the last save of its
      key stored, and every record without a save is as it was. */
  lemma {:induction false} LastSaveWins(db: Db, owner: string, ops: seq<Op>, at: (string, string))
    requires AllSucceed(db, owner, ops).Some?
    ensures var after, last := AllSucceed(db, owner, ops).value, LastSaved(ops, at.1);
            if at.0 == owner && last.Some? then
              at in after.records && Freeze(last.value).Some? && after.records[at].value == Norm(Freeze(last.value).value)
            else (at in after.records <==> at in db.records) && (at in db.records ==> after.records[at] == db.records[at])
    decreases |ops|
  {
    hide Succeed, Freeze, Norm;
    if ops != [] {
      var rest, last := ops[..|ops| - 1], ops[|ops| - 1];
      assert ops == rest + [last];
      AllSucceedInTwo(db, owner, rest, last);
      hide AllSucceed;
      LastSaveWins(db, owner, rest, at);
      CallOnRecord(AllSucceed(db, owner, rest).value, owner, last.call, at);
    }
  }
}
