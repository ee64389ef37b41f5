/** The append-only message log and the owner transactions around it.

    Tables are maps and sequences; a transaction commits all of its effects or none.  An
    append can fail half-way, so its section also says what it leaves behind. */
module MessageLog {
  import opened Wrappers
  import opened Codec

  datatype Kind = InputKind | OutputKind | ResultKind | ControlKind

  function KindOf(b: Body): Kind {
    match b
    case Input(_) => InputKind
    case Output(_, _) => OutputKind
    case ToolResult(_, _, _, _, _) => ResultKind
    case Control(_, _, _) => ControlKind
  }

  /** What a writer may do. */
  datatype Grant = Grant(
    session: string,
    author: string,
    source: string,
    kinds: set<Kind>,
    contents: set<string>,
    call: Option<(string, int)>,
    mayCall: bool,
    sessionKeys: set<string>,
    messageKeys: set<string>,
    checksMetadata: bool)

  datatype Refs = Refs(bindings: set<string>, artifacts: seq<string>)

  /** One append.  `verdicts` holds what the content owners answer for a part, `update`
      what the metadata owner answers; a missing answer is an exception. */
  datatype Request = Request(
    id: string,
    body: Body,
    expectedHead: Option<int>,
    metadata: Value,
    metadataFits: bool,
    metadataOk: bool,
    active: bool,
    verdicts: map<Part, Refs>,
    update: Option<map<string, Option<Value>>>)

  datatype Session = Session(nextSeq: nat, metadata: map<string, Value>)

  datatype Message = Message(id: string, session: string, seqNo: nat, author: string, source: string, body: Json, metadata: Json)

  datatype Record = Record(version: nat, value: Value)

  datatype Db = Db(
    sessions: map<string, Session>,
    messages: seq<Message>,
    links: map<string, Refs>,
    bindings: set<string>,
    ready: set<string>,
    records: map<(string, string), Record>)

  const EMPTY := Db(map[], [], map[], {}, {}, map[])

  datatype Refusal = NotGranted | BadMetadata | BadBody | Conflict | Expired | Rejected | BadRef | Constraint

  // ---------------------------------------------------------------------------
  // Looking things up
  // ---------------------------------------------------------------------------

  function Find(ms: seq<Message>, id: string): (m: Option<Message>)
    ensures m.Some? ==> m.value in ms && m.value.id == id
    ensures m == None ==> forall x :: x in ms ==> x.id != id
  {
    if ms == [] then None
    else if ms[|ms| - 1].id == id then Some(ms[|ms| - 1])
    else Find(ms[..|ms| - 1], id)
  }

  /** The messages of a session, in append order. */
  function Rows(ms: seq<Message>, session: string): seq<Message> {
    if ms == [] then []
    else if ms[|ms| - 1].session == session then Rows(ms[..|ms| - 1], session) + [ms[|ms| - 1]]
    else Rows(ms[..|ms| - 1], session)
  }

  /** The last sequence number of a source in a session, or -1. */
  function SourceHead(ms: seq<Message>, session: string, source: string): int {
    if ms == [] then -1
    else
      var last, rest := ms[|ms| - 1], SourceHead(ms[..|ms| - 1], session, source);
      if last.session == session && last.source == source && last.seqNo > rest then last.seqNo else rest
  }

  function PartAt(l: List<Part>, n: int): Option<Part> {
    if l.Nil? || n < 0 then None else if n == 0 then Some(l.head) else PartAt(l.tail, n - 1)
  }

  predicate IsResultOf(m: Message, message: string, index: int) {
    var b := Decode(m.body);
    b.Ok? && b.value.ToolResult? && b.value.message == message && b.value.index == index
  }

  /** The message holds a tool call at this part. */
  predicate HasCallAt(m: Message, index: int) {
    var b := Decode(m.body);
    b.Ok? && b.value.Output? && PartAt(b.value.parts, index).Some? && PartAt(b.value.parts, index).value.Call?
  }

  // ---------------------------------------------------------------------------
  // One append
  // ---------------------------------------------------------------------------

  /** The references of the parts; the first part that is refused decides. */
  function Collect(g: Grant, verdicts: map<Part, Refs>, l: List<Part>): Result<Refs, Refusal> {
    if l.Nil? then Ok(Refs({}, []))
    else if (if l.head.Call? then !g.mayCall else l.head.kind !in g.contents) then Err(NotGranted)
    else if l.head !in verdicts then Err(Rejected)
    else
      var rest := Collect(g, verdicts, l.tail);
      if rest.Err? then rest
      else if l.head.Call? then Ok(Refs({l.head.binding} + rest.value.bindings, rest.value.artifacts))
      else
        var v := verdicts[l.head];
        Ok(Refs(v.bindings + rest.value.bindings, v.artifacts + rest.value.artifacts))
  }

  function CheckParts(db: Db, g: Grant, r: Request): Result<Refs, Refusal> {
    if r.body.Control? then Ok(Refs({}, []))
    else
      var refs := Collect(g, r.verdicts, r.body.parts);
      if refs.Ok? && exists a :: a in refs.value.artifacts && a !in db.ready then Err(BadRef) else refs
  }

  /** A result needs a real call of the same session and source, and no earlier result. */
  function CheckResult(db: Db, g: Grant, message: string, index: int): Option<Refusal> {
    var call := Find(db.messages, message);
    if call == None || call.value.session != g.session || call.value.source != g.source then Some(BadRef)
    else if !HasCallAt(call.value, index) then Some(BadRef)
    else if exists m :: m in db.messages && IsResultOf(m, message, index) then Some(Conflict)
    else None
  }

  datatype Verdict =
    | Refuse(why: Refusal)
    | Replay(first: Message)
    | Fresh(text: Json, metadata: Json, refs: Refs, update: map<string, Option<Value>>)

  predicate Granted(g: Grant, b: Body) {
    KindOf(b) in g.kinds && (b.ToolResult? ==> g.call == Some((b.message, b.index)))
  }

  /** The frozen metadata, if it is a mapping with proper names inside the budget. */
  function MetadataOf(r: Request): Option<Value> {
    if r.metadata.Mapped? && Freeze(r.metadata).Some? && "" !in Names(r.metadata.entries) && r.metadataFits
    then Freeze(r.metadata) else None
  }

  predicate SameContent(m: Message, g: Grant, text: Json, metadata: Json) {
    m.session == g.session && m.author == g.author && m.source == g.source && m.body == text && m.metadata == metadata
  }

  /** Everything that is decided before the first row is written. */
  function Admit(db: Db, g: Grant, r: Request): Verdict {
    var meta := MetadataOf(r);
    if !Granted(g, r.body) then Refuse(NotGranted)
    else if meta == None then Refuse(BadMetadata)
    else if !g.checksMetadata && !(Names(r.metadata.entries) <= g.messageKeys) then Refuse(NotGranted)
    else
      var first := Find(db.messages, r.id);
      var text := Encode(r.body, first.Some?);
      if text == None then Refuse(BadBody)
      else if first.Some? then
        if SameContent(first.value, g, text.value, Tree(meta.value)) then Replay(first.value) else Refuse(Conflict)
      else AdmitNew(db, g, r, text.value, Tree(meta.value))
  }

  function AdmitNew(db: Db, g: Grant, r: Request, text: Json, metadata: Json): Verdict {
    if !r.active then Refuse(Expired)
    else if g.checksMetadata && r.metadata.Mapped? && r.metadata.entries.Cons? && !r.metadataOk then Refuse(Rejected)
    else if r.expectedHead != None && r.expectedHead.value != SourceHead(db.messages, g.session, g.source) then Refuse(Conflict)
    else
      var refs := CheckParts(db, g, r);
      if refs.Err? then Refuse(refs.error)
      else
        var result := if r.body.ToolResult? then CheckResult(db, g, r.body.message, r.body.index) else None;
        if result.Some? then Refuse(result.value)
        else if r.update == None then Refuse(Rejected)
        else if !(r.update.value.Keys <= g.sessionKeys) then Refuse(NotGranted)
        else Fresh(text, metadata, refs.value, r.update.value)
  }

  function Merge(current: map<string, Value>, update: map<string, Option<Value>>): map<string, Value> {
    map k | k in current.Keys + update.Keys && (k in update ==> update[k].Some?) ::
      if k in update then update[k].value else current[k]
  }

  /** `==` of two dictionaries in Python: one set of keys, and under each of them the same
      object or an equal one. */
  predicate SameItems(a: map<string, Value>, b: map<string, Value>) {
    a.Keys == b.Keys && forall k :: k in a ==> a[k] == b[k] || Equal(a[k], b[k])
  }

  function SessionOf(db: Db, session: string): Session {
    if session in db.sessions then db.sessions[session] else Session(0, map[])
  }

  /** Writes the rows of a new message one after the other. */
  function Write(db: Db, g: Grant, r: Request, v: Verdict): (Db, Result<Message, Refusal>)
    requires v.Fresh?
  {
    var s := SessionOf(db, g.session);
    var started := db.(sessions := db.sessions[g.session := s]);
    var m := Message(r.id, g.session, s.nextSeq, g.author, g.source, v.text, v.metadata);
    if m.id == "" || m.session == "" || m.author == "" || m.source == "" || (r.body.Control? && r.body.through >= m.seqNo)
    then (started, Err(BadBody))
    else if exists x :: x in db.messages && x.session == m.session && x.seqNo == m.seqNo then (started, Err(Constraint))
    else
      var written := started.(messages := db.messages + [m],
                              links := db.links[m.id := Refs(v.refs.bindings * db.bindings, v.refs.artifacts)]);
      if !(v.refs.bindings <= db.bindings) then (written, Err(Constraint))
      else
        var counted := written.(sessions := written.sessions[g.session := s.(nextSeq := s.nextSeq + 1)]);
        var merged := Merge(s.metadata, v.update);
        if SameItems(merged, s.metadata) then (counted, Ok(m))
        else if exists k :: k in merged && Freeze(merged[k]) == None then (counted, Err(BadMetadata))
        else
          (counted.(sessions := counted.sessions[g.session :=
             Session(s.nextSeq + 1, map k | k in merged :: Norm(Freeze(merged[k]).value))]), Ok(m))
  }

  function AppendStep(db: Db, g: Grant, r: Request): (Db, Result<Message, Refusal>) {
    var v := Admit(db, g, r);
    match v
    case Refuse(why) => (db, Err(why))
    case Replay(first) => (db, Ok(first))
    case Fresh(_, _, _, _) => Write(db, g, r, v)
  }

  /** The append as a transaction of its own. */
  function Append(db: Db, g: Grant, r: Request): (Db, Result<Message, Refusal>) {
    var (after, answer) := AppendStep(db, g, r);
    if answer.Ok? then (after, answer) else (db, answer)
  }

  // ---------------------------------------------------------------------------
  // Owner transactions
  // ---------------------------------------------------------------------------

  /** A call the callback makes.  `Stray` raises without touching the transaction: a
      foreign writer, or a nested write. */
  datatype Call = Save(key: string, value: Value, expected: Option<int>) | AppendTo(grant: Grant, request: Request) | Stray

  /** Whether the callback goes on after the call raised. */
  datatype Op = Op(call: Call, swallows: bool)

  datatype Tx = Tx(db: Db, failed: bool)

  /** Saving compares and advances the version of the record. */
  function SaveStep(db: Db, owner: string, key: string, value: Value, expected: Option<int>): (Db, bool) {
    var at := (owner, key);
    var current := if at in db.records then Some(db.records[at].version as int) else None;
    if key == "" || (expected != None && expected.value < 0) || !value.Mapped? || Freeze(value) == None then (db, false)
    else if current != expected then (db, false)
    else
      var version := if at in db.records then db.records[at].version + 1 else 0;
      (db.(records := db.records[at := Record(version, Norm(Freeze(value).value))]), true)
  }

  /** One call inside the transaction; the flag tells whether it returned. */
  function Perform(t: Tx, owner: string, call: Call): (Tx, bool) {
    if call.Stray? || t.failed then (t, false)
    else if call.Save? then
      var (db, ok) := SaveStep(t.db, owner, call.key, call.value, call.expected);
      (Tx(db, !ok), ok)
    else
      var (db, answer) := AppendStep(t.db, call.grant, call.request);
      (Tx(db, answer.Err?), answer.Ok?)
  }

  /** Runs the callback; the flag tells whether it got to its end. */
  function RunOps(t: Tx, owner: string, ops: seq<Op>): (Tx, bool)
    decreases |ops|
  {
    if ops == [] then (t, true)
    else
      var (u, ok) := Perform(t, owner, ops[0].call);
      if !ok && !ops[0].swallows then (u, false) else RunOps(u, owner, ops[1..])
  }

  /** Commits only if the callback returned and no call of it failed. */
  function Transact(db: Db, owner: string, ops: seq<Op>, returns_: bool): (Db, bool) {
    var (t, ended) := RunOps(Tx(db, false), owner, ops);
    if ended && returns_ && !t.failed then (t.db, true) else (db, false)
  }

  // ---------------------------------------------------------------------------
  // The log and transaction objects
  // ---------------------------------------------------------------------------

  class Log {
    var sessions: map<string, Session>
    var messages: seq<Message>
    var links: map<string, Refs>
    var bindings: set<string>
    var ready: set<string>
    var records: map<(string, string), Record>

    function View(): Db
      reads this
    {
      Db(sessions, messages, links, bindings, ready, records)
    }

    constructor ()
      ensures View() == EMPTY
    {
      sessions, messages, links, bindings, ready, records := map[], [], map[], {}, {}, map[];
    }

    /** Goes through the parts and gathers what their owners refer to. */
    method PartReferences(g: Grant, r: Request) returns (refs: Result<Refs, Refusal>)
      ensures refs == CheckParts(View(), g, r)
    {
      if r.body.Control? {
        return Ok(Refs({}, []));
      }
      var rest, found, artifacts := r.body.parts, {}, [];
      ghost var all := Collect(g, r.verdicts, rest);
      assert all.Ok? ==> found + all.value.bindings == all.value.bindings && artifacts + all.value.artifacts == all.value.artifacts;
      while rest.Cons?
        invariant Collect(g, r.verdicts, r.body.parts) ==
                  var tail := Collect(g, r.verdicts, rest);
                  if tail.Err? then tail else Ok(Refs(found + tail.value.bindings, artifacts + tail.value.artifacts))
        decreases rest
      {
        var part := rest.head;
        if part.Call? {
          if !g.mayCall {
            return Err(NotGranted);
          }
        } else if part.kind !in g.contents {
          return Err(NotGranted);
        }
        if part !in r.verdicts {
          return Err(Rejected);
        }
        ghost var tail := Collect(g, r.verdicts, rest.tail);
        if part.Call? {
          assert tail.Ok? ==> found + ({part.binding} + tail.value.bindings) == found + {part.binding} + tail.value.bindings;
          found := found + {part.binding};
        } else {
          var v := r.verdicts[part];
          assert tail.Ok? ==> found + (v.bindings + tail.value.bindings) == found + v.bindings + tail.value.bindings;
          assert tail.Ok? ==> artifacts + (v.artifacts + tail.value.artifacts) == artifacts + v.artifacts + tail.value.artifacts;
          found, artifacts := found + v.bindings, artifacts + v.artifacts;
        }
        rest := rest.tail;
      }
      assert found + {} == found && artifacts + [] == artifacts;
      if exists a :: a in artifacts && a !in ready {
        return Err(BadRef);
      }
      refs := Ok(Refs(found, artifacts));
    }

    /** Inserts the rows of a new message; an error leaves those already written. */
    method InsertRows(g: Grant, r: Request, v: Verdict) returns (answer: Result<Message, Refusal>)
      requires v.Fresh?
      modifies this
      ensures (View(), answer) == Write(old(View()), g, r, v)
    {
      hide Freeze, Norm, Merge, SameItems;
      var s := if g.session in sessions then sessions[g.session] else Session(0, map[]);
      sessions := sessions[g.session := s];
      var m := Message(r.id, g.session, s.nextSeq, g.author, g.source, v.text, v.metadata);
      if m.id == "" || m.session == "" || m.author == "" || m.source == "" || (r.body.Control? && r.body.through >= m.seqNo) {
        return Err(BadBody);
      }
      if exists x :: x in messages && x.session == m.session && x.seqNo == m.seqNo {
        return Err(Constraint);
      }
      messages := messages + [m];
      links := links[m.id := Refs(v.refs.bindings * bindings, v.refs.artifacts)];
      if !(v.refs.bindings <= bindings) {
        return Err(Constraint);
      }
      sessions := sessions[g.session := s.(nextSeq := s.nextSeq + 1)];
      var merged := Merge(s.metadata, v.update);
      if SameItems(merged, s.metadata) {
        return Ok(m);
      }
      if exists k :: k in merged && Freeze(merged[k]) == None {
        return Err(BadMetadata);
      }
      sessions := sessions[g.session := Session(s.nextSeq + 1, map k | k in merged :: Norm(Freeze(merged[k]).value))];
      answer := Ok(m);
    }

    method AppendRows(g: Grant, r: Request) returns (answer: Result<Message, Refusal>)
      modifies this
      ensures (View(), answer) == AppendStep(old(View()), g, r)
    {
      hide Freeze, Names, Encode, Tree, Find, Write, Granted, CheckParts, CheckResult;
      var meta := MetadataOf(r);
      if !Granted(g, r.body) {
        return Err(NotGranted);
      }
      if meta == None {
        return Err(BadMetadata);
      }
      if !g.checksMetadata && !(Names(r.metadata.entries) <= g.messageKeys) {
        return Err(NotGranted);
      }
      var first := Find(messages, r.id);
      var text := Encode(r.body, first.Some?);
      if text == None {
        return Err(BadBody);
      }
      if first.Some? {
        return if SameContent(first.value, g, text.value, Tree(meta.value)) then Ok(first.value) else Err(Conflict);
      }
      if !r.active {
        return Err(Expired);
      }
      if g.checksMetadata && r.metadata.entries.Cons? && !r.metadataOk {
        return Err(Rejected);
      }
      if r.expectedHead != None && r.expectedHead.value != SourceHead(messages, g.session, g.source) {
        return Err(Conflict);
      }
      var refs := PartReferences(g, r);
      if refs.Err? {
        return Err(refs.error);
      }
      if r.body.ToolResult? {
        var result := CheckResult(View(), g, r.body.message, r.body.index);
        if result.Some? {
          return Err(result.value);
        }
      }
      if r.update == None {
        return Err(Rejected);
      }
      if !(r.update.value.Keys <= g.sessionKeys) {
        return Err(NotGranted);
      }
      answer := InsertRows(g, r, Fresh(text.value, Tree(meta.value), refs.value, r.update.value));
    }

    method Restore(db: Db)
      modifies this
      ensures View() == db
    {
      sessions, messages, links := db.sessions, db.messages, db.links;
      bindings, ready, records := db.bindings, db.ready, db.records;
    }

    /** The append in a transaction of its own. */
    method AppendMessage(g: Grant, r: Request) returns (answer: Result<Message, Refusal>)
      modifies this
      ensures (View(), answer) == Append(old(View()), g, r)
    {
      var before := View();
      hide AppendStep;
      answer := AppendRows(g, r);
      if answer.Err? {
        Restore(before);
      }
    }

    method SaveRecord(owner: string, key: string, value: Value, expected: Option<int>) returns (ok: bool)
      modifies this
      ensures (View(), ok) == SaveStep(old(View()), owner, key, value, expected)
    {
      hide Freeze, Norm;
      var at := (owner, key);
      if key == "" || (expected != None && expected.value < 0) || !value.Mapped? || Freeze(value) == None {
        return false;
      }
      var current := if at in records then Some(records[at].version as int) else None;
      if current != expected {
        return false;
      }
      records := records[at := Record(if at in records then records[at].version + 1 else 0, Norm(Freeze(value).value))];
      ok := true;
    }

    /** Runs a callback as one transaction; a call that fails poisons it even when the
        callback goes on. */
    method TransactOps(owner: string, ops: seq<Op>, returns_: bool) returns (committed: bool)
      modifies this
      ensures (View(), committed) == Transact(old(View()), owner, ops, returns_)
    {
      hide AppendStep, SaveStep;
      var before, failed, i, ended := View(), false, 0, true;
      while i < |ops| && ended
        invariant i <= |ops|
        invariant RunOps(Tx(before, false), owner, ops) ==
                  if ended then RunOps(Tx(View(), failed), owner, ops[i..]) else (Tx(View(), failed), false)
        decreases |ops| - i, ended
      {
        var call := ops[i].call;
        var ok := false;
        if !failed && call.Save? {
          ok := SaveRecord(owner, call.key, call.value, call.expected);
          failed := !ok;
        } else if !failed && call.AppendTo? {
          var answer := AppendRows(call.grant, call.request);
          ok, failed := answer.Ok?, answer.Err?;
        }
        assert ops[i..][0] == ops[i] && ops[i..][1..] == ops[i + 1..];
        ended := ok || ops[i].swallows;
        i := i + 1;
      }
      assert ended ==> ops[i..] == [];
      committed := ended && returns_ && !failed;
      if !committed {
        Restore(before);
      }
    }
  }

  // ---------------------------------------------------------------------------
  // The invariant of the log
  // ---------------------------------------------------------------------------

  /** What a stored message must agree with: everything stored before it. */
  ghost predicate MessageFits(before: seq<Message>, m: Message) {
    && Find(before, m.id) == None
    && m.seqNo == |Rows(before, m.session)|
    && Decode(m.body).Ok?
    && Canonical(m.body)
    && (Decode(m.body).value.Control? ==> Decode(m.body).value.through < m.seqNo)
    && (Decode(m.body).value.ToolResult? ==> ResultFits(before, m, Decode(m.body).value.message, Decode(m.body).value.index))
  }

  /** The call is an earlier one of the same session and source, still without a result. */
  ghost predicate ResultFits(before: seq<Message>, m: Message, message: string, index: int) {
    && var call := Find(before, message);
    && call.Some? && call.value.session == m.session && call.value.source == m.source
    && HasCallAt(call.value, index)
    && (forall x :: x in before ==> !IsResultOf(x, message, index))
  }

  ghost predicate Chain(ms: seq<Message>) {
    ms != [] ==> Chain(ms[..|ms| - 1]) && MessageFits(ms[..|ms| - 1], ms[|ms| - 1])
  }

  ghost predicate Counted(sessions: map<string, Session>, ms: seq<Message>) {
    && (forall s :: s in sessions ==> sessions[s].nextSeq == |Rows(ms, s)|)
    && (forall m :: m in ms ==> m.session in sessions)
  }

  ghost predicate Inv(db: Db) {
    Chain(db.messages) && Counted(db.sessions, db.messages)
  }

  lemma OneMore(ms: seq<Message>, m: Message)
    ensures (ms + [m])[..|ms + [m]| - 1] == ms && (ms + [m])[|ms + [m]| - 1] == m
    ensures forall s :: Rows(ms + [m], s) == if m.session == s then Rows(ms, s) + [m] else Rows(ms, s)
    ensures Chain(ms + [m]) <==> Chain(ms) && MessageFits(ms, m)
  {
    assert (ms + [m])[..|ms + [m]| - 1] == ms;
  }

  /** A session without messages may be added. */
  lemma NoRows(ms: seq<Message>, s: string)
    requires forall m :: m in ms ==> m.session != s
    ensures Rows(ms, s) == []
  {
    if ms != [] {
      assert ms[|ms| - 1] in ms;
      NoRows(ms[..|ms| - 1], s);
    }
  }

  lemma CountedNext(sessions: map<string, Session>, ms: seq<Message>, m: Message, next: Session)
    requires Counted(sessions, ms) && next.nextSeq == |Rows(ms, m.session)| + 1
    ensures Counted(sessions[m.session := next], ms + [m])
  {
    OneMore(ms, m);
    forall x | x in ms + [m]
      ensures x.session in sessions[m.session := next]
    {
      assert x in ms || x == m;
    }
  }

  /** Sequence numbers of a session stay below its counter, so its unique index never fires. */
  lemma {:induction false} SeqBelowCount(ms: seq<Message>, x: Message)
    requires Chain(ms) && x in ms
    ensures x.seqNo < |Rows(ms, x.session)|
  {
    var rest, last := ms[..|ms| - 1], ms[|ms| - 1];
    assert ms == rest + [last];
    if x != last {
      assert x in rest;
      SeqBelowCount(rest, x);
    }
  }

  lemma NextSeqIsCount(db: Db, session: string)
    requires Inv(db)
    ensures SessionOf(db, session).nextSeq == |Rows(db.messages, session)|
  {
    if session !in db.sessions {
      NoRows(db.messages, session);
    }
  }

  /** What admission settles about a new message. */
  lemma AdmittedFits(db: Db, g: Grant, r: Request)
    requires Valid(r.body) && Admit(db, g, r).Fresh?
    ensures Find(db.messages, r.id) == None
    ensures Decode(Admit(db, g, r).text) == Ok(NormBody(r.body)) && Canonical(Admit(db, g, r).text)
    ensures r.body.ToolResult? ==> CheckResult(db, g, r.body.message, r.body.index) == None
  {
    hide Decode, Encode, Valid, CheckResult, CheckParts, Tree, Canonical;
    EncodeNewRefusesLegacy(r.body);
    DecodeUndoesEncode(r.body);
    EncodedIsCanonical(r.body);
  }

  lemma WrittenFits(db: Db, g: Grant, r: Request, m: Message)
    requires Inv(db) && Valid(r.body) && Admit(db, g, r).Fresh?
    requires m.id == r.id && m.session == g.session && m.source == g.source && m.body == Admit(db, g, r).text
    requires m.seqNo == SessionOf(db, g.session).nextSeq && (r.body.Control? ==> r.body.through < m.seqNo)
    ensures MessageFits(db.messages, m)
  {
    AdmittedFits(db, g, r);
    NextSeqIsCount(db, g.session);
    hide Decode, Encode, Valid, Admit, Inv, Rows, Find, HasCallAt, IsResultOf;
  }

  /** What a successful write adds. */
  lemma WriteShape(db: Db, g: Grant, r: Request, v: Verdict)
    requires v.Fresh? && Write(db, g, r, v).1.Ok?
    ensures var (after, answer) := Write(db, g, r, v);
            var m := answer.value;
            && m == Message(r.id, g.session, SessionOf(db, g.session).nextSeq, g.author, g.source, v.text, v.metadata)
            && (r.body.Control? ==> r.body.through < m.seqNo)
            && after.messages == db.messages + [m]
            && g.session in after.sessions && after.sessions == db.sessions[g.session := after.sessions[g.session]]
            && after.sessions[g.session].nextSeq == m.seqNo + 1
            && after.records == db.records
  {
    hide Freeze, Norm, Merge, SameItems;
  }

  lemma WriteKeepsInv(db: Db, g: Grant, r: Request)
    requires Inv(db) && Valid(r.body) && AppendStep(db, g, r).1.Ok?
    ensures Inv(AppendStep(db, g, r).0)
  {
    var v := Admit(db, g, r);
    hide Admit, Write, Decode, Encode, MessageFits, Chain, Counted, SessionOf;
    if v.Fresh? {
      WriteShape(db, g, r, v);
      var (after, answer) := Write(db, g, r, v);
      var m := answer.value;
      WrittenFits(db, g, r, m);
      NextSeqIsCount(db, g.session);
      OneMore(db.messages, m);
      CountedNext(db.sessions, db.messages, m, after.sessions[g.session]);
    }
  }

  // ---------------------------------------------------------------------------
  // Steps
  // ---------------------------------------------------------------------------

  datatype Action =
    | DoAppend(grant: Grant, request: Request)
    | DoTransact(owner: string, ops: seq<Op>, returns_: bool)
    | DoEnsure(session: string)
    | DoBind(binding: string)
    | DoPublish(artifact: string)

  /** Only bodies that the constructors admit can be passed. */
  ghost predicate ValidCall(c: Call) {
    c.AppendTo? ==> Valid(c.request.body)
  }

  ghost predicate Enabled(a: Action) {
    match a
    case DoAppend(_, r) => Valid(r.body)
    case DoTransact(_, ops, _) => forall i :: 0 <= i < |ops| ==> ValidCall(ops[i].call)
    case DoEnsure(session) => session != ""
    case DoBind(binding) => binding != ""
    case DoPublish(_) => true
  }

  function Step(db: Db, a: Action): Db {
    match a
    case DoAppend(g, r) => Append(db, g, r).0
    case DoTransact(owner, ops, returns_) => Transact(db, owner, ops, returns_).0
    case DoEnsure(session) => db.(sessions := db.sessions[session := SessionOf(db, session)])
    case DoBind(binding) => db.(bindings := db.bindings + {binding})
    case DoPublish(artifact) => db.(ready := db.ready + {artifact})
  }

  ghost predicate Moves(db: Db, a: Action, after: Db) {
    Enabled(a) && after == Step(db, a)
  }

  ghost predicate IsRun(states: seq<Db>, acts: seq<Action>) {
    |states| == |acts| + 1 && states[0] == EMPTY && forall i :: 0 <= i < |acts| ==> Moves(states[i], acts[i], states[i + 1])
  }

  lemma PerformKeepsInv(t: Tx, owner: string, call: Call)
    requires (!t.failed ==> Inv(t.db)) && ValidCall(call)
    ensures !Perform(t, owner, call).0.failed ==> Inv(Perform(t, owner, call).0.db)
  {
    if call.AppendTo? && !t.failed && AppendStep(t.db, call.grant, call.request).1.Ok? {
      WriteKeepsInv(t.db, call.grant, call.request);
      hide Inv, AppendStep;
    } else {
      hide AppendStep, Chain, Rows, Freeze, Norm;
    }
  }

  lemma {:induction false} OpsKeepInv(t: Tx, owner: string, ops: seq<Op>)
    requires !t.failed ==> Inv(t.db)
    requires forall i :: 0 <= i < |ops| ==> ValidCall(ops[i].call)
    ensures !RunOps(t, owner, ops).0.failed ==> Inv(RunOps(t, owner, ops).0.db)
    decreases |ops|
  {
    hide Perform, Inv, ValidCall;
    if ops != [] {
      PerformKeepsInv(t, owner, ops[0].call);
      OpsKeepInv(Perform(t, owner, ops[0].call).0, owner, ops[1..]);
    }
  }

  lemma StepKeepsInv(db: Db, a: Action)
    requires Inv(db) && Enabled(a)
    ensures Inv(Step(db, a))
  {
    match a
    case DoAppend(g, r) =>
      if AppendStep(db, g, r).1.Ok? {
        WriteKeepsInv(db, g, r);
      }
      hide AppendStep;
    case DoTransact(owner, ops, _) =>
      OpsKeepInv(Tx(db, false), owner, ops);
      hide RunOps;
    case DoEnsure(session) =>
      NextSeqIsCount(db, session);
    case _ =>
  }

  lemma {:induction false} RunsKeepInv(states: seq<Db>, acts: seq<Action>, i: nat)
    requires IsRun(states, acts) && i < |states|
    ensures Inv(states[i])
  {
    if i > 0 {
      RunsKeepInv(states, acts, i - 1);
      assert Moves(states[i - 1], acts[i - 1], states[i - 1 + 1]);
      hide Step, Inv, Enabled;
      StepKeepsInv(states[i - 1], acts[i - 1]);
    }
  }

  // ---------------------------------------------------------------------------
  // What a run keeps
  // ---------------------------------------------------------------------------

  lemma {:induction false} RowsAreNumbered(ms: seq<Message>, s: string, k: nat)
    requires Chain(ms) && k < |Rows(ms, s)|
    ensures Rows(ms, s)[k].seqNo == k && Rows(ms, s)[k].session == s && Rows(ms, s)[k] in ms
  {
    var rest := ms[..|ms| - 1];
    if k < |Rows(rest, s)| {
      RowsAreNumbered(rest, s, k);
    }
  }

  lemma {:induction false} PrefixFits(ms: seq<Message>, i: nat)
    requires Chain(ms) && i < |ms|
    ensures MessageFits(ms[..i], ms[i])
  {
    var rest := ms[..|ms| - 1];
    if i < |ms| - 1 {
      PrefixFits(rest, i);
      assert rest[..i] == ms[..i];
    }
  }

  /** Main result: in every state of every run the messages of a session are numbered
      0, 1, 2 and so on in append order up to its counter. */
  lemma SequencesAreDense(states: seq<Db>, acts: seq<Action>, i: nat, s: string)
    requires IsRun(states, acts) && i < |states|
    ensures var db := states[i];
            && |Rows(db.messages, s)| == SessionOf(db, s).nextSeq
            && forall k :: 0 <= k < |Rows(db.messages, s)| ==> Rows(db.messages, s)[k].seqNo == k
  {
    RunsKeepInv(states, acts, i);
    NextSeqIsCount(states[i], s);
    forall k | 0 <= k < |Rows(states[i].messages, s)|
      ensures Rows(states[i].messages, s)[k].seqNo == k
    {
      RowsAreNumbered(states[i].messages, s, k);
    }
  }

  /** Main result: every stored message fits what was stored before it.  Its id is new; a
      control points strictly before itself; a tool result names a tool call of an earlier
      output of the same session and source that had no result yet. */
  lemma MessagesPointBack(states: seq<Db>, acts: seq<Action>, i: nat, n: nat)
    requires IsRun(states, acts) && i < |states| && n < |states[i].messages|
    ensures var ms := states[i].messages;
            && (forall k :: 0 <= k < n ==> ms[k].id != ms[n].id)
            && Decode(ms[n].body).Ok?
            && var b := Decode(ms[n].body).value;
            && (b.Control? ==> b.through < ms[n].seqNo)
            && (b.ToolResult? ==>
                 && (exists c :: 0 <= c < n && ms[c].id == b.message && ms[c].session == ms[n].session &&
                       ms[c].source == ms[n].source && HasCallAt(ms[c], b.index))
                 && (forall k :: 0 <= k < n ==> !IsResultOf(ms[k], b.message, b.index)))
  {
    RunsKeepInv(states, acts, i);
    var ms := states[i].messages;
    PrefixFits(ms, n);
    hide Decode, IsResultOf, HasCallAt, Rows, Chain;
    forall k | 0 <= k < n
      ensures ms[k] in ms[..n]
    {
      assert ms[..n][k] == ms[k];
    }
    var b := Decode(ms[n].body).value;
    if b.ToolResult? {
      var call := Find(ms[..n], b.message).value;
      var c :| 0 <= c < n && ms[..n][c] == call;
    }
  }

  lemma {:induction false} OpsOnlyAppend(t: Tx, owner: string, ops: seq<Op>)
    ensures t.db.messages <= RunOps(t, owner, ops).0.db.messages
    decreases |ops|
  {
    if ops != [] {
      PerformOnlyAppends(t, owner, ops[0].call);
      hide Perform;
      OpsOnlyAppend(Perform(t, owner, ops[0].call).0, owner, ops[1..]);
    }
  }

  lemma PerformOnlyAppends(t: Tx, owner: string, call: Call)
    ensures t.db.messages <= Perform(t, owner, call).0.db.messages
  {
    hide Admit, Freeze, Norm, Merge;
  }

  lemma StepOnlyAppends(db: Db, a: Action)
    ensures db.messages <= Step(db, a).messages
  {
    match a
    case DoAppend(g, r) =>
      PerformOnlyAppends(Tx(db, false), "", AppendTo(g, r));
      hide AppendStep;
    case DoTransact(owner, ops, _) =>
      OpsOnlyAppend(Tx(db, false), owner, ops);
      hide RunOps;
    case _ =>
  }

  /** Nothing stored is ever changed or removed. */
  lemma {:induction false} RunsOnlyAppend(states: seq<Db>, acts: seq<Action>, i: nat, j: nat)
    requires IsRun(states, acts) && i <= j < |states|
    ensures states[i].messages <= states[j].messages
    decreases j - i
  {
    hide Step, Enabled;
    if i < j {
      RunsOnlyAppend(states, acts, i, j - 1);
      assert Moves(states[j - 1], acts[j - 1], states[j - 1 + 1]);
      StepOnlyAppends(states[j - 1], acts[j - 1]);
    }
  }

  /** In a chain ids are unique, so looking up the id of a stored message finds it. */
  lemma {:induction false} FindsStored(ms: seq<Message>, m: Message)
    requires Chain(ms) && m in ms
    ensures Find(ms, m.id) == Some(m)
  {
    var rest, last := ms[..|ms| - 1], ms[|ms| - 1];
    assert ms == rest + [last];
    if m != last {
      assert m in rest;
      FindsStored(rest, m);
    }
  }

  lemma {:induction false} StoredFits(ms: seq<Message>, m: Message)
    requires Chain(ms) && m in ms
    ensures Decode(m.body).Ok? && Canonical(m.body)
  {
    var rest, last := ms[..|ms| - 1], ms[|ms| - 1];
    assert ms == rest + [last];
    hide Decode, Canonical, Rows, Find;
    if m != last {
      assert m in rest;
      StoredFits(rest, m);
    }
  }

  /** A stored text is the text of a body exactly when the bodies are equal in Python and
      written alike. */
  lemma StoredTextDecides(text: Json, b: Body)
    requires Canonical(text) && Decode(text).Ok? && Valid(b)
    ensures Encode(b, true) == Some(text) <==> EqualBody(Decode(text).value, b) && AlikeBody(Decode(text).value, b)
  {
    hide Encode, Decode, Valid, EqualBody, AlikeBody, Canonical;
    DecodedIsValid(text);
    EncodeUndoesDecode(text);
    SameTextIffEqualAlike(Decode(text).value, b);
  }

  predicate MayAttach(g: Grant, r: Request) {
    g.checksMetadata || (r.metadata.Mapped? && Names(r.metadata.entries) <= g.messageKeys)
  }

  /** The request describes the stored message: the same writer, a body that is
      equal and written alike, and the same metadata. */
  ghost predicate Describes(m: Message, g: Grant, r: Request) {
    && m.session == g.session && m.author == g.author && m.source == g.source
    && Decode(m.body).Ok?
    && EqualBody(Decode(m.body).value, r.body) && AlikeBody(Decode(m.body).value, r.body)
    && MetadataOf(r).Some? && m.metadata == Tree(MetadataOf(r).value)
  }

  lemma KnownIdIsAdmitted(db: Db, g: Grant, r: Request, m: Message)
    requires Find(db.messages, r.id) == Some(m) && Encode(r.body, true).Some?
    ensures Admit(db, g, r) ==
              if !Granted(g, r.body) then Refuse(NotGranted)
              else if MetadataOf(r) == None then Refuse(BadMetadata)
              else if !MayAttach(g, r) then Refuse(NotGranted)
              else if SameContent(m, g, Encode(r.body, true).value, Tree(MetadataOf(r).value)) then Replay(m)
              else Refuse(Conflict)
  {
    hide Encode, AdmitNew, Granted, Tree, Freeze, Names, SameContent;
  }

  lemma ReplayDecides(db: Db, g: Grant, r: Request, m: Message)
    requires Find(db.messages, r.id) == Some(m) && Valid(r.body) && Decode(m.body).Ok? && Canonical(m.body)
    ensures Append(db, g, r).0 == db
    ensures Append(db, g, r).1.Ok? ==> Append(db, g, r).1.value == m
    ensures Append(db, g, r).1.Ok? <==> Granted(g, r.body) && MayAttach(g, r) && Describes(m, g, r)
  {
    hide Encode, Decode, Admit, Granted, Tree, Valid, EqualBody, AlikeBody, Canonical, Write, MayAttach, MetadataOf;
    StoredTextDecides(m.body, r.body);
    DecodeUndoesEncode(r.body);
    KnownIdIsAdmitted(db, g, r, m);
  }

  /** Main result: a message stored at any earlier point of a run answers every later
      append of its id.  A granted request gets the first message back exactly when it
      describes it, also from an expired writer; otherwise it is refused.  Either way
      nothing changes. */
  lemma ReplayReturnsFirst(states: seq<Db>, acts: seq<Action>, i: nat, j: nat, m: Message, g: Grant, r: Request)
    requires IsRun(states, acts) && i <= j < |states| && m in states[i].messages && r.id == m.id && Valid(r.body)
    ensures Append(states[j], g, r).0 == states[j]
    ensures Append(states[j], g, r).1.Ok? ==> Append(states[j], g, r).1.value == m
    ensures Append(states[j], g, r).1.Ok? <==>
              Granted(g, r.body) && MayAttach(g, r) && Describes(m, g, r)
  {
    RunsOnlyAppend(states, acts, i, j);
    RunsKeepInv(states, acts, j);
    hide IsRun, Chain, Find, Append, Describes, Granted, Valid;
    FindsStored(states[j].messages, m);
    StoredFits(states[j].messages, m);
    ReplayDecides(states[j], g, r, m);
  }

  // ---------------------------------------------------------------------------
  // What transactions keep
  // ---------------------------------------------------------------------------

  /** One call that reaches the store and succeeds; strays reach nothing. */
  function Succeed(db: Db, owner: string, call: Call): Option<Db> {
    match call
    case Stray => Some(db)
    case Save(key, value, expected) =>
      var (after, ok) := SaveStep(db, owner, key, value, expected);
      if ok then Some(after) else None
    case AppendTo(g, r) =>
      var (after, answer) := AppendStep(db, g, r);
      if answer.Ok? then Some(after) else None
  }

  /** All calls, each of them successful: the reference for what a transaction means. */
  function AllSucceed(db: Db, owner: string, ops: seq<Op>): Option<Db>
    decreases |ops|
  {
    if ops == [] then Some(db)
    else
      var next := Succeed(db, owner, ops[0].call);
      if next == None then None else AllSucceed(next.value, owner, ops[1..])
  }

  predicate SwallowsStrays(ops: seq<Op>) {
    forall i :: 0 <= i < |ops| && ops[i].call.Stray? ==> ops[i].swallows
  }

  lemma {:induction false} FailedStaysFailed(t: Tx, owner: string, ops: seq<Op>)
    requires t.failed
    ensures RunOps(t, owner, ops).0 == t
    decreases |ops|
  {
    if ops != [] {
      FailedStaysFailed(t, owner, ops[1..]);
    }
  }

  lemma PerformAgrees(db: Db, owner: string, call: Call)
    ensures var (u, ok) := Perform(Tx(db, false), owner, call);
            (u.failed <==> Succeed(db, owner, call) == None) && (!u.failed ==> Succeed(db, owner, call) == Some(u.db)) &&
            (ok <==> !u.failed && !call.Stray?)
  {
    hide SaveStep, AppendStep;
    var (u, ok) := Perform(Tx(db, false), owner, call);
    match call
    case Stray => assert u == Tx(db, false);
    case Save(key, value, expected) => assert u == Tx(SaveStep(db, owner, key, value, expected).0, !ok);
    case AppendTo(g, r) => assert u == Tx(AppendStep(db, g, r).0, !ok);
  }

  lemma {:induction false} OpsFollowReference(db: Db, owner: string, ops: seq<Op>)
    ensures var (t, ended) := RunOps(Tx(db, false), owner, ops);
            (ended && !t.failed <==> AllSucceed(db, owner, ops).Some? && SwallowsStrays(ops)) &&
            (ended && !t.failed ==> AllSucceed(db, owner, ops) == Some(t.db))
    decreases |ops|
  {
    if ops == [] {
    } else {
      var op, rest := ops[0], ops[1..];
      var (u, ok) := Perform(Tx(db, false), owner, op.call);
      SwallowsSplits(ops);
      PerformAgrees(db, owner, op.call);
      hide SwallowsStrays, Perform, Succeed;
      if u.failed {
        FailedStaysFailed(u, owner, rest);
      } else {
        assert u == Tx(u.db, false);
        OpsFollowReference(u.db, owner, rest);
      }
    }
  }

  lemma SwallowsSplits(ops: seq<Op>)
    requires ops != []
    ensures SwallowsStrays(ops) <==> (ops[0].call.Stray? ==> ops[0].swallows) && SwallowsStrays(ops[1..])
  {
    if (ops[0].call.Stray? ==> ops[0].swallows) && SwallowsStrays(ops[1..]) {
      forall i | 0 <= i < |ops| && ops[i].call.Stray?
        ensures ops[i].swallows
      {
        assert i > 0 ==> ops[i] == ops[1..][i - 1];
      }
    }
  }

  /** Main result: a transaction is all or nothing, whatever errors the callback swallows.
      It commits exactly when the callback returns and every call that reached the store
      succeeded, and then it applies them all; otherwise nothing changes, even if a call
      failed half-way through its rows. */
  lemma TransactIsAllOrNothing(db: Db, owner: string, ops: seq<Op>, returns_: bool)
    ensures Transact(db, owner, ops, returns_) ==
              if returns_ && SwallowsStrays(ops) && AllSucceed(db, owner, ops).Some?
              then (AllSucceed(db, owner, ops).value, true) else (db, false)
  {
    OpsFollowReference(db, owner, ops);
    hide RunOps, AllSucceed, SwallowsStrays;
  }

  /** The version of a record, or -1 before its first save. */
  function Rank(db: Db, at: (string, string)): int {
    if at in db.records then db.records[at].version else -1
  }

  /** What a save expects, as a rank. */
  function Expected(e: Option<int>): int {
    if e == None then -1 else e.value
  }

  /** How often the calls save this record. */
  function Saves(ops: seq<Op>, key: string): nat {
    if ops == [] then 0
    else (if ops[0].call.Save? && ops[0].call.key == key then 1 else 0) + Saves(ops[1..], key)
  }

  lemma SucceedAdvances(db: Db, owner: string, call: Call, at: (string, string))
    requires Succeed(db, owner, call).Some?
    ensures Rank(Succeed(db, owner, call).value, at) ==
              Rank(db, at) + (if call.Save? && (owner, call.key) == at then 1 else 0)
    ensures call.Save? && (owner, call.key) == at ==> Rank(db, at) == Expected(call.expected)
  {
    if call.AppendTo? {
      AppendKeepsRecords(db, call.grant, call.request);
      hide AppendStep;
    } else {
      hide AppendStep, Freeze, Norm;
    }
  }

  lemma {:induction false} SavesAdvance(db: Db, owner: string, ops: seq<Op>, at: (string, string))
    requires AllSucceed(db, owner, ops).Some?
    ensures Rank(AllSucceed(db, owner, ops).value, at) == Rank(db, at) + (if at.0 == owner then Saves(ops, at.1) else 0)
    decreases |ops|
  {
    hide Succeed, Rank;
    if ops != [] {
      SucceedAdvances(db, owner, ops[0].call, at);
      SavesAdvance(Succeed(db, owner, ops[0].call).value, owner, ops[1..], at);
    }
  }

  lemma AppendKeepsRecords(db: Db, g: Grant, r: Request)
    ensures AppendStep(db, g, r).0.records == db.records
  {
    hide Admit, Freeze, Norm, Merge;
  }

  /** Saves of this record that a step of a run commits. */
  function CommittedSaves(db: Db, a: Action, at: (string, string)): nat {
    if a.DoTransact? && a.owner == at.0 && Transact(db, a.owner, a.ops, a.returns_).1 then Saves(a.ops, at.1) else 0
  }

  lemma StepAdvances(db: Db, a: Action, at: (string, string))
    ensures Rank(Step(db, a), at) == Rank(db, at) + CommittedSaves(db, a, at)
  {
    match a
    case DoAppend(g, r) =>
      AppendKeepsRecords(db, g, r);
      hide AppendStep;
    case DoTransact(owner, ops, returns_) =>
      TransactIsAllOrNothing(db, owner, ops, returns_);
      hide Transact;
      if AllSucceed(db, owner, ops).Some? {
        SavesAdvance(db, owner, ops, at);
      }
      hide AllSucceed;
    case _ =>
  }

  function TotalSaves(states: seq<Db>, acts: seq<Action>, at: (string, string), i: nat): nat
    requires |states| == |acts| + 1 && i < |states|
  {
    if i == 0 then 0 else TotalSaves(states, acts, at, i - 1) + CommittedSaves(states[i - 1], acts[i - 1], at)
  }

  /** Main result: over any run the versions of a record go 0, 1, 2 and so on, one for
      each committed save. */
  lemma {:induction false} VersionsCountSaves(states: seq<Db>, acts: seq<Action>, at: (string, string), i: nat)
    requires IsRun(states, acts) && i < |states|
    ensures Rank(states[i], at) == TotalSaves(states, acts, at, i) - 1
  {
    if i > 0 {
      VersionsCountSaves(states, acts, at, i - 1);
      assert Moves(states[i - 1], acts[i - 1], states[i - 1 + 1]);
      hide Step, Enabled, CommittedSaves, Rank;
      StepAdvances(states[i - 1], acts[i - 1], at);
    }
  }

  /** A successful save lies between the ranks before and after its transaction. */
  lemma {:induction false} SaveMeetsRank(db: Db, owner: string, ops: seq<Op>, i: nat)
    requires AllSucceed(db, owner, ops).Some? && i < |ops| && ops[i].call.Save?
    ensures var at := (owner, ops[i].call.key);
            Rank(db, at) <= Expected(ops[i].call.expected) < Rank(AllSucceed(db, owner, ops).value, at)
    decreases |ops|
  {
    hide Succeed, Rank, Expected;
    var at := (owner, ops[i].call.key);
    var next := Succeed(db, owner, ops[0].call).value;
    SucceedAdvances(db, owner, ops[0].call, at);
    if i == 0 {
      SavesAdvance(next, owner, ops[1..], at);
    } else {
      SaveMeetsRank(next, owner, ops[1..], i - 1);
    }
  }

  lemma {:induction false} RanksGrow(states: seq<Db>, acts: seq<Action>, at: (string, string), i: nat, j: nat)
    requires IsRun(states, acts) && i <= j < |states|
    ensures Rank(states[i], at) <= Rank(states[j], at)
    decreases j - i
  {
    if i < j {
      RanksGrow(states, acts, at, i, j - 1);
      assert Moves(states[j - 1], acts[j - 1], states[j - 1 + 1]);
      hide Step, Enabled, CommittedSaves, Rank;
      StepAdvances(states[j - 1], acts[j - 1], at);
    }
  }

  /** Main result: of two transactions of one owner in a run that both save a record
      expecting the same version, at most one commits. */
  lemma OneOfTwoCommits(states: seq<Db>, acts: seq<Action>, i: nat, j: nat, m: nat, n: nat)
    requires IsRun(states, acts) && i < j < |acts| && acts[i].DoTransact? && acts[j].DoTransact?
    requires acts[i].owner == acts[j].owner && m < |acts[i].ops| && n < |acts[j].ops|
    requires acts[i].ops[m].call.Save? && acts[j].ops[n].call.Save?
    requires acts[i].ops[m].call.key == acts[j].ops[n].call.key
    requires acts[i].ops[m].call.expected == acts[j].ops[n].call.expected
    ensures !(Transact(states[i], acts[i].owner, acts[i].ops, acts[i].returns_).1 &&
              Transact(states[j], acts[j].owner, acts[j].ops, acts[j].returns_).1)
  {
    var a, b := acts[i], acts[j];
    var at := (a.owner, a.ops[m].call.key);
    assert Moves(states[i], a, states[i + 1]);
    assert states[i + 1] == Transact(states[i], a.owner, a.ops, a.returns_).0;
    TransactIsAllOrNothing(states[i], a.owner, a.ops, a.returns_);
    TransactIsAllOrNothing(states[j], b.owner, b.ops, b.returns_);
    RanksGrow(states, acts, at, i + 1, j);
    hide Transact, IsRun, AllSucceed, SwallowsStrays, Rank;
    if AllSucceed(states[i], a.owner, a.ops).Some? && AllSucceed(states[j], b.owner, b.ops).Some? {
      SaveMeetsRank(states[i], a.owner, a.ops, m);
      SaveMeetsRank(states[j], b.owner, b.ops, n);
    }
  }
}
