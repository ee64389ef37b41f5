/** Tool calls and their results in the message log: which calls wait for a result, and what
    an accepted message changes about that. */
module Calls {
  import opened Codec
  import opened Effects
  import opened MessageLog
  import opened Wrappers

  // ---------------------------------------------------------------------------
  // Parts by number
  // ---------------------------------------------------------------------------

  function Length(l: List<Part>): nat {
    if l.Nil? then 0 else 1 + Length(l.tail)
  }

  function Behind(front: List<Part>, rest: List<Part>): List<Part> {
    if front.Nil? then rest else Cons(front.head, Behind(front.tail, rest))
  }

  /** The part with number n is the one with n parts before it, and there is none behind the
      last. */
  lemma {:induction false} PartIsNth(front: List<Part>, p: Part, rest: List<Part>)
    ensures PartAt(Behind(front, Cons(p, rest)), Length(front)) == Some(p)
  {
    if front.Cons? {
      PartIsNth(front.tail, p, rest);
    }
  }

  lemma {:induction false} NoPartIff(l: List<Part>, n: int)
    ensures PartAt(l, n) == None <==> n < 0 || n >= Length(l)
  {
    if l.Cons? && n > 0 {
      NoPartIff(l.tail, n - 1);
    }
  }

  /** The part says what its constructor asks for. */
  predicate PartHolds(p: Part) {
    match p
    case Content(kind, value) => |kind| > 0 && kind != "tool_call" && Frozen(value)
    case Call(binding, arguments) => |binding| > 0 && arguments.Mapped? && Frozen(arguments)
  }

  ghost predicate PartsHold(l: List<Part>, calls: bool) {
    forall n :: 0 <= n < Length(l) ==> PartAt(l, n).Some? && PartHolds(PartAt(l, n).value) && (PartAt(l, n).value.Call? ==> calls)
  }

  lemma {:induction false} PartsInFields(l: List<Part>, calls: bool)
    ensures ValidParts(l) && (HasCall(l) ==> calls) <==> PartsHold(l, calls)
  {
    if l.Cons? {
      PartsInFields(l.tail, calls);
      assert PartAt(l, 0) == Some(l.head);
      forall n | 0 <= n < Length(l.tail)
        ensures PartAt(l, n + 1) == PartAt(l.tail, n)
      {
      }
      if PartsHold(l, calls) {
        assert forall n :: 0 <= n < Length(l.tail) ==> PartAt(l.tail, n) == PartAt(l, n + 1);
      }
      if ValidParts(l) && (HasCall(l) ==> calls) {
        assert forall n :: 0 < n < Length(l) ==> PartAt(l, n) == PartAt(l.tail, n - 1);
      }
    }
  }

  /** Main result: the bodies that can be made, written and read, told part by part: only an
      Output holds calls, and only one that continues. */
  lemma ValidInFields(b: Body)
    ensures Valid(b) <==>
              match b
              case Input(parts) => PartsHold(parts, false)
              case Output(parts, finish) => PartsHold(parts, finish == "continue") && finish in ["continue", "complete", "quiet"]
              case ToolResult(legacy, message, index, outcome, parts) =>
                PartsHold(parts, false) && |message| > 0 && index >= 0 &&
                outcome in ["success", "denied", "error", "interrupted"] && (outcome != "error" ==> !legacy)
              case Control(action, through, _) => action in ["pause", "resume", "abandon", "failure"] && through >= 0
  {
    match b
    case Input(parts) => PartsInFields(parts, false);
    case Output(parts, finish) => PartsInFields(parts, finish == "continue");
    case ToolResult(_, _, _, _, parts) => PartsInFields(parts, false);
    case Control(_, _, _) =>
  }

  /** Normalising keeps every part a call or a content. */
  lemma {:induction false} CallsSurvive(l: List<Part>, n: int)
    ensures PartAt(NormParts(l), n).Some? <==> PartAt(l, n).Some?
    ensures PartAt(l, n).Some? ==> (PartAt(NormParts(l), n).value.Call? <==> PartAt(l, n).value.Call?)
  {
    if l.Cons? && n > 0 {
      CallsSurvive(l.tail, n - 1);
    }
  }

  // ---------------------------------------------------------------------------
  // The head of a source
  // ---------------------------------------------------------------------------

  predicate OfSource(m: Message, session: string, source: string) {
    m.session == session && m.source == source
  }

  /** The head is the largest number among the messages of the source in the session, and
      -1 if there is none. */
  lemma {:induction false} HeadIsLargest(ms: seq<Message>, session: string, source: string)
    ensures var head := SourceHead(ms, session, source);
            && (forall m :: m in ms && OfSource(m, session, source) ==> m.seqNo <= head)
            && (head == -1 || exists m :: m in ms && OfSource(m, session, source) && m.seqNo == head)
            && head >= -1
  {
    if ms != [] {
      var rest, last := ms[..|ms| - 1], ms[|ms| - 1];
      assert ms == rest + [last];
      HeadIsLargest(rest, session, source);
      var head := SourceHead(rest, session, source);
      if m :| m in rest && OfSource(m, session, source) && m.seqNo == head {
        assert m in ms;
      }
    }
  }

  /** In a chain a later message of a session has a larger number. */
  lemma NumbersGrow(ms: seq<Message>, i: nat, j: nat)
    requires Chain(ms) && i < j < |ms| && ms[i].session == ms[j].session
    ensures ms[i].seqNo < ms[j].seqNo
  {
    PrefixFits(ms, j);
    assert ms[..j][i] == ms[i];
    ChainPrefix(ms, j);
    SeqBelowCount(ms[..j], ms[i]);
  }

  lemma {:induction false} ChainPrefix(ms: seq<Message>, j: nat)
    requires Chain(ms) && j <= |ms|
    ensures Chain(ms[..j])
  {
    if j < |ms| {
      var rest := ms[..|ms| - 1];
      ChainPrefix(rest, j);
      assert rest[..j] == ms[..j];
    } else {
      assert ms[..j] == ms;
    }
  }

  /** Main result: what a writer has to expect is the number of the last message that its
      source appended to the session, in every state of every run. */
  lemma HeadIsLast(states: seq<Db>, acts: seq<Action>, i: nat, n: nat, session: string, source: string)
    requires IsRun(states, acts) && i < |states| && n < |states[i].messages| && OfSource(states[i].messages[n], session, source)
    requires forall k :: n < k < |states[i].messages| ==> !OfSource(states[i].messages[k], session, source)
    ensures SourceHead(states[i].messages, session, source) == states[i].messages[n].seqNo
  {
    RunsKeepInv(states, acts, i);
    var ms := states[i].messages;
    HeadIsLargest(ms, session, source);
    assert ms[n] in ms;
    var m :| m in ms && OfSource(m, session, source) && m.seqNo == SourceHead(ms, session, source);
    var k :| 0 <= k < |ms| && ms[k] == m;
    if k < n {
      NumbersGrow(ms, k, n);
    }
  }

  // ---------------------------------------------------------------------------
  // Calls that wait for a result
  // ---------------------------------------------------------------------------

  /** An output of this session and source holds a tool call at this part, and no tool
      result names that message and that part. */
  ghost predicate Awaiting(db: Db, session: string, source: string, message: string, index: int) {
    && (exists m :: m in db.messages && CallStands(m, session, source, message, index))
    && (forall m :: m in db.messages && Decode(m.body).Ok? && Decode(m.body).value.ToolResult? ==>
          !(Decode(m.body).value.message == message && Decode(m.body).value.index == index))
  }

  predicate CallStands(m: Message, session: string, source: string, message: string, index: int) {
    && m.id == message && m.session == session && m.source == source
    && Decode(m.body).Ok? && Decode(m.body).value.Output?
    && PartAt(Decode(m.body).value.parts, index).Some? && PartAt(Decode(m.body).value.parts, index).value.Call?
  }

  lemma AwaitingIsCallable(db: Db, g: Grant, message: string, index: int)
    ensures Awaiting(db, g.session, g.source, message, index) <==> Callable(db, g, message, index)
  {
    hide Decode, PartAt;
    forall m: Message
      ensures CallStands(m, g.session, g.source, message, index) <==>
                m.id == message && m.session == g.session && m.source == g.source && HasCallAt(m, index)
    {
    }
  }

  /** A stored result names a stored message. */
  lemma {:induction false} ResultsNameStored(ms: seq<Message>, m: Message)
    requires Chain(ms) && m in ms && Decode(m.body).Ok? && Decode(m.body).value.ToolResult?
    ensures exists c :: c in ms && c.id == Decode(m.body).value.message
  {
    hide Decode, Canonical, Rows, IsResultOf, HasCallAt;
    var rest, last := ms[..|ms| - 1], ms[|ms| - 1];
    assert ms == rest + [last];
    if m == last {
      var c := Find(rest, Decode(m.body).value.message).value;
      assert c in ms;
    } else {
      assert m in rest;
      ResultsNameStored(rest, m);
      var c :| c in rest && c.id == Decode(m.body).value.message;
      assert c in ms;
    }
  }

  lemma AwaitingNext(db: Db, after: Db, m: Message, session: string, source: string, message: string, index: int)
    requires after.messages == db.messages + [m] && Decode(m.body).Ok?
    ensures var b := Decode(m.body).value;
            var names := b.ToolResult? && b.message == message && b.index == index;
            Awaiting(after, session, source, message, index) <==>
              !names && (Awaiting(db, session, source, message, index) ||
                         (CallStands(m, session, source, message, index) &&
                          forall x :: x in db.messages && Decode(x.body).Ok? && Decode(x.body).value.ToolResult? ==>
                            !(Decode(x.body).value.message == message && Decode(x.body).value.index == index)))
  {
    hide Decode, CallStands;
    forall x
      ensures x in after.messages <==> x in db.messages || x == m
    {
    }
    if x :| x in db.messages && CallStands(x, session, source, message, index) {
      assert x in after.messages;
    }
  }

  /** Main result: an accepted result answers the call it names and no other one, and only a
      call that waited; an accepted output adds exactly its own calls; every other call
      waits after an append exactly if it waited before. */
  lemma CallsAfterAppend(db: Db, g: Grant, r: Request, session: string, source: string, message: string, index: int)
    requires Inv(db) && Valid(r.body) && Find(db.messages, r.id) == None && Append(db, g, r).1.Ok?
    ensures var after := Append(db, g, r).0;
            if r.body.ToolResult? && message == r.body.message && index == r.body.index then
              !Awaiting(after, session, source, message, index) && Awaiting(db, g.session, g.source, message, index)
            else if r.body.Output? && message == r.id && session == g.session && source == g.source &&
                    PartAt(r.body.parts, index).Some? && PartAt(r.body.parts, index).value.Call? then
              Awaiting(after, session, source, message, index)
            else Awaiting(after, session, source, message, index) <==> Awaiting(db, session, source, message, index)
  {
    NewIsAppendedIff(db, g, r);
    NewAppendsOne(db, g, r);
    var after, m := Append(db, g, r).0, Append(db, g, r).1.value;
    AwaitingNext(db, after, m, session, source, message, index);
    assert Decode(m.body) == Ok(NormBody(r.body)) && m.id == r.id && m.session == g.session && m.source == g.source;
    if r.body.ToolResult? {
      AwaitingIsCallable(db, g, r.body.message, r.body.index);
    }
    if r.body.Output? {
      CallsSurvive(r.body.parts, index);
    }
    hide Decode, Append, Inv, Valid, Awaiting, Callable, PartsGranted, MetadataGranted, UpdateGranted, Updated, PartAt, NormParts, Freeze,
         Tree, CheckParts, SourceHead, SessionOf;
    if message == r.id {
      NoResultYet(db, message);
    }
  }

  lemma NoResultYet(db: Db, id: string)
    requires Inv(db) && Find(db.messages, id) == None
    ensures forall x :: x in db.messages && Decode(x.body).Ok? && Decode(x.body).value.ToolResult? ==> Decode(x.body).value.message != id
  {
    hide Decode, Rows;
    forall x | x in db.messages && Decode(x.body).Ok? && Decode(x.body).value.ToolResult?
      ensures Decode(x.body).value.message != id
    {
      ResultsNameStored(db.messages, x);
    }
  }

  /** Whatever is accepted, also as a replay, is of a kind the writer was granted, and a
      result answers the one call it was granted. */
  lemma AcceptedIsGranted(db: Db, g: Grant, r: Request)
    requires Append(db, g, r).1.Ok?
    ensures match r.body
            case Input(_) => InputKind in g.kinds
            case Output(_, _) => OutputKind in g.kinds
            case ToolResult(_, message, index, _, _) => ResultKind in g.kinds && g.call == Some((message, index))
            case Control(_, _, _) => ControlKind in g.kinds
  {
    hide Encode, AdmitNew, Write, Find, Freeze, Names;
  }
}
