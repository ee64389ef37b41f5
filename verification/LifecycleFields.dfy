/** What the supervisor's verdict means, told from the fields of the frames alone. */
module LifecycleFields {
  import opened Lifecycle
  import opened Text
  import opened Wrappers

  /** An integer as Python counts it: a boolean is one. */
  function Number(f: Field): Option<int> {
    match f
    case Int(i) => Some(i)
    case Bool(true) => Some(1)
    case Bool(false) => Some(0)
    case _ => None
  }

  /** The text compared with the nonce: what the field prints, nothing for what is false. */
  function Printed(f: Field): string {
    match f
    case Str(s) => s
    case Bool(true) => "True"
    case Int(i) => if i != 0 then IntText(i) else ""
    case Other(true, text) => text
    case _ => ""
  }

  predicate Trimmed(s: string) {
    s != "" && !IsSpace(s[0]) && !IsSpace(s[|s| - 1])
  }

  predicate Blank(s: string) {
    forall i :: 0 <= i < |s| ==> IsSpace(s[i])
  }

  // ---------------------------------------------------------------------------
  // Bytes of a text
  // ---------------------------------------------------------------------------

  /** The bytes of one character in UTF-8. */
  lemma BytesOfChar(c: char)
    ensures Utf8Length([c]) == 1 <==> c as int <= 0x7f
    ensures Utf8Length([c]) == 2 <==> 0x80 <= c as int <= 0x7ff
    ensures Utf8Length([c]) == 3 <==> 0x800 <= c as int <= 0xffff
    ensures Utf8Length([c]) == 4 <==> 0x10000 <= c as int
  {
    assert [c][1..] == [];
  }

  lemma {:induction false} BytesAdd(s: string, t: string)
    ensures Utf8Length(s + t) == Utf8Length(s) + Utf8Length(t)
  {
    if s == [] {
      assert s + t == t;
    } else {
      assert (s + t)[1..] == s[1..] + t;
      BytesAdd(s[1..], t);
    }
  }

  // ---------------------------------------------------------------------------
  // The frames of a good stream
  // ---------------------------------------------------------------------------

  predicate StageReads(f: Frame) {
    f.stage.Str? && !Blank(f.stage.s) && Number(f.elapsedMs).Some?
  }

  predicate ReadyReads(f: Frame) {
    Number(f.pid).Some? && Number(f.pid).value > 0
  }

  predicate CommitReads(b: Boot, f: Frame) {
    f.requestId.Str? && Trimmed(f.requestId.s) && Printed(f.nonce) == b.nonce
  }

  predicate SettingsReads(f: Frame) {
    f.success.Bool? && (f.detail.Missing? || (f.detail.Str? && Utf8Length(f.detail.s) <= 2048))
  }

  /** What a line must say at its place, `r` being the place of the ready frame and `c` that
      of the commit. */
  predicate LineReads(b: Boot, line: seq<byte>, i: nat, r: nat, c: nat) {
    |line| <= 4096 && FrameAt(b, line).Some? &&
    var f := FrameAt(b, line).value;
    f.bootId == Str(b.id) &&
    if i < r then f.kind == Str("stage") && StageReads(f)
    else if i == r then f.kind == Str("ready") && ReadyReads(f)
    else if i == c then f.kind == Str("commit") && CommitReads(b, f)
    else f.kind == Str("settings_reloaded") && SettingsReads(f)
  }

  /** The time of a stage line, and -1 before the first. */
  function TimeAt(b: Boot, lines: seq<seq<byte>>, i: int): int
    requires i < |lines|
  {
    if i < 0 || FrameAt(b, lines[i]) == None || Number(FrameAt(b, lines[i]).value.elapsedMs) == None then -1
    else Number(FrameAt(b, lines[i]).value.elapsedMs).value
  }

  /** Every line says what its place asks for, and no stage is earlier than one before it. */
  ghost predicate Reads(b: Boot, lines: seq<seq<byte>>, r: nat, c: nat) {
    && (forall i :: 0 <= i < |lines| ==> LineReads(b, lines[i], i, r, c))
    && (forall i, j :: -1 <= i < j < r && j < |lines| ==> TimeAt(b, lines, i) <= TimeAt(b, lines, j))
  }

  lemma FieldsAgree(b: Boot, f: Frame, last: int)
    ensures StageOk(f, last) <==> StageReads(f) && Number(f.elapsedMs).value >= last
    ensures ReadyOk(f) <==> ReadyReads(f)
    ensures CommitOk(b, f) <==> CommitReads(b, f)
    ensures SettingsOk(f) <==> SettingsReads(f)
    ensures IsInt(f.elapsedMs) ==> Number(f.elapsedMs) == Some(AsInt(f.elapsedMs))
    ensures IsInt(f.elapsedMs) <==> Number(f.elapsedMs).Some?
  {
    if f.stage.Str? {
      BlankIff(f.stage.s);
    }
    if f.requestId.Str? {
      StrippedIff(f.requestId.s);
    }
    hide Strip, IsSpace, IntText, Utf8Length;
  }

  lemma FloorIsTime(b: Boot, lines: seq<seq<byte>>, i: nat)
    requires i <= |lines|
    ensures Floor(b, lines, i) == TimeAt(b, lines, i - 1)
  {
    if i > 0 && FrameAt(b, lines[i - 1]).Some? {
      FieldsAgree(b, FrameAt(b, lines[i - 1]).value, 0);
    }
    hide StageOk, ReadyOk, CommitOk, SettingsOk;
  }

  lemma LineAgrees(b: Boot, lines: seq<seq<byte>>, i: nat, r: nat, c: nat)
    requires i < |lines|
    ensures LineFits(b, lines, i, r, c) <==>
              LineReads(b, lines[i], i, r, c) && (i < r ==> TimeAt(b, lines, i - 1) <= TimeAt(b, lines, i))
  {
    if FrameAt(b, lines[i]).Some? {
      FieldsAgree(b, FrameAt(b, lines[i]).value, Floor(b, lines, i));
    }
    FloorIsTime(b, lines, i);
    hide StageOk, ReadyOk, CommitOk, SettingsOk, ReadyReads, CommitReads, SettingsReads, Floor;
  }

  lemma {:induction false} TimesGrow(b: Boot, lines: seq<seq<byte>>, r: nat, i: int, j: nat)
    requires -1 <= i < j < r && j < |lines|
    requires forall k :: 0 <= k < r && k < |lines| ==> TimeAt(b, lines, k - 1) <= TimeAt(b, lines, k)
    ensures TimeAt(b, lines, i) <= TimeAt(b, lines, j)
    decreases j
  {
    assert TimeAt(b, lines, j - 1) <= TimeAt(b, lines, j);
    if i < j - 1 {
      TimesGrow(b, lines, r, i, j - 1);
    }
  }

  lemma ScriptReads(b: Boot, lines: seq<seq<byte>>, r: nat, c: nat)
    ensures Script(b, lines, r, c) <==> Reads(b, lines, r, c)
  {
    hide LineFits, LineReads, TimeAt;
    if Script(b, lines, r, c) {
      forall i | 0 <= i < |lines|
        ensures LineReads(b, lines[i], i, r, c) && (i < r ==> TimeAt(b, lines, i - 1) <= TimeAt(b, lines, i))
      {
        LineAgrees(b, lines, i, r, c);
      }
      forall i, j | -1 <= i < j < r && j < |lines|
        ensures TimeAt(b, lines, i) <= TimeAt(b, lines, j)
      {
        TimesGrow(b, lines, r, i, j);
      }
    }
    if Reads(b, lines, r, c) {
      forall i | 0 <= i < |lines|
        ensures LineFits(b, lines, i, r, c)
      {
        LineAgrees(b, lines, i, r, c);
        assert i < r ==> TimeAt(b, lines, i - 1) <= TimeAt(b, lines, i);
      }
    }
  }

  /** The state after the last read, however the stream was cut. */
  function AtEnd(b: Boot, chunks: seq<seq<byte>>): State {
    Feed(b, FeedAll(b, START, chunks), [], true)
  }

  /** Main result: the restart is authorised if and only if the stream ends with a whole line
      and its lines are, each for this boot and inside 4096 bytes: named stages at times
      from -1 on that never fall, one ready with a positive pid, and then settings receipts
      with a detail of at most 2048 bytes around one commit that has a trimmed request id
      and carries the nonce. */
  lemma AuthorisedInFields(b: Boot, chunks: seq<seq<byte>>)
    ensures var stream := Concat(chunks);
            AtEnd(b, chunks).commitValid <==>
              && (stream == [] || stream[|stream| - 1] == NEWLINE)
              && exists r: nat, c: nat :: r < c < |Lines(stream)| && Reads(b, Lines(stream), r, c)
  {
    CommitValidIffAuthorised(b, chunks);
    var lines := Lines(Concat(chunks));
    forall r: nat, c: nat
      ensures Script(b, lines, r, c) <==> Reads(b, lines, r, c)
    {
      ScriptReads(b, lines, r, c);
    }
    hide Script, Reads, Lines, Feed, FeedAll, Concat;
  }

  /** Main result: an authorised stream holds exactly one commit frame, and that one is of this
      boot, has a proper request id and carries the nonce. */
  lemma AuthorisedByOneCommit(b: Boot, chunks: seq<seq<byte>>) returns (c: nat)
    requires AtEnd(b, chunks).commitValid
    ensures c < |Lines(Concat(chunks))| && FrameAt(b, Lines(Concat(chunks))[c]).Some?
    ensures var f := FrameAt(b, Lines(Concat(chunks))[c]).value;
            f.kind == Str("commit") && f.bootId == Str(b.id) && f.requestId.Str? && Trimmed(f.requestId.s) && Printed(f.nonce) == b.nonce
    ensures forall i :: 0 <= i < |Lines(Concat(chunks))| && i != c ==>
              FrameAt(b, Lines(Concat(chunks))[i]).Some? && FrameAt(b, Lines(Concat(chunks))[i]).value.kind != Str("commit")
  {
    AuthorisedInFields(b, chunks);
    var lines := Lines(Concat(chunks));
    var r: nat, c': nat :| r < c' < |lines| && Reads(b, lines, r, c');
    c := c';
    hide Lines, Concat, Feed, FeedAll, StageReads, ReadyReads, SettingsReads, TimeAt;
    assert LineReads(b, lines[c], c, r, c);
    assert Str("commit") != Str("stage") && Str("commit") != Str("ready") && Str("commit") != Str("settings_reloaded");
    forall i | 0 <= i < |lines| && i != c
      ensures FrameAt(b, lines[i]).Some? && FrameAt(b, lines[i]).value.kind != Str("commit")
    {
      assert LineReads(b, lines[i], i, r, c);
    }
  }

  // ---------------------------------------------------------------------------
  // The first line out of place
  // ---------------------------------------------------------------------------

  /** What is wrong with line `i` behind lines that were in place, the ready frame being line
      `r` of them and the commit line `c`, if they have come; NoProblem if it fits. */
  function Misfit(b: Boot, lines: seq<seq<byte>>, i: nat, r: nat, c: nat): Problem
    requires i < |lines|
  {
    var raw := lines[i];
    if |raw| > 4096 then Oversize
    else
      match b.parse(raw)
      case NotJson => BadJson
      case NotObject => BadBoot
      case Object(f) =>
        if f.bootId != Str(b.id) then BadBoot
        else if f.kind == Str("stage") then
          if i <= r && StageReads(f) && TimeAt(b, lines, i - 1) <= Number(f.elapsedMs).value then NoProblem else BadStage
        else if f.kind == Str("ready") then
          if i <= r && ReadyReads(f) then NoProblem else BadReady
        else if f.kind == Str("commit") then
          if r < i <= c && CommitReads(b, f) then NoProblem else BadCommit
        else if f.kind == Str("settings_reloaded") then
          if r < i && SettingsReads(f) then NoProblem else BadSettings
        else UnknownKind(f.kind)
  }

  lemma MisfitDecides(b: Boot, t: State, lines: seq<seq<byte>>, i: nat, r: nat, c: nat)
    requires i < |lines| && t.problem == NoProblem && r < c && t.ready == (r < i) && t.commitValid == (c < i)
    requires i <= r ==> t.lastElapsed == TimeAt(b, lines, i - 1)
    ensures (if |lines[i]| > MAX_FRAME then Oversize else Accept(b, t, lines[i]).problem) == Misfit(b, lines, i, r, c)
  {
    if b.parse(lines[i]).Object? {
      FieldsAgree(b, b.parse(lines[i]).frame, t.lastElapsed);
    }
    hide StageOk, ReadyOk, CommitOk, SettingsOk, ReadyReads, CommitReads, SettingsReads, TimeAt;
  }

  /** While no line is oversized, draining reports none. */
  lemma {:induction false} DrainInSize(b: Boot, s: State)
    requires s.problem != Oversize && forall l :: l in Lines(s.buffer) ==> |l| <= MAX_FRAME
    ensures Drain(b, s).problem != Oversize
    decreases |s.buffer|
  {
    var n := LineEnd(s.buffer);
    if n < |s.buffer| {
      LinesUnfold(s.buffer);
      assert n > 0 ==> s.buffer[..n] in Lines(s.buffer);
      forall l | l in Lines(s.buffer[n + 1..])
        ensures l in Lines(s.buffer)
      {
      }
      TakeLineStaysInSize(b, s);
      assert n <= MAX_FRAME by {
        assert n > 0 ==> |s.buffer[..n]| <= MAX_FRAME;
      }
      hide Lines, LineEnd, TakeLine;
      DrainInSize(b, TakeLine(b, s));
    }
  }

  lemma {:induction false} ProblemStays(b: Boot, lines: seq<seq<byte>>, k: nat)
    requires k <= |lines| && AcceptAll(b, START, lines[..k]).problem != NoProblem
    requires forall l :: l in lines ==> |l| <= MAX_FRAME
    ensures AcceptAll(b, START, lines).problem == AcceptAll(b, START, lines[..k]).problem
    decreases |lines|
  {
    if k == |lines| {
      assert lines[..k] == lines;
    } else {
      var rest := lines[..|lines| - 1];
      assert rest[..k] == lines[..k];
      ProblemStays(b, rest, k);
      assert lines[|lines| - 1] in lines;
      hide Accept;
    }
  }

  /** The end of a stream of whole lines that are not too long is decided by its lines. */
  lemma EndIsDecidedByLines(b: Boot, chunks: seq<seq<byte>>)
    requires Ended(Concat(chunks)) && forall l :: l in Lines(Concat(chunks)) ==> |l| <= MAX_FRAME
    ensures AtEnd(b, chunks).problem == AcceptAll(b, START, Lines(Concat(chunks))).problem
  {
    var stream := Concat(chunks);
    FeedAllIsOneFeed(b, START, chunks, [], true);
    assert START.buffer + (stream + []) == stream;
    var s := START.(buffer := stream);
    DrainAcceptsLines(b, s, []);
    DrainInSize(b, s);
    assert [] + Lines(stream) == Lines(stream);
    hide Drain, Lines, AcceptAll, FeedAll, Concat;
  }

  lemma MisfitStops(b: Boot, lines: seq<seq<byte>>, i: nat, r: nat, c: nat)
    requires i < |lines| && r < c && Reads(b, lines[..i], r, c)
    ensures AcceptAll(b, START, lines[..i + 1]).problem == Misfit(b, lines, i, r, c)
  {
    ScriptReads(b, lines[..i], r, c);
    ScriptIsAccepted(b, lines[..i], r, c);
    FloorIsTime(b, lines[..i], i);
    MisfitDecides(b, AcceptAll(b, START, lines[..i]), lines, i, r, c);
    assert lines[..i + 1][..i] == lines[..i] && lines[..i + 1][i] == lines[i];
    assert TimeAt(b, lines[..i], i - 1) == TimeAt(b, lines, i - 1);
    hide Accept, Misfit, Script, Reads, TimeAt;
  }

  /** Main result: the first line out of place gives the error, whatever stands behind it and
      however the stream is cut. */
  lemma FirstMisfitDecides(b: Boot, chunks: seq<seq<byte>>, i: nat, r: nat, c: nat)
    requires Ended(Concat(chunks)) && forall l :: l in Lines(Concat(chunks)) ==> |l| <= MAX_FRAME
    requires i < |Lines(Concat(chunks))| && r < c && Reads(b, Lines(Concat(chunks))[..i], r, c)
    ensures var wrong := Misfit(b, Lines(Concat(chunks)), i, r, c);
            wrong != NoProblem ==> AtEnd(b, chunks).problem == wrong && !AtEnd(b, chunks).commitValid
  {
    EndIsDecidedByLines(b, chunks);
    var lines := Lines(Concat(chunks));
    MisfitStops(b, lines, i, r, c);
    hide Lines, Concat, Misfit, Reads, FeedAll, Drain, AcceptAll;
    if Misfit(b, lines, i, r, c) != NoProblem {
      ProblemStays(b, lines, i + 1);
    }
  }

  /** A commit frame with another nonce is refused as such, and authorises nothing wherever it
      stands. */
  lemma ForeignNonceIsRefused(b: Boot, chunks: seq<seq<byte>>, i: nat, r: nat)
    requires i < |Lines(Concat(chunks))| && FrameAt(b, Lines(Concat(chunks))[i]).Some?
    requires var f := FrameAt(b, Lines(Concat(chunks))[i]).value; f.kind == Str("commit") && Printed(f.nonce) != b.nonce
    ensures !AtEnd(b, chunks).commitValid
    ensures Ended(Concat(chunks)) && (forall l :: l in Lines(Concat(chunks)) ==> |l| <= MAX_FRAME) && r < i &&
            Reads(b, Lines(Concat(chunks))[..i], r, i) && FrameAt(b, Lines(Concat(chunks))[i]).value.bootId == Str(b.id) ==>
              AtEnd(b, chunks).problem == BadCommit
  {
    var lines := Lines(Concat(chunks));
    if AtEnd(b, chunks).commitValid {
      var c := AuthorisedByOneCommit(b, chunks);
      assert false;
    }
    if Ended(Concat(chunks)) && (forall l :: l in lines ==> |l| <= MAX_FRAME) && r < i &&
       Reads(b, lines[..i], r, i) && FrameAt(b, lines[i]).value.bootId == Str(b.id)
    {
      assert lines[i] in lines;
      assert Str("commit") != Str("stage") && Str("commit") != Str("ready");
      assert Misfit(b, lines, i, r, i) == BadCommit;
      hide Lines, Concat, Reads, FeedAll, Feed, Misfit;
      FirstMisfitDecides(b, chunks, i, r, i);
    }
  }
}
