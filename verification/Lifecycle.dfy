/** The supervisor's side of the lifecycle pipe: newline-framed JSON, read in chunks of
    any size, decides whether the child authorised a restart. */
module Lifecycle {
  import opened Text
  import opened Wrappers

  newtype byte = b: int | 0 <= b < 256

  const NEWLINE: byte := 10
  const MAX_FRAME := 4096
  const MAX_DRAIN := 65536

  /** One member of a decoded JSON object.  `Other` is a float, an array or an object,
      of which only the truth value and the printed form matter. */
  datatype Field = Missing | Null | Bool(b: bool) | Int(i: int) | Str(s: string) | Other(truthy: bool, text: string)

  datatype Frame = Frame(bootId: Field, kind: Field, stage: Field, elapsedMs: Field, pid: Field,
                         requestId: Field, nonce: Field, success: Field, detail: Field)

  datatype Parsed = NotJson | NotObject | Object(frame: Frame)

  /** The identity of one boot, and the JSON decoder the parser uses. */
  datatype Boot = Boot(id: string, nonce: string, parse: seq<byte> -> Parsed)

  datatype Problem =
    | NoProblem | Oversize | BadJson | BadBoot | BadStage | BadReady | BadCommit | BadSettings
    | UnknownKind(kind: Field) | Truncated | DrainBudget

  datatype State = State(
    ready: bool,
    pid: Option<int>,
    commitValid: bool,
    lastStage: string,
    lastElapsed: int,
    problem: Problem,
    buffer: seq<byte>,
    settings: seq<(bool, string)>)

  const START := State(false, None, false, "guardian.spawn", -1, NoProblem, [], [])

  // ---------------------------------------------------------------------------
  // One frame
  // ---------------------------------------------------------------------------

  /** Python counts booleans as integers. */
  predicate IsInt(f: Field) {
    f.Int? || f.Bool?
  }

  function AsInt(f: Field): int
    requires IsInt(f)
  {
    if f.Int? then f.i else if f.b then 1 else 0
  }

  /** `str(value or "")` */
  function TextOr(f: Field): string {
    match f
    case Missing => ""
    case Null => ""
    case Bool(b) => if b then "True" else ""
    case Int(i) => if i == 0 then "" else IntText(i)
    case Str(s) => s
    case Other(truthy, text) => if truthy then text else ""
  }

  function Utf8Length(s: string): nat {
    if s == [] then 0
    else (if s[0] < '\U{80}' then 1 else if s[0] < '\U{800}' then 2 else if s[0] < '\U{10000}' then 3 else 4)
         + Utf8Length(s[1..])
  }

  predicate StageOk(f: Frame, last: int) {
    f.stage.Str? && Strip(f.stage.s) != "" && IsInt(f.elapsedMs) && AsInt(f.elapsedMs) >= last
  }

  predicate ReadyOk(f: Frame) {
    IsInt(f.pid) && AsInt(f.pid) > 0
  }

  predicate CommitOk(b: Boot, f: Frame) {
    f.requestId.Str? && f.requestId.s != "" && Strip(f.requestId.s) == f.requestId.s && TextOr(f.nonce) == b.nonce
  }

  function DetailOf(f: Frame): Field {
    if f.detail.Missing? then Str("") else f.detail
  }

  predicate SettingsOk(f: Frame) {
    f.success.Bool? && DetailOf(f).Str? && Utf8Length(DetailOf(f).s) <= 2048
  }

  function AcceptFrame(b: Boot, s: State, f: Frame): (t: State)
    ensures t.buffer == s.buffer
  {
    if f.bootId != Str(b.id) then s.(problem := BadBoot)
    else if f.kind == Str("stage") then
      if !StageOk(f, s.lastElapsed) || s.ready then s.(problem := BadStage)
      else s.(lastStage := f.stage.s, lastElapsed := AsInt(f.elapsedMs))
    else if f.kind == Str("ready") then
      if s.ready || !ReadyOk(f) then s.(problem := BadReady)
      else s.(ready := true, pid := Some(AsInt(f.pid)))
    else if f.kind == Str("commit") then
      if !s.ready || s.commitValid || !CommitOk(b, f) then s.(problem := BadCommit)
      else s.(commitValid := true)
    else if f.kind == Str("settings_reloaded") then
      if !s.ready || !SettingsOk(f) then s.(problem := BadSettings)
      else s.(settings := s.settings + [(f.success.b, DetailOf(f).s)])
    else s.(problem := UnknownKind(f.kind))
  }

  function Accept(b: Boot, s: State, raw: seq<byte>): (t: State)
    ensures t.buffer == s.buffer
    ensures s.problem != NoProblem ==> t == s
  {
    if s.problem != NoProblem then s
    else match b.parse(raw)
      case NotJson => s.(problem := BadJson)
      case NotObject => s.(problem := BadBoot)
      case Object(f) => AcceptFrame(b, s, f)
  }

  // ---------------------------------------------------------------------------
  // Chunks
  // ---------------------------------------------------------------------------

  /** The length of the text before the first newline, or of the whole text. */
  function LineEnd(s: seq<byte>): (n: nat)
    ensures n <= |s|
    ensures NEWLINE !in s[..n]
    ensures n < |s| ==> s[n] == NEWLINE
  {
    if s == [] || s[0] == NEWLINE then 0 else 1 + LineEnd(s[1..])
  }

  /** Takes the first line off the buffer and accepts it unless it is empty. */
  function TakeLine(b: Boot, s: State): (t: State)
    requires LineEnd(s.buffer) < |s.buffer|
    ensures t.buffer == s.buffer[LineEnd(s.buffer) + 1..]
    ensures s.problem != NoProblem ==> t == s.(buffer := t.buffer)
  {
    var n := LineEnd(s.buffer);
    var rest := s.(buffer := s.buffer[n + 1..]);
    if n == 0 then rest else Accept(b, rest, s.buffer[..n])
  }

  /** Consumes the whole lines of the buffer; an oversized one stops the scan. */
  function Drain(b: Boot, s: State): State
    decreases |s.buffer|
  {
    var n := LineEnd(s.buffer);
    if n == |s.buffer| then s
    else if n > MAX_FRAME then s.(buffer := s.buffer[n + 1..], problem := Oversize)
    else Drain(b, TakeLine(b, s))
  }

  /** The checks after the scan. */
  function Settle(s: State, eof: bool): State {
    var t := if |s.buffer| > MAX_FRAME && s.problem == NoProblem then s.(problem := Oversize) else s;
    var u := if eof && t.buffer != [] && t.problem == NoProblem then t.(problem := Truncated) else t;
    if u.problem != NoProblem then u.(commitValid := false) else u
  }

  function Feed(b: Boot, s: State, payload: seq<byte>, eof: bool): State {
    Settle(Drain(b, s.(buffer := s.buffer + payload)), eof)
  }

  function FeedAll(b: Boot, s: State, chunks: seq<seq<byte>>): State
    decreases chunks
  {
    if chunks == [] then s else FeedAll(b, Feed(b, s, chunks[0], false), chunks[1..])
  }

  function Concat(chunks: seq<seq<byte>>): seq<byte> {
    if chunks == [] then [] else chunks[0] + Concat(chunks[1..])
  }

  /** What `os.read` gives: some bytes (none at end of file), or "would block". */
  datatype Read = Blocked | Chunk(bytes: seq<byte>)

  class LifecycleState {
    const boot: Boot
    var ready: bool
    var gatewayPid: Option<int>
    var commitValid: bool
    var lastStage: string
    var lastElapsedMs: int
    var protocolError: Problem
    var buffer: seq<byte>
    var settingsResults: seq<(bool, string)>

    function View(): State
      reads this
    {
      State(ready, gatewayPid, commitValid, lastStage, lastElapsedMs, protocolError, buffer, settingsResults)
    }

    constructor (boot: Boot)
      ensures this.boot == boot && View() == START
    {
      this.boot := boot;
      ready, gatewayPid, commitValid := false, None, false;
      lastStage, lastElapsedMs, protocolError := "guardian.spawn", -1, NoProblem;
      buffer, settingsResults := [], [];
    }

    method FeedBytes(payload: seq<byte>, eof: bool)
      modifies this
      ensures View() == Feed(boot, old(View()), payload, eof)
    {
      hide Accept, LineEnd;
      buffer := buffer + payload;
      ghost var start := View();
      var n := LineEnd(buffer);
      while n < |buffer|
        invariant n == LineEnd(buffer)
        invariant Drain(boot, View()) == Drain(boot, start)
        decreases |buffer|
      {
        var raw := buffer[..n];
        ghost var before := View();
        buffer := buffer[n + 1..];
        if raw != [] {
          if |raw| > MAX_FRAME {
            protocolError := Oversize;
            break;
          }
          AcceptRaw(raw);
        }
        assert View() == TakeLine(boot, before);
        n := LineEnd(buffer);
      }
      assert View() == Drain(boot, start);
      if |buffer| > MAX_FRAME && protocolError == NoProblem {
        protocolError := Oversize;
      }
      if eof && buffer != [] && protocolError == NoProblem {
        protocolError := Truncated;
      }
      if protocolError != NoProblem {
        commitValid := false;
      }
    }

    method AcceptRaw(raw: seq<byte>)
      modifies this
      ensures View() == Accept(boot, old(View()), raw)
    {
      if protocolError != NoProblem {
        return;
      }
      match boot.parse(raw)
      case NotJson => protocolError := BadJson;
      case NotObject => protocolError := BadBoot;
      case Object(f) =>
        if f.bootId != Str(boot.id) {
          protocolError := BadBoot;
        } else if f.kind == Str("stage") {
          if !StageOk(f, lastElapsedMs) || ready {
            protocolError := BadStage;
          } else {
            lastStage := f.stage.s;
            lastElapsedMs := AsInt(f.elapsedMs);
          }
        } else if f.kind == Str("ready") {
          if ready || !ReadyOk(f) {
            protocolError := BadReady;
          } else {
            ready := true;
            gatewayPid := Some(AsInt(f.pid));
          }
        } else if f.kind == Str("commit") {
          if !ready || commitValid || !CommitOk(boot, f) {
            protocolError := BadCommit;
          } else {
            commitValid := true;
          }
        } else if f.kind == Str("settings_reloaded") {
          if !ready || !SettingsOk(f) {
            protocolError := BadSettings;
          } else {
            settingsResults := settingsResults + [(f.success.b, DetailOf(f).s)];
          }
        } else {
          protocolError := UnknownKind(f.kind);
        }
    }

    /** Drains the pipe after the child is gone.  It goes on until a read would block, the
        stream ends (an empty read), or the budget is passed, which refuses the run. */
    method ReadToEof(arrivals: seq<Read>) returns (taken: seq<seq<byte>>, eof: bool)
      modifies this
      ensures |Concat(taken)| <= MAX_DRAIN ==>
                View() == (if eof then Feed(boot, FeedAll(boot, old(View()), taken), [], true)
                           else FeedAll(boot, old(View()), taken))
      ensures |Concat(taken)| > MAX_DRAIN ==> !commitValid && protocolError == DrainBudget
      ensures |taken| <= |arrivals| && forall i :: 0 <= i < |taken| ==> arrivals[i] == Chunk(taken[i]) && taken[i] != []
      ensures eof <==> |Concat(taken)| <= MAX_DRAIN && |taken| < |arrivals| && arrivals[|taken|] == Chunk([])
      ensures |Concat(taken)| <= MAX_DRAIN ==>
                |taken| == |arrivals| || arrivals[|taken|].Blocked? || arrivals[|taken|] == Chunk([])
      ensures |Concat(taken)| > MAX_DRAIN ==> taken != [] && |Concat(taken[..|taken| - 1])| <= MAX_DRAIN
    {
      hide Feed;
      taken, eof := [], false;
      var total, i := 0, 0;
      while i < |arrivals|
        invariant |taken| == i <= |arrivals| && !eof
        invariant total == |Concat(taken)| <= MAX_DRAIN
        invariant View() == FeedAll(boot, old(View()), taken)
        invariant forall j :: 0 <= j < i ==> arrivals[j] == Chunk(taken[j]) && taken[j] != []
      {
        if arrivals[i].Blocked? {
          return;
        }
        if arrivals[i].bytes == [] {
          FeedBytes([], true);
          eof := true;
          return;
        }
        total := total + |arrivals[i].bytes|;
        ConcatSnoc(taken, arrivals[i].bytes);
        FeedAllSnoc(boot, old(View()), taken, arrivals[i].bytes);
        ghost var before := taken;
        taken := taken + [arrivals[i].bytes];
        assert taken[..|taken| - 1] == before;
        if total > MAX_DRAIN {
          protocolError := DrainBudget;
          commitValid := false;
          return;
        }
        FeedBytes(arrivals[i].bytes, false);
        i := i + 1;
      }
    }
  }

  lemma {:induction false} ConcatSnoc(chunks: seq<seq<byte>>, last: seq<byte>)
    ensures Concat(chunks + [last]) == Concat(chunks) + last
  {
    if chunks != [] {
      assert (chunks + [last])[1..] == chunks[1..] + [last];
      ConcatSnoc(chunks[1..], last);
    } else {
      assert [last][1..] == [];
    }
  }

  lemma {:induction false} FeedAllSnoc(b: Boot, s: State, chunks: seq<seq<byte>>, last: seq<byte>)
    ensures FeedAll(b, s, chunks + [last]) == Feed(b, FeedAll(b, s, chunks), last, false)
    decreases chunks
  {
    if chunks != [] {
      assert (chunks + [last])[1..] == chunks[1..] + [last];
      FeedAllSnoc(b, Feed(b, s, chunks[0], false), chunks[1..], last);
    } else {
      assert [last][1..] == [];
    }
  }

  // ---------------------------------------------------------------------------
  // Chunking does not matter
  // ---------------------------------------------------------------------------

  /** Equal in everything the supervisor reads.  Once a frame was oversized the bytes
      left in the buffer no longer matter. */
  ghost predicate Same(s: State, t: State) {
    s.(buffer := []) == t.(buffer := []) && (s.problem != Oversize ==> s.buffer == t.buffer)
  }

  lemma {:induction false} DrainKeepsProblem(b: Boot, s: State)
    requires s.problem != NoProblem
    ensures Drain(b, s).problem in {s.problem, Oversize}
    ensures Drain(b, s).(buffer := [], problem := s.problem) == s.(buffer := [])
    decreases |s.buffer|
  {
    hide TakeLine, LineEnd;
    if LineEnd(s.buffer) < |s.buffer| {
      DrainKeepsProblem(b, TakeLine(b, s));
    }
  }

  /** After an error the commit flag has no influence on the rest. */
  lemma {:induction false} DrainIgnoresCommit(b: Boot, s: State, v: bool)
    requires s.problem != NoProblem
    ensures Drain(b, s.(commitValid := v)) == Drain(b, s).(commitValid := v)
    decreases |s.buffer|
  {
    hide TakeLine, LineEnd;
    if LineEnd(s.buffer) < |s.buffer| {
      DrainIgnoresCommit(b, TakeLine(b, s), v);
    }
  }

  lemma {:induction false} LineEndOfAppend(s: seq<byte>, more: seq<byte>)
    ensures LineEnd(s + more) == if LineEnd(s) < |s| then LineEnd(s) else |s| + LineEnd(more)
  {
    if s == [] {
      assert s + more == more;
    } else if s[0] != NEWLINE {
      assert (s + more)[1..] == s[1..] + more;
      LineEndOfAppend(s[1..], more);
    }
  }

  lemma {:induction false} DrainLeavesNoLine(b: Boot, s: State)
    ensures Drain(b, s).problem != Oversize ==> LineEnd(Drain(b, s).buffer) == |Drain(b, s).buffer|
    decreases |s.buffer|
  {
    hide TakeLine, LineEnd;
    if LineEnd(s.buffer) < |s.buffer| {
      DrainLeavesNoLine(b, TakeLine(b, s));
    }
  }

  /** The first line is taken the same way whatever stands behind it. */
  lemma TakeLineWithMore(b: Boot, s: State, more: seq<byte>)
    requires LineEnd(s.buffer) < |s.buffer|
    ensures LineEnd(s.buffer + more) == LineEnd(s.buffer)
    ensures TakeLine(b, s.(buffer := s.buffer + more)) == TakeLine(b, s).(buffer := TakeLine(b, s).buffer + more)
    ensures (s.buffer + more)[LineEnd(s.buffer) + 1..] == s.buffer[LineEnd(s.buffer) + 1..] + more
  {
    hide Accept;
    LineEndOfAppend(s.buffer, more);
    var n := LineEnd(s.buffer);
    var rest := s.(buffer := s.buffer[n + 1..]);
    assert (s.buffer + more)[..n] == s.buffer[..n];
    assert (s.buffer + more)[n + 1..] == s.buffer[n + 1..] + more;
    AcceptIgnoresBuffer(b, rest, rest.(buffer := rest.buffer + more), s.buffer[..n]);
  }

  /** Draining in two goes: first what is there, then with more bytes behind it. */
  lemma {:induction false} DrainInTwo(b: Boot, s: State, more: seq<byte>)
    ensures var d := Drain(b, s);
            Same(Drain(b, s.(buffer := s.buffer + more)), Drain(b, d.(buffer := d.buffer + more)))
    decreases |s.buffer|
  {
    hide TakeLine, LineEnd;
    if LineEnd(s.buffer) < |s.buffer| {
      TakeLineWithMore(b, s, more);
      if LineEnd(s.buffer) > MAX_FRAME {
        var d := Drain(b, s);
        DrainKeepsProblem(b, d.(buffer := d.buffer + more));
      } else {
        DrainInTwo(b, TakeLine(b, s), more);
      }
    }
  }

  lemma SettleSame(s: State, t: State, eof: bool)
    requires Same(s, t)
    ensures Same(Settle(s, eof), Settle(t, eof))
  {
  }

  /** Settling before the rest arrives changes nothing in the end. */
  lemma SettleBetween(b: Boot, d: State, more: seq<byte>, eof: bool)
    requires d.problem != Oversize ==> LineEnd(d.buffer) == |d.buffer|
    ensures var e := Settle(d, false);
            Same(Settle(Drain(b, d.(buffer := d.buffer + more)), eof),
                 Settle(Drain(b, e.(buffer := e.buffer + more)), eof))
  {
    hide TakeLine, LineEnd;
    var e := Settle(d, false);
    var x := d.(buffer := d.buffer + more);
    if d.problem != NoProblem {
      DrainKeepsProblem(b, x);
      DrainIgnoresCommit(b, x, false);
      assert e.(buffer := e.buffer + more) == x.(commitValid := false);
    } else if |d.buffer| > MAX_FRAME {
      LineEndOfAppend(d.buffer, more);
      DrainKeepsProblem(b, e.(buffer := e.buffer + more));
    }
  }

  /** Feeding two chunks is feeding their concatenation. */
  lemma FeedInTwo(b: Boot, s: State, first: seq<byte>, more: seq<byte>, eof: bool)
    ensures Same(Feed(b, s, first + more, eof), Feed(b, Feed(b, s, first, false), more, eof))
  {
    var x := s.(buffer := s.buffer + first);
    var d := Drain(b, x);
    assert s.buffer + (first + more) == x.buffer + more;
    DrainInTwo(b, x, more);
    SettleSame(Drain(b, x.(buffer := x.buffer + more)), Drain(b, d.(buffer := d.buffer + more)), eof);
    DrainLeavesNoLine(b, x);
    SettleBetween(b, d, more, eof);
  }

  lemma {:induction false} FeedAllIsOneFeed(b: Boot, s: State, chunks: seq<seq<byte>>, last: seq<byte>, eof: bool)
    ensures Same(Feed(b, FeedAll(b, s, chunks), last, eof), Feed(b, s, Concat(chunks) + last, eof))
    decreases chunks
  {
    if chunks == [] {
      assert Concat(chunks) + last == last;
    } else {
      FeedAllIsOneFeed(b, Feed(b, s, chunks[0], false), chunks[1..], last, eof);
      FeedInTwo(b, s, chunks[0], Concat(chunks[1..]) + last, eof);
      assert chunks[0] + (Concat(chunks[1..]) + last) == Concat(chunks) + last;
    }
  }

  /** Main result: however the same bytes are cut into chunks, the parser ends with the
      same ready flag, pid, stage, settings results, error and commit flag. */
  lemma ChunkingIsUnobservable(b: Boot, xs: seq<seq<byte>>, ys: seq<seq<byte>>, eof: bool)
    requires Concat(xs) == Concat(ys)
    ensures var s, t := Feed(b, FeedAll(b, START, xs), [], eof), Feed(b, FeedAll(b, START, ys), [], eof);
            s.(buffer := []) == t.(buffer := [])
  {
    FeedAllIsOneFeed(b, START, xs, [], eof);
    FeedAllIsOneFeed(b, START, ys, [], eof);
  }

  /** An error never clears, and after any feed it rules a commit out. */
  lemma ErrorNeverClears(b: Boot, s: State, payload: seq<byte>, eof: bool)
    ensures s.problem != NoProblem ==> Feed(b, s, payload, eof).problem in {s.problem, Oversize}
    ensures Feed(b, s, payload, eof).problem != NoProblem ==> !Feed(b, s, payload, eof).commitValid
  {
    if s.problem != NoProblem {
      DrainKeepsProblem(b, s.(buffer := s.buffer + payload));
    }
  }

  // ---------------------------------------------------------------------------
  // What the stream must look like
  // ---------------------------------------------------------------------------

  /** The non-empty complete lines of a stream. */
  function Lines(stream: seq<byte>): seq<seq<byte>>
    decreases |stream|
  {
    var n := LineEnd(stream);
    if n == |stream| then []
    else (if n == 0 then [] else [stream[..n]]) + Lines(stream[n + 1..])
  }

  predicate Ended(stream: seq<byte>) {
    stream == [] || stream[|stream| - 1] == NEWLINE
  }

  predicate IsFrame(b: Boot, line: seq<byte>, kind: string) {
    |line| <= MAX_FRAME && b.parse(line).Object? && b.parse(line).frame.bootId == Str(b.id) &&
    b.parse(line).frame.kind == Str(kind)
  }

  predicate IsStage(b: Boot, line: seq<byte>, last: int) {
    IsFrame(b, line, "stage") && StageOk(b.parse(line).frame, last)
  }

  predicate IsReady(b: Boot, line: seq<byte>) {
    IsFrame(b, line, "ready") && ReadyOk(b.parse(line).frame)
  }

  predicate IsCommit(b: Boot, line: seq<byte>) {
    IsFrame(b, line, "commit") && CommitOk(b, b.parse(line).frame)
  }

  predicate IsSettings(b: Boot, line: seq<byte>) {
    IsFrame(b, line, "settings_reloaded") && SettingsOk(b.parse(line).frame)
  }

  /** The elapsed time the stage at `i` may not fall below. */
  function Floor(b: Boot, lines: seq<seq<byte>>, i: nat): int
    requires i <= |lines|
  {
    if i == 0 then -1
    else match b.parse(lines[i - 1])
      case Object(f) => if IsInt(f.elapsedMs) then AsInt(f.elapsedMs) else -1
      case _ => -1
  }

  /** Line `i` of a stream whose ready frame is line `r` and whose commit is line `c`. */
  predicate LineFits(b: Boot, lines: seq<seq<byte>>, i: nat, r: nat, c: nat)
    requires i < |lines|
  {
    if i < r then IsStage(b, lines[i], Floor(b, lines, i))
    else if i == r then IsReady(b, lines[i])
    else if i == c then IsCommit(b, lines[i])
    else IsSettings(b, lines[i])
  }

  /** Stages in time order, then one ready, then settings receipts around one commit. */
  ghost predicate Script(b: Boot, lines: seq<seq<byte>>, r: nat, c: nat) {
    forall i :: 0 <= i < |lines| ==> LineFits(b, lines, i, r, c)
  }

  function AcceptAll(b: Boot, s: State, lines: seq<seq<byte>>): State {
    if lines == [] then s
    else
      var t := AcceptAll(b, s, lines[..|lines| - 1]);
      var raw := lines[|lines| - 1];
      if |raw| > MAX_FRAME then t.(problem := Oversize) else Accept(b, t, raw)
  }

  lemma PrefixFits(b: Boot, lines: seq<seq<byte>>, k: nat, i: nat, r: nat, c: nat)
    requires i < k <= |lines|
    ensures LineFits(b, lines[..k], i, r, c) == LineFits(b, lines, i, r, c)
  {
    hide IsStage, IsReady, IsCommit, IsSettings;
    assert Floor(b, lines[..k], i) == Floor(b, lines, i);
  }

  lemma ScriptPrefix(b: Boot, lines: seq<seq<byte>>, k: nat, r: nat, c: nat)
    requires k <= |lines| && Script(b, lines, r, c)
    ensures Script(b, lines[..k], r, c)
  {
    hide LineFits;
    forall i | 0 <= i < k
      ensures LineFits(b, lines[..k], i, r, c)
    {
      PrefixFits(b, lines, k, i, r, c);
    }
  }

  /** A script is accepted line by line, and the flags tell how far it got. */
  lemma {:induction false} ScriptIsAccepted(b: Boot, lines: seq<seq<byte>>, r: nat, c: nat)
    requires Script(b, lines, r, c) && r < c
    ensures var s := AcceptAll(b, START, lines);
            s.problem == NoProblem && s.ready == (r < |lines|) && s.commitValid == (c < |lines|) &&
            (|lines| <= r ==> s.lastElapsed == Floor(b, lines, |lines|))
  {
    if lines != [] {
      var k := |lines| - 1;
      ScriptPrefix(b, lines, k, r, c);
      ScriptIsAccepted(b, lines[..k], r, c);
      assert LineFits(b, lines, k, r, c) && Floor(b, lines[..k], k) == Floor(b, lines, k);
      hide StageOk, ReadyOk, CommitOk, SettingsOk;
    }
  }

  function FrameAt(b: Boot, line: seq<byte>): Option<Frame> {
    match b.parse(line)
    case Object(f) => Some(f)
    case _ => None
  }

  /** The settings results of the lines after the ready frame, but for the commit. */
  function Results(b: Boot, lines: seq<seq<byte>>, r: nat, c: nat): seq<(bool, string)> {
    if |lines| <= r + 1 then []
    else
      var k := |lines| - 1;
      var f := FrameAt(b, lines[k]);
      Results(b, lines[..k], r, c) +
      if k == c || f == None || !f.value.success.Bool? || !DetailOf(f.value).Str? then []
      else [(f.value.success.b, DetailOf(f.value).s)]
  }

  /** What the supervisor learns from an accepted stream: the pid of the ready frame, the
      name of the last stage, and every settings result in order. */
  lemma {:induction false} ScriptIsRecorded(b: Boot, lines: seq<seq<byte>>, r: nat, c: nat)
    requires Script(b, lines, r, c) && r < c
    ensures var s := AcceptAll(b, START, lines);
            var last := if |lines| <= r then |lines| else r;
            && s.pid == (if r < |lines| && FrameAt(b, lines[r]).Some? && IsInt(FrameAt(b, lines[r]).value.pid)
                         then Some(AsInt(FrameAt(b, lines[r]).value.pid)) else None)
            && (r < |lines| ==> s.pid != None)
            && (if last == 0 then s.lastStage == START.lastStage
                else FrameAt(b, lines[last - 1]).Some? && FrameAt(b, lines[last - 1]).value.stage == Str(s.lastStage))
            && s.settings == Results(b, lines, r, c)
            && |s.settings| == |lines| - (if r < |lines| then r + 1 else |lines|) - (if c < |lines| then 1 else 0)
  {
    hide LineFits, Floor, Accept;
    if lines != [] {
      var k := |lines| - 1;
      ScriptPrefix(b, lines, k, r, c);
      ScriptIsRecorded(b, lines[..k], r, c);
      ScriptIsAccepted(b, lines[..k], r, c);
      FloorOfPrefix(b, lines, k);
      LineIsRecorded(b, AcceptAll(b, START, lines[..k]), lines, r, c);
    }
  }

  lemma FloorOfPrefix(b: Boot, lines: seq<seq<byte>>, k: nat)
    requires k <= |lines|
    ensures Floor(b, lines[..k], k) == Floor(b, lines, k)
  {
  }

  /** What a fitting line changes. */
  lemma LineIsRecorded(b: Boot, t: State, lines: seq<seq<byte>>, r: nat, c: nat)
    requires lines != [] && r < c && LineFits(b, lines, |lines| - 1, r, c) && t.problem == NoProblem
    requires var k := |lines| - 1;
             t.ready == (r < k) && t.commitValid == (c < k) && (k <= r ==> t.lastElapsed == Floor(b, lines, k))
    ensures var k := |lines| - 1;
            FrameAt(b, lines[k]).Some? && |lines[k]| <= MAX_FRAME &&
            var f := FrameAt(b, lines[k]).value;
            Accept(b, t, lines[k]) ==
              if k < r then t.(lastStage := if f.stage.Str? then f.stage.s else "", lastElapsed := if IsInt(f.elapsedMs) then AsInt(f.elapsedMs) else 0)
              else if k == r then t.(ready := true, pid := if IsInt(f.pid) then Some(AsInt(f.pid)) else None)
              else if k == c then t.(commitValid := true)
              else t.(settings := t.settings + (if f.success.Bool? && DetailOf(f).Str? then [(f.success.b, DetailOf(f).s)] else []))
    ensures var k := |lines| - 1;
            var f := FrameAt(b, lines[k]).value;
            (k < r ==> f.stage.Str?) && (k == r ==> IsInt(f.pid)) && (r < k && k != c ==> f.success.Bool? && DetailOf(f).Str?)
  {
    hide Floor, Utf8Length;
  }

  lemma ScriptExtends(b: Boot, lines: seq<seq<byte>>, r: nat, c: nat)
    requires lines != [] && Script(b, lines[..|lines| - 1], r, c) && LineFits(b, lines, |lines| - 1, r, c)
    ensures Script(b, lines, r, c)
  {
    hide LineFits;
    forall i | 0 <= i < |lines|
      ensures LineFits(b, lines, i, r, c)
    {
      if i < |lines| - 1 {
        PrefixFits(b, lines, |lines| - 1, i, r, c);
      }
    }
  }

  /** Whatever is accepted without error is a script; `c` is past the end until a commit came. */
  lemma {:induction false} AcceptedIsScript(b: Boot, lines: seq<seq<byte>>) returns (r: nat, c: nat)
    ensures var s := AcceptAll(b, START, lines);
            s.problem == NoProblem ==>
              r < c && Script(b, lines, r, c) && s.ready == (r < |lines|) && s.commitValid == (c < |lines|) &&
              (|lines| <= r ==> s.lastElapsed == Floor(b, lines, |lines|))
  {
    r, c := |lines|, |lines| + 1;
    if lines != [] {
      var k := |lines| - 1;
      var r0, c0 := AcceptedIsScript(b, lines[..k]);
      var s, t := AcceptAll(b, START, lines), AcceptAll(b, START, lines[..k]);
      if s.problem == NoProblem {
        assert Floor(b, lines[..k], k) == Floor(b, lines, k);
        r := if t.ready then r0 else if s.ready then k else |lines|;
        c := if t.commitValid then c0 else if s.commitValid then k else |lines| + 1;
        AcceptedLineFits(b, t, lines, r, c);
        ScriptReindex(b, lines[..k], r0, c0, r, c);
        ScriptExtends(b, lines, r, c);
      }
    }
  }

  /** An accepted line fits the place the flags assign to it. */
  lemma AcceptedLineFits(b: Boot, t: State, lines: seq<seq<byte>>, r: nat, c: nat)
    requires lines != [] && |lines[|lines| - 1]| <= MAX_FRAME && t.problem == NoProblem
    requires var k, s := |lines| - 1, Accept(b, t, lines[|lines| - 1]);
             s.problem == NoProblem && (!t.ready ==> t.lastElapsed == Floor(b, lines, k)) && (t.commitValid ==> t.ready) &&
             (if t.ready then r < k else if s.ready then r == k else r == k + 1) &&
             (if t.commitValid then r < c < k else if s.commitValid then c == k else c == k + 2)
    ensures LineFits(b, lines, |lines| - 1, r, c)
  {
    hide StageOk, ReadyOk, CommitOk, SettingsOk, Floor;
  }

  /** Positions past the end of a script may be moved. */
  lemma ScriptReindex(b: Boot, lines: seq<seq<byte>>, r0: nat, c0: nat, r: nat, c: nat)
    requires Script(b, lines, r0, c0) && r0 < c0 && r < c
    requires r == r0 || (r >= |lines| && r0 >= |lines|)
    requires c == c0 || (c >= |lines| && c0 >= |lines|)
    ensures Script(b, lines, r, c)
  {
    hide IsStage, IsReady, IsCommit, IsSettings, Floor;
    forall i | 0 <= i < |lines|
      ensures LineFits(b, lines, i, r, c)
    {
      assert LineFits(b, lines, i, r0, c0);
    }
  }

  lemma EndedAfterLine(stream: seq<byte>)
    requires LineEnd(stream) < |stream|
    ensures Ended(stream) <==> Ended(stream[LineEnd(stream) + 1..])
  {
    hide LineEnd, Ended;
    EndedAfter(stream, LineEnd(stream));
  }

  lemma EndedAfter(stream: seq<byte>, n: nat)
    requires n < |stream| && stream[n] == NEWLINE
    ensures Ended(stream) <==> Ended(stream[n + 1..])
  {
    var rest := stream[n + 1..];
    assert rest != [] ==> rest[|rest| - 1] == stream[|stream| - 1];
  }

  lemma LinesUnfold(stream: seq<byte>)
    requires LineEnd(stream) < |stream|
    ensures var n := LineEnd(stream);
            Lines(stream) == (if n == 0 then [] else [stream[..n]]) + Lines(stream[n + 1..])
  {
  }

  lemma Reassociate(x: seq<seq<byte>>, y: seq<seq<byte>>, z: seq<seq<byte>>)
    ensures x + (y + z) == (x + y) + z
  {
  }

  lemma LinesAfterLine(stream: seq<byte>, done: seq<seq<byte>>)
    requires LineEnd(stream) < |stream|
    ensures var n := LineEnd(stream);
            done + Lines(stream) == (if n == 0 then done else done + [stream[..n]]) + Lines(stream[n + 1..])
  {
    hide LineEnd, Lines;
    var n := LineEnd(stream);
    LinesUnfold(stream);
    Reassociate(done, if n == 0 then [] else [stream[..n]], Lines(stream[n + 1..]));
    assert done + [] == done;
  }

  /** Taking a line moves it from the stream to the accepted lines. */
  lemma TakeLineAccepts(b: Boot, s: State, done: seq<seq<byte>>) returns (more: seq<seq<byte>>)
    requires s == AcceptAll(b, START, done).(buffer := s.buffer) && LineEnd(s.buffer) < |s.buffer|
    requires LineEnd(s.buffer) <= MAX_FRAME
    ensures var t := TakeLine(b, s);
            t == AcceptAll(b, START, more).(buffer := t.buffer) &&
            more + Lines(t.buffer) == done + Lines(s.buffer) && (Ended(t.buffer) <==> Ended(s.buffer))
  {
    hide Accept, Lines, Ended, LineEnd;
    EndedAfterLine(s.buffer);
    LinesAfterLine(s.buffer, done);
    var n := LineEnd(s.buffer);
    more := if n == 0 then done else done + [s.buffer[..n]];
    if n > 0 {
      assert more[..|more| - 1] == done;
      AcceptIgnoresBuffer(b, s.(buffer := s.buffer[n + 1..]), AcceptAll(b, START, done), s.buffer[..n]);
    }
  }

  /** Draining accepts exactly the lines of the stream. */
  lemma {:induction false} DrainAcceptsLines(b: Boot, s: State, done: seq<seq<byte>>)
    requires s == AcceptAll(b, START, done).(buffer := s.buffer) && s.problem != Oversize
    ensures var d, all := Drain(b, s), AcceptAll(b, START, done + Lines(s.buffer));
            if d.problem == Oversize then all.problem != NoProblem
            else d == all.(buffer := d.buffer) && (d.buffer == [] <==> Ended(s.buffer))
    decreases |s.buffer|
  {
    hide TakeLine, LineEnd, Accept;
    var n := LineEnd(s.buffer);
    if n == |s.buffer| {
      NoLines(s.buffer);
      assert done + [] == done;
    } else if n <= MAX_FRAME {
      var more := TakeLineAccepts(b, s, done);
      TakeLineStaysInSize(b, s);
      DrainAcceptsLines(b, TakeLine(b, s), more);
    } else {
      var all := done + [s.buffer[..n]];
      assert all[..|all| - 1] == done;
      assert done + ([s.buffer[..n]] + Lines(s.buffer[n + 1..])) == all + Lines(s.buffer[n + 1..]);
      AcceptAllKeepsProblem(b, all, Lines(s.buffer[n + 1..]));
    }
  }

  /** Accepting a line never reports it as oversized. */
  lemma TakeLineStaysInSize(b: Boot, s: State)
    requires LineEnd(s.buffer) < |s.buffer| && s.problem != Oversize
    ensures TakeLine(b, s).problem != Oversize
  {
  }

  lemma NoLines(stream: seq<byte>)
    requires LineEnd(stream) == |stream|
    ensures Lines(stream) == [] && (stream == [] <==> Ended(stream))
  {
    assert stream != [] ==> stream[|stream| - 1] in stream[..LineEnd(stream)];
  }

  lemma AcceptIgnoresBuffer(b: Boot, s: State, t: State, raw: seq<byte>)
    requires s == t.(buffer := s.buffer)
    ensures Accept(b, s, raw) == Accept(b, t, raw).(buffer := s.buffer)
  {
    hide AcceptFrame;
    if s.problem == NoProblem && b.parse(raw).Object? {
      FrameIgnoresBuffer(b, s, t, b.parse(raw).frame);
    }
  }

  lemma FrameIgnoresBuffer(b: Boot, s: State, t: State, f: Frame)
    requires s == t.(buffer := s.buffer)
    ensures AcceptFrame(b, s, f) == AcceptFrame(b, t, f).(buffer := s.buffer)
  {
    hide StageOk, ReadyOk, CommitOk, SettingsOk, DetailOf, AsInt;
    if f.bootId == Str(b.id) {
      if f.kind == Str("stage") {
      } else if f.kind == Str("ready") {
      } else if f.kind == Str("commit") {
      }
    }
  }

  lemma {:induction false} AcceptAllKeepsProblem(b: Boot, done: seq<seq<byte>>, more: seq<seq<byte>>)
    requires AcceptAll(b, START, done).problem != NoProblem
    ensures AcceptAll(b, START, done + more).problem != NoProblem
  {
    if more == [] {
      assert done + more == done;
    } else {
      assert (done + more)[..|done + more| - 1] == done + more[..|more| - 1];
      AcceptAllKeepsProblem(b, done, more[..|more| - 1]);
    }
  }

  /** The whole stream authorises a restart: whole lines only, one ready, one later
      commit of this boot carrying the nonce, nothing else out of place. */
  ghost predicate Authorises(b: Boot, stream: seq<byte>) {
    Ended(stream) &&
    exists r: nat, c: nat :: r < c < |Lines(stream)| && Script(b, Lines(stream), r, c)
  }

  /** Main result: at end of stream `commit_valid` holds exactly for an authorising
      stream, however it was cut into chunks. */
  lemma CommitValidIffAuthorised(b: Boot, chunks: seq<seq<byte>>)
    ensures Feed(b, FeedAll(b, START, chunks), [], true).commitValid <==> Authorises(b, Concat(chunks))
  {
    var stream := Concat(chunks);
    FeedAllIsOneFeed(b, START, chunks, [], true);
    assert START.buffer + (stream + []) == stream;
    var s := START.(buffer := stream);
    DrainAcceptsLines(b, s, []);
    assert [] + Lines(stream) == Lines(stream);
    if Feed(b, START, stream + [], true).commitValid {
      var r, c := AcceptedIsScript(b, Lines(stream));
    }
    if Authorises(b, stream) {
      var r: nat, c: nat :| r < c < |Lines(stream)| && Script(b, Lines(stream), r, c);
      ScriptIsAccepted(b, Lines(stream), r, c);
    }
  }

  // ---------------------------------------------------------------------------
  // The writer
  // ---------------------------------------------------------------------------

  function StageFrame(b: Boot, name: string, elapsed: int): Frame {
    Frame(Str(b.id), Str("stage"), Str(name), Int(elapsed), Missing, Missing, Missing, Missing, Missing)
  }

  function ReadyFrame(b: Boot, pid: int): Frame {
    Frame(Str(b.id), Str("ready"), Missing, Missing, Int(pid), Missing, Missing, Missing, Missing)
  }

  function CommitFrame(b: Boot, requestId: string): Frame {
    Frame(Str(b.id), Str("commit"), Missing, Missing, Missing, Str(requestId), Str(b.nonce), Missing, Missing)
  }

  /** The encoder writes each of the frames as one non-empty line without a newline that
      decodes to it. */
  ghost predicate Encodes(b: Boot, encode: Frame -> seq<byte>, frames: seq<Frame>) {
    forall f :: f in frames ==> encode(f) != [] && NEWLINE !in encode(f) && b.parse(encode(f)) == Object(f)
  }

  datatype WriteResult = Written | InvalidArgument | FrameTooLong

  /** The child's end of the pipe.  `clock` is the monotonic time since the start in ms. */
  class CommitChannel {
    const boot: Boot
    const encode: Frame -> seq<byte>
    var pipe: seq<byte>
    ghost var frames: seq<Frame>

    ghost predicate Valid()
      reads this
    {
      pipe == Wire(encode, frames) &&
      forall i :: 0 <= i < |frames| ==> |encode(frames[i])| < MAX_FRAME
    }

    constructor (boot: Boot, encode: Frame -> seq<byte>)
      ensures this.boot == boot && this.encode == encode && frames == [] && Valid()
    {
      this.boot, this.encode, pipe, frames := boot, encode, [], [];
    }

    method Stage(name: string, clock: nat) returns (result: WriteResult)
      requires Valid()
      modifies this
      ensures Valid()
      ensures result == InvalidArgument <==> Strip(name) == ""
      ensures frames == if result == Written then old(frames) + [StageFrame(boot, Strip(name), clock)] else old(frames)
    {
      var clean := Strip(name);
      if clean == "" {
        return InvalidArgument;
      }
      result := WriteFrame(StageFrame(boot, clean, clock));
    }

    method Ready(pid: int) returns (result: WriteResult)
      requires Valid()
      modifies this
      ensures Valid()
      ensures result == InvalidArgument <==> pid <= 0
      ensures frames == if result == Written then old(frames) + [ReadyFrame(boot, pid)] else old(frames)
    {
      if pid <= 0 {
        return InvalidArgument;
      }
      result := WriteFrame(ReadyFrame(boot, pid));
    }

    method CommitOpaque(requestId: string) returns (result: WriteResult)
      requires Valid()
      modifies this
      ensures Valid()
      ensures result == InvalidArgument <==> requestId == "" || Strip(requestId) != requestId
      ensures frames == if result == Written then old(frames) + [CommitFrame(boot, requestId)] else old(frames)
    {
      if requestId == "" || Strip(requestId) != requestId {
        return InvalidArgument;
      }
      result := WriteFrame(CommitFrame(boot, requestId));
    }

    method WriteFrame(f: Frame) returns (result: WriteResult)
      requires Valid()
      modifies this
      ensures Valid()
      ensures result == if |encode(f)| + 1 > MAX_FRAME then FrameTooLong else Written
      ensures frames == if result == Written then old(frames) + [f] else old(frames)
    {
      var payload := encode(f) + [NEWLINE];
      if |payload| > MAX_FRAME {
        return FrameTooLong;
      }
      WireSnoc(encode, frames, f);
      pipe := pipe + payload;
      frames := frames + [f];
      result := Written;
    }
  }

  function Wire(encode: Frame -> seq<byte>, frames: seq<Frame>): seq<byte> {
    if frames == [] then [] else encode(frames[0]) + [NEWLINE] + Wire(encode, frames[1..])
  }

  function Encoded(encode: Frame -> seq<byte>, frames: seq<Frame>): (lines: seq<seq<byte>>)
    ensures |lines| == |frames| && forall i :: 0 <= i < |frames| ==> lines[i] == encode(frames[i])
  {
    if frames == [] then [] else [encode(frames[0])] + Encoded(encode, frames[1..])
  }

  lemma {:induction false} WireSnoc(encode: Frame -> seq<byte>, frames: seq<Frame>, f: Frame)
    ensures Wire(encode, frames + [f]) == Wire(encode, frames) + (encode(f) + [NEWLINE])
  {
    if frames == [] {
      assert ([f])[1..] == [];
      assert frames + [f] == [f];
    } else {
      assert (frames + [f])[1..] == frames[1..] + [f];
      WireSnoc(encode, frames[1..], f);
    }
  }

  lemma LinesOfHead(head: seq<byte>, tail: seq<byte>)
    requires NEWLINE !in head && head != []
    ensures Lines(head + [NEWLINE] + tail) == [head] + Lines(tail)
    ensures Ended(head + [NEWLINE] + tail) <==> Ended(tail)
  {
    hide Ended;
    var all := head + [NEWLINE] + tail;
    assert all == head + ([NEWLINE] + tail);
    LineEndOfAppend(head, [NEWLINE] + tail);
    assert forall i :: 0 <= i < |head| ==> head[i] != NEWLINE;
    assert all[..|head|] == head && all[|head| + 1..] == tail;
    EndedAfterLine(all);
  }

  /** The lines of what was written are the encoded frames. */
  lemma {:induction false} LinesOfWire(b: Boot, encode: Frame -> seq<byte>, frames: seq<Frame>)
    requires Encodes(b, encode, frames)
    ensures Lines(Wire(encode, frames)) == Encoded(encode, frames) && Ended(Wire(encode, frames))
  {
    if frames != [] {
      hide Lines, Ended;
      LinesOfWire(b, encode, frames[1..]);
      LinesOfHead(encode(frames[0]), Wire(encode, frames[1..]));
    }
  }

  /** The frame a writer makes at place `i` of `n`: stages, then ready, then commit. */
  predicate WriterFrame(b: Boot, f: Frame, i: nat, n: nat) {
    if i + 2 < n then
      f.stage.Str? && f.elapsedMs.Int? && f.elapsedMs.i >= 0 && Strip(f.stage.s) != "" &&
      f == StageFrame(b, f.stage.s, f.elapsedMs.i)
    else if i + 2 == n then f.pid.Int? && f.pid.i > 0 && f == ReadyFrame(b, f.pid.i)
    else f.requestId.Str? && f.requestId.s != "" && Strip(f.requestId.s) == f.requestId.s &&
         f == CommitFrame(b, f.requestId.s)
  }

  /** Stage frames in clock order, then ready, then commit, as the writer makes them. */
  ghost predicate OrderedFrames(b: Boot, frames: seq<Frame>) {
    && |frames| >= 2
    && (forall i :: 0 <= i < |frames| ==> WriterFrame(b, frames[i], i, |frames|))
    && (forall i :: 0 < i < |frames| - 2 ==> frames[i - 1].elapsedMs.i <= frames[i].elapsedMs.i)
  }

  /** What `CommitChannel.Stage` writes is such a frame. */
  lemma WrittenStageFits(b: Boot, name: string, clock: nat, i: nat, n: nat)
    requires Strip(name) != "" && i + 2 < n
    ensures WriterFrame(b, StageFrame(b, Strip(name), clock), i, n)
  {
    StripTwice(name);
  }

  /** Main result: a writer that reports its stages in clock order, then ready, then a
      commit is always accepted, whatever chunks the pipe delivers. */
  lemma OrderedWriterIsAccepted(b: Boot, encode: Frame -> seq<byte>, frames: seq<Frame>, chunks: seq<seq<byte>>)
    requires Encodes(b, encode, frames) && OrderedFrames(b, frames)
    requires forall i :: 0 <= i < |frames| ==> |encode(frames[i])| < MAX_FRAME
    requires Concat(chunks) == Wire(encode, frames)
    ensures Feed(b, FeedAll(b, START, chunks), [], true).commitValid
    ensures Feed(b, FeedAll(b, START, chunks), [], true).problem == NoProblem
  {
    hide LineFits, Feed, FeedAll, WriterFrame, Lines, Wire, Concat;
    LinesOfWire(b, encode, frames);
    var lines := Encoded(encode, frames);
    var r, c := |frames| - 2, |frames| - 1;
    forall i | 0 <= i < |lines|
      ensures LineFits(b, lines, i, r, c)
    {
      WriterLineFits(b, encode, frames, i);
    }
    assert r < c < |Lines(Concat(chunks))| && Script(b, Lines(Concat(chunks)), r, c);
    CommitValidIffAuthorised(b, chunks);
    ErrorNeverClears(b, FeedAll(b, START, chunks), [], true);
  }

  lemma WriterLineFits(b: Boot, encode: Frame -> seq<byte>, frames: seq<Frame>, i: nat)
    requires Encodes(b, encode, frames) && OrderedFrames(b, frames) && i < |frames|
    requires |encode(frames[i])| < MAX_FRAME
    ensures LineFits(b, Encoded(encode, frames), i, |frames| - 2, |frames| - 1)
  {
    hide Strip;
    var lines := Encoded(encode, frames);
    assert lines[i] == encode(frames[i]) && b.parse(lines[i]) == Object(frames[i]);
    assert WriterFrame(b, frames[i], i, |frames|);
    if 0 < i {
      assert lines[i - 1] == encode(frames[i - 1]) && b.parse(lines[i - 1]) == Object(frames[i - 1]);
      assert WriterFrame(b, frames[i - 1], i - 1, |frames|);
    }
  }

  // ---------------------------------------------------------------------------
  // How many commits a writer may send
  // ---------------------------------------------------------------------------

  function CommitFrames(b: Boot, requests: seq<string>): (frames: seq<Frame>)
    ensures |frames| == |requests| && forall i :: 0 <= i < |frames| ==> frames[i] == CommitFrame(b, requests[i])
  {
    seq(|requests|, i requires 0 <= i < |requests| => CommitFrame(b, requests[i]))
  }

  /** Stages in clock order and then ready: what the writer sends before any commit. */
  ghost predicate StartFrames(b: Boot, frames: seq<Frame>) {
    && frames != []
    && (forall i :: 0 <= i < |frames| ==> WriterFrame(b, frames[i], i, |frames| + 1))
    && (forall i :: 0 < i < |frames| - 1 ==> frames[i - 1].elapsedMs.i <= frames[i].elapsedMs.i)
  }

  predicate ProperRequest(request: string) {
    request != "" && Strip(request) == request
  }

  /** A line with a commit frame can only be the one commit of a script. */
  lemma CommitLineIsCommit(b: Boot, lines: seq<seq<byte>>, i: nat, r: nat, c: nat)
    requires i < |lines| && r < c && b.parse(lines[i]).Object?
    ensures LineFits(b, lines, i, r, c) ==> (b.parse(lines[i]).frame.kind == Str("commit") <==> i == c)
  {
    assert Str("commit") != Str("stage") && Str("commit") != Str("ready") && Str("commit") != Str("settings_reloaded");
  }

  /** Main result: after a proper start, a writer's stream authorises the restart if and only
      if it sends exactly one commit, whatever chunks the pipe delivers.  None is not
      enough, and a second one takes the authorisation back. */
  lemma AuthorisedIffOneCommit(b: Boot, encode: Frame -> seq<byte>, start: seq<Frame>, requests: seq<string>,
                               chunks: seq<seq<byte>>)
    requires Encodes(b, encode, start + CommitFrames(b, requests)) && StartFrames(b, start)
    requires forall i :: 0 <= i < |requests| ==> ProperRequest(requests[i])
    requires forall f :: f in start + CommitFrames(b, requests) ==> |encode(f)| < MAX_FRAME
    requires Concat(chunks) == Wire(encode, start + CommitFrames(b, requests))
    ensures Feed(b, FeedAll(b, START, chunks), [], true).commitValid <==> |requests| == 1
  {
    var frames := start + CommitFrames(b, requests);
    if |requests| == 1 {
      OneCommitIsOrdered(b, start, requests[0]);
      assert frames == start + [CommitFrame(b, requests[0])];
      OrderedWriterIsAccepted(b, encode, frames, chunks);
    } else {
      LinesOfWire(b, encode, frames);
      CommitValidIffAuthorised(b, chunks);
      hide Feed, FeedAll, Wire, Lines, Concat, LineFits, WriterFrame, CommitFrame;
      if Authorises(b, Concat(chunks)) {
        var lines := Encoded(encode, frames);
        var r: nat, c: nat :| r < c < |lines| && Script(b, lines, r, c);
        OtherwiseNoScript(b, encode, start, requests, r, c);
      }
    }
  }

  lemma OneCommitIsOrdered(b: Boot, start: seq<Frame>, request: string)
    requires StartFrames(b, start) && ProperRequest(request)
    ensures OrderedFrames(b, start + [CommitFrame(b, request)])
  {
    var frames := start + [CommitFrame(b, request)];
    forall i | 0 <= i < |frames|
      ensures WriterFrame(b, frames[i], i, |frames|)
    {
      assert i < |start| ==> frames[i] == start[i];
    }
  }

  /** With none or several commits such frames are no script. */
  lemma OtherwiseNoScript(b: Boot, encode: Frame -> seq<byte>, start: seq<Frame>, requests: seq<string>, r: nat, c: nat)
    requires Encodes(b, encode, start + CommitFrames(b, requests)) && StartFrames(b, start) && |requests| != 1
    requires r < c < |start| + |requests|
    ensures !Script(b, Encoded(encode, start + CommitFrames(b, requests)), r, c)
  {
    var frames := start + CommitFrames(b, requests);
    var lines := Encoded(encode, frames);
    StartHasNoCommit(b, start);
    var i := if c < |start| then c else if c == |start| then c + 1 else |start|;
    assert i < |start| ==> frames[i] == start[i];
    assert lines[i] == encode(frames[i]) && b.parse(lines[i]) == Object(frames[i]);
    CommitLineIsCommit(b, lines, i, r, c);
    hide LineFits;
    assert !LineFits(b, lines, i, r, c);
  }

  lemma StartHasNoCommit(b: Boot, start: seq<Frame>)
    requires StartFrames(b, start)
    ensures forall i :: 0 <= i < |start| ==> start[i].kind != Str("commit")
  {
    forall i | 0 <= i < |start|
      ensures start[i].kind != Str("commit")
    {
      assert WriterFrame(b, start[i], i, |start| + 1);
      assert Str("commit") != Str("stage") && Str("commit") != Str("ready");
    }
  }
}
