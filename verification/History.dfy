/** Cutting a session's history into units, and cutting long tool results to a budget. */
module History {
  import opened Wrappers
  import opened Text

  /** The control turn of a message: none, a proper id, or a value that is refused. */
  datatype Turn = NoTurn | TurnId(id: string) | BadTurn

  datatype Role = User | Assistant | OtherRole

  datatype Msg = Msg(turn: Turn, role: Role, proactive: bool)

  type Units = seq<(nat, nat)>

  predicate IsEvent(m: Msg) {
    m.role == Assistant && m.proactive
  }

  // ---------------------------------------------------------------------------
  // Units
  // ---------------------------------------------------------------------------

  function TurnEnd(ms: seq<Msg>, i: nat, turn: Turn): (e: nat)
    requires i <= |ms|
    ensures i <= e <= |ms|
    decreases |ms| - i
  {
    if i < |ms| && ms[i].turn == turn then TurnEnd(ms, i + 1, turn) else i
  }

  predicate OpensUnit(m: Msg) {
    m.turn != NoTurn || m.role == User || IsEvent(m)
  }

  function LegacyEnd(ms: seq<Msg>, i: nat): (e: nat)
    requires i <= |ms|
    ensures i <= e <= |ms|
    decreases |ms| - i
  {
    if i < |ms| && !OpensUnit(ms[i]) then LegacyEnd(ms, i + 1) else i
  }

  /** Where the unit that starts here ends. */
  function UnitEnd(ms: seq<Msg>, i: nat): (e: nat)
    requires i < |ms|
    ensures i < e <= |ms|
  {
    if ms[i].turn != NoTurn then TurnEnd(ms, i + 1, ms[i].turn)
    else if IsEvent(ms[i]) then i + 1
    else LegacyEnd(ms, i + 1)
  }

  /** The units from a position on; None where a turn id is refused. */
  function UnitsFrom(ms: seq<Msg>, i: nat): Option<Units>
    requires i <= |ms|
    decreases |ms| - i
  {
    if i == |ms| then Some([])
    else if ms[i].turn == BadTurn then None
    else
      var rest := UnitsFrom(ms, UnitEnd(ms, i));
      if rest == None then None else Some([(i, UnitEnd(ms, i))] + rest.value)
  }

  method UnitRanges(ms: seq<Msg>) returns (units: Option<Units>)
    ensures units == UnitsFrom(ms, 0)
  {
    var ranges: Units, index: nat := [], 0;
    ghost var all := UnitsFrom(ms, 0);
    assert all.Some? ==> ranges + all.value == all.value;
    while index < |ms|
      invariant index <= |ms|
      invariant UnitsFrom(ms, 0) == (var rest := UnitsFrom(ms, index); if rest == None then None else Some(ranges + rest.value))
      decreases |ms| - index
    {
      var start: nat, m := index, ms[index];
      ghost var tail := UnitsFrom(ms, UnitEnd(ms, start));
      if m.turn != NoTurn {
        if m.turn == BadTurn {
          return None;
        }
        index := index + 1;
        while index < |ms| && ms[index].turn == m.turn
          invariant start < index <= |ms| && TurnEnd(ms, index, m.turn) == UnitEnd(ms, start)
        {
          index := index + 1;
        }
      } else if IsEvent(m) {
        index := index + 1;
      } else {
        index := index + 1;
        while index < |ms|
          invariant start < index <= |ms| && LegacyEnd(ms, index) == UnitEnd(ms, start)
        {
          if ms[index].turn != NoTurn || ms[index].role == User || IsEvent(ms[index]) {
            break;
          }
          index := index + 1;
        }
      }
      assert index == UnitEnd(ms, start);
      assert tail.Some? ==> ranges + ([(start, index)] + tail.value) == ranges + [(start, index)] + tail.value;
      ranges := ranges + [(start, index)];
    }
    assert ranges + [] == ranges;
    units := Some(ranges);
  }

  /** Whether two neighbours belong to different units, told from the two alone. */
  predicate Cut(a: Msg, b: Msg) {
    if a.turn != NoTurn then b.turn != a.turn else IsEvent(a) || OpensUnit(b)
  }

  /** A unit runs up to the next cut. */
  lemma {:induction false} TurnEndCuts(ms: seq<Msg>, i: nat, turn: Turn)
    requires 0 < i <= |ms| && turn != NoTurn && ms[i - 1].turn == turn
    ensures var e := TurnEnd(ms, i, turn);
            (forall k :: i <= k < e ==> !Cut(ms[k - 1], ms[k])) && (e < |ms| ==> Cut(ms[e - 1], ms[e]))
    decreases |ms| - i
  {
    if i < |ms| && ms[i].turn == turn {
      TurnEndCuts(ms, i + 1, turn);
    }
  }

  lemma {:induction false} LegacyEndCuts(ms: seq<Msg>, i: nat)
    requires 0 < i <= |ms| && ms[i - 1].turn == NoTurn && !IsEvent(ms[i - 1])
    ensures var e := LegacyEnd(ms, i);
            (forall k :: i <= k < e ==> !Cut(ms[k - 1], ms[k])) && (e < |ms| ==> Cut(ms[e - 1], ms[e]))
    decreases |ms| - i
  {
    if i < |ms| && !OpensUnit(ms[i]) {
      LegacyEndCuts(ms, i + 1);
    }
  }

  lemma UnitEndCuts(ms: seq<Msg>, i: nat)
    requires i < |ms|
    ensures var e := UnitEnd(ms, i);
            (forall k :: i < k < e ==> !Cut(ms[k - 1], ms[k])) && (e < |ms| ==> Cut(ms[e - 1], ms[e]))
  {
    if ms[i].turn != NoTurn {
      TurnEndCuts(ms, i + 1, ms[i].turn);
    } else if !IsEvent(ms[i]) {
      LegacyEndCuts(ms, i + 1);
    }
  }

  /** The units cover the messages from `i` on without gap or overlap, each is not empty,
      and inside a unit there is no cut while every border is one. */
  ghost predicate Tiles(ms: seq<Msg>, i: nat, units: Units)
    requires i <= |ms|
    decreases |units|
  {
    if units == [] then i == |ms|
    else
      var (a, b) := units[0];
      && a == i < b <= |ms|
      && (forall k :: a < k < b ==> !Cut(ms[k - 1], ms[k]))
      && (b < |ms| ==> Cut(ms[b - 1], ms[b]))
      && Tiles(ms, b, units[1..])
  }

  /** Main result: the units tile the messages, and a border lies exactly where two
      neighbours are cut, so no run of one control turn is ever split. */
  lemma {:induction false} UnitsTile(ms: seq<Msg>, i: nat)
    requires i <= |ms| && UnitsFrom(ms, i).Some?
    ensures Tiles(ms, i, UnitsFrom(ms, i).value)
    decreases |ms| - i
  {
    if i < |ms| {
      UnitEndCuts(ms, i);
      UnitsTile(ms, UnitEnd(ms, i));
    }
  }

  /** A unit is one control turn, one proactive message, or an older exchange: no turn and
      no proactive message in it, and no user message but the first. */
  ghost predicate OneKind(ms: seq<Msg>, a: nat, b: nat) {
    a < b <= |ms| &&
    match ms[a].turn
    case TurnId(_) => forall k :: a <= k < b ==> ms[k].turn == ms[a].turn
    case BadTurn => false
    case NoTurn =>
      if ms[a].role == Assistant && ms[a].proactive then b == a + 1
      else
        && (forall k :: a <= k < b ==> ms[k].turn == NoTurn && !(ms[k].role == Assistant && ms[k].proactive))
        && (forall k :: a < k < b ==> ms[k].role != User)
  }

  lemma {:induction false} TurnEndIsTurn(ms: seq<Msg>, i: nat, turn: Turn)
    requires i <= |ms|
    ensures forall k :: i <= k < TurnEnd(ms, i, turn) ==> ms[k].turn == turn
    decreases |ms| - i
  {
    if i < |ms| && ms[i].turn == turn {
      TurnEndIsTurn(ms, i + 1, turn);
    }
  }

  lemma {:induction false} LegacyEndIsLegacy(ms: seq<Msg>, i: nat)
    requires i <= |ms|
    ensures forall k :: i <= k < LegacyEnd(ms, i) ==> !OpensUnit(ms[k])
    decreases |ms| - i
  {
    if i < |ms| && !OpensUnit(ms[i]) {
      LegacyEndIsLegacy(ms, i + 1);
    }
  }

  /** Main result: no unit mixes control turns, proactive messages and older exchanges, and
      a proactive message outside a turn always is a unit of its own. */
  lemma {:induction false} UnitsHaveOneKind(ms: seq<Msg>, i: nat)
    requires i <= |ms| && UnitsFrom(ms, i).Some?
    ensures forall n :: 0 <= n < |UnitsFrom(ms, i).value| ==>
              OneKind(ms, UnitsFrom(ms, i).value[n].0, UnitsFrom(ms, i).value[n].1)
    decreases |ms| - i
  {
    if i < |ms| {
      var e := UnitEnd(ms, i);
      TurnEndIsTurn(ms, i + 1, ms[i].turn);
      LegacyEndIsLegacy(ms, i + 1);
      assert OneKind(ms, i, e);
      hide OneKind, TurnEnd, LegacyEnd;
      UnitsHaveOneKind(ms, e);
      var rest := UnitsFrom(ms, e).value;
      assert UnitsFrom(ms, i).value == [(i, e)] + rest;
    }
  }

  /** A unit does not stop too early: a turn goes on to the first message without its id, an
      older exchange to the first message with a turn, of a user, or proactive. */
  ghost predicate StopsRight(ms: seq<Msg>, a: nat, b: nat) {
    a < b <= |ms| &&
    (b < |ms| ==>
       match ms[a].turn
       case NoTurn =>
         (ms[a].role == Assistant && ms[a].proactive) || ms[b].turn != NoTurn || ms[b].role == User ||
         (ms[b].role == Assistant && ms[b].proactive)
       case _ => ms[b].turn != ms[a].turn)
  }

  lemma {:induction false} TurnEndStops(ms: seq<Msg>, i: nat, turn: Turn)
    requires i <= |ms|
    ensures TurnEnd(ms, i, turn) < |ms| ==> ms[TurnEnd(ms, i, turn)].turn != turn
    decreases |ms| - i
  {
    if i < |ms| && ms[i].turn == turn {
      TurnEndStops(ms, i + 1, turn);
    }
  }

  lemma {:induction false} LegacyEndStops(ms: seq<Msg>, i: nat)
    requires i <= |ms|
    ensures var e := LegacyEnd(ms, i);
            e < |ms| ==> ms[e].turn != NoTurn || ms[e].role == User || (ms[e].role == Assistant && ms[e].proactive)
    decreases |ms| - i
  {
    if i < |ms| && !OpensUnit(ms[i]) {
      LegacyEndStops(ms, i + 1);
    }
  }

  /** Main result: no unit is cut short.  Where one ends before the last message, the next
      message does not belong to it. */
  lemma {:induction false} UnitsStopRight(ms: seq<Msg>, i: nat)
    requires i <= |ms| && UnitsFrom(ms, i).Some?
    ensures forall n :: 0 <= n < |UnitsFrom(ms, i).value| ==>
              StopsRight(ms, UnitsFrom(ms, i).value[n].0, UnitsFrom(ms, i).value[n].1)
    decreases |ms| - i
  {
    if i < |ms| {
      var e := UnitEnd(ms, i);
      TurnEndStops(ms, i + 1, ms[i].turn);
      LegacyEndStops(ms, i + 1);
      assert StopsRight(ms, i, e);
      hide StopsRight, TurnEnd, LegacyEnd;
      UnitsStopRight(ms, e);
      var rest := UnitsFrom(ms, e).value;
      assert UnitsFrom(ms, i).value == [(i, e)] + rest;
    }
  }

  /** One unit after the other from `i` to the end, each of one kind and none cut short. */
  ghost predicate Partition(ms: seq<Msg>, i: nat, units: Units)
    requires i <= |ms|
    decreases |units|
  {
    if units == [] then i == |ms|
    else
      var (a, b) := units[0];
      a == i && OneKind(ms, a, b) && StopsRight(ms, a, b) && Partition(ms, b, units[1..])
  }

  lemma OneEnd(ms: seq<Msg>, a: nat, b: nat, e: nat)
    requires OneKind(ms, a, b) && StopsRight(ms, a, b) && OneKind(ms, a, e)
    ensures e <= b
  {
  }

  /** Main result: kind and end of a unit, told from the fields of the messages, leave one
      way to divide a history, and it is the one that is computed. */
  lemma {:induction false} PartitionIsComputed(ms: seq<Msg>, i: nat, units: Units)
    requires i <= |ms|
    ensures UnitsFrom(ms, i) == Some(units) <==> Partition(ms, i, units)
    decreases |ms| - i
  {
    if i < |ms| {
      var e := UnitEnd(ms, i);
      if units != [] {
        PartitionIsComputed(ms, e, units[1..]);
        assert units == [units[0]] + units[1..];
      }
      if ms[i].turn != BadTurn {
        TurnEndIsTurn(ms, i + 1, ms[i].turn);
        LegacyEndIsLegacy(ms, i + 1);
        TurnEndStops(ms, i + 1, ms[i].turn);
        LegacyEndStops(ms, i + 1);
        assert OneKind(ms, i, e) && StopsRight(ms, i, e);
        hide TurnEnd, LegacyEnd, OneKind, StopsRight;
        if units != [] && units[0].0 == i && OneKind(ms, i, units[0].1) && StopsRight(ms, i, units[0].1) {
          OneEnd(ms, i, e, units[0].1);
          OneEnd(ms, i, units[0].1, e);
        }
        if UnitsFrom(ms, i) == Some(units) {
          var rest := UnitsFrom(ms, e).value;
          assert units[1..] == rest;
        }
      }
    }
  }

  /** Only one list of units tiles the messages. */
  lemma {:induction false} TilingIsUnique(ms: seq<Msg>, i: nat, a: Units, b: Units)
    requires i <= |ms| && Tiles(ms, i, a) && Tiles(ms, i, b)
    ensures a == b
    decreases |a|
  {
    if a != [] && b != [] {
      var (x, d) := a[0];
      var (y, e) := b[0];
      assert d == e;
      TilingIsUnique(ms, d, a[1..], b[1..]);
      assert a == [a[0]] + a[1..] && b == [b[0]] + b[1..];
    }
  }

  /** Partitioning is refused exactly when some message has a bad turn id. */
  lemma {:induction false} RefusedIffBadTurn(ms: seq<Msg>, i: nat)
    requires i <= |ms|
    ensures UnitsFrom(ms, i) == None <==> exists k :: i <= k < |ms| && ms[k].turn == BadTurn
    decreases |ms| - i
  {
    if i < |ms| {
      var e := UnitEnd(ms, i);
      RefusedIffBadTurn(ms, e);
      UnitEndCuts(ms, i);
      if ms[i].turn != BadTurn {
        GoodUntil(ms, i, e);
      }
    }
  }

  /** A unit that starts with a good message holds good messages only. */
  lemma GoodUntil(ms: seq<Msg>, i: nat, e: nat)
    requires i < e <= |ms| && ms[i].turn != BadTurn && forall k :: i < k < e ==> !Cut(ms[k - 1], ms[k])
    ensures forall k :: i <= k < e ==> ms[k].turn != BadTurn
    decreases e
  {
    if i + 1 < e {
      GoodUntil(ms, i, e - 1);
      assert !Cut(ms[e - 1 - 1], ms[e - 1]);
    }
  }

  // ---------------------------------------------------------------------------
  // The tail
  // ---------------------------------------------------------------------------

  /** Where the last units start; None where partitioning is refused. */
  function TailStart(ms: seq<Msg>, most: int): Option<nat> {
    if most <= 0 then Some(|ms|)
    else
      var units := UnitsFrom(ms, 0);
      if units == None then None
      else if |units.value| <= most then Some(0)
      else Some(units.value[|units.value| - most].0)
  }

  function Shifted(units: Units, by_: nat): seq<(int, int)> {
    seq(|units|, i requires 0 <= i < |units| => (units[i].0 - by_, units[i].1 - by_))
  }

  lemma {:induction false} EndsShift(ms: seq<Msg>, s: nat, i: nat)
    requires s <= |ms| && i < |ms| - s
    ensures UnitEnd(ms[s..], i) + s == UnitEnd(ms, s + i)
  {
    if ms[s + i].turn != NoTurn {
      TurnEndShifts(ms, s, i + 1, ms[s + i].turn);
    } else if !IsEvent(ms[s + i]) {
      LegacyEndShifts(ms, s, i + 1);
    }
  }

  lemma {:induction false} TurnEndShifts(ms: seq<Msg>, s: nat, i: nat, turn: Turn)
    requires s <= |ms| && i <= |ms| - s
    ensures TurnEnd(ms[s..], i, turn) + s == TurnEnd(ms, s + i, turn)
    decreases |ms| - s - i
  {
    if i < |ms| - s {
      TurnEndShifts(ms, s, i + 1, turn);
    }
  }

  lemma {:induction false} LegacyEndShifts(ms: seq<Msg>, s: nat, i: nat)
    requires s <= |ms| && i <= |ms| - s
    ensures LegacyEnd(ms[s..], i) + s == LegacyEnd(ms, s + i)
    decreases |ms| - s - i
  {
    if i < |ms| - s {
      LegacyEndShifts(ms, s, i + 1);
    }
  }

  lemma {:induction false} UnitsShift(ms: seq<Msg>, s: nat, i: nat)
    requires s <= |ms| && i <= |ms| - s
    ensures UnitsFrom(ms[s..], i).Some? <==> UnitsFrom(ms, s + i).Some?
    ensures UnitsFrom(ms[s..], i).Some? ==> UnitsFrom(ms[s..], i).value == Shifted(UnitsFrom(ms, s + i).value, s)
    decreases |ms| - s - i
  {
    if i < |ms| - s && ms[s + i].turn != BadTurn {
      EndsShift(ms, s, i);
      UnitsShift(ms, s, UnitEnd(ms[s..], i));
    }
  }

  /** From the start of a unit the same units follow. */
  lemma {:induction false} UnitsFromUnit(ms: seq<Msg>, i: nat, n: nat)
    requires i <= |ms| && UnitsFrom(ms, i).Some? && n < |UnitsFrom(ms, i).value|
    ensures var units := UnitsFrom(ms, i).value;
            units[n].0 <= |ms| && UnitsFrom(ms, units[n].0) == Some(units[n..])
    decreases n
  {
    var units := UnitsFrom(ms, i).value;
    if n > 0 {
      var e := UnitEnd(ms, i);
      UnitsFromUnit(ms, e, n - 1);
      assert units[1..] == UnitsFrom(ms, e).value;
      assert units[1..][n - 1..] == units[n..];
    } else {
      assert units[0..] == units;
    }
  }

  /** Main result: cutting the history at the tail start and partitioning what is left
      again yields exactly the last units, as many as asked for or all of them, moved to
      the front. */
  lemma TailIsLastUnits(ms: seq<Msg>, most: int)
    requires UnitsFrom(ms, 0).Some?
    ensures TailStart(ms, most).Some? && TailStart(ms, most).value <= |ms|
    ensures var units, s := UnitsFrom(ms, 0).value, TailStart(ms, most).value;
            var n := if most <= 0 then 0 else if |units| <= most then |units| else most;
            UnitsFrom(ms[s..], 0).Some? && UnitsFrom(ms[s..], 0).value == Shifted(units[|units| - n..], s)
  {
    var units := UnitsFrom(ms, 0).value;
    if most <= 0 {
      assert units[|units|..] == [];
      assert ms[|ms|..] == [];
    } else if |units| <= most {
      UnitsShift(ms, 0, 0);
      assert units[0..] == units;
    } else {
      var s := units[|units| - most].0;
      UnitsFromUnit(ms, 0, |units| - most);
      UnitsShift(ms, s, 0);
    }
  }

  // ---------------------------------------------------------------------------
  // Truncation
  // ---------------------------------------------------------------------------

  const ELLIPSIS := '\U{2026}'

  /** The note that stands for what was dropped. */
  function Marker(omitted: nat, words: string): string {
    [ELLIPSIS] + Decimal(omitted) + words + [ELLIPSIS]
  }

  function Keep(omitted: nat, budget: nat, words: string): nat {
    if |Marker(omitted, words)| < budget then budget - |Marker(omitted, words)| else 0
  }

  /** How much is dropped when the note shows this number. */
  function Dropped(size: nat, omitted: nat, budget: nat, words: string): nat
    requires budget <= size
  {
    size - Keep(omitted, budget, words)
  }

  lemma DroppedGrows(size: nat, m: nat, n: nat, budget: nat, words: string)
    requires budget <= size && m <= n
    ensures Dropped(size, m, budget, words) <= Dropped(size, n, budget, words)
  {
    DecimalGrows(m, n);
  }

  /** The smallest honest number not below the excess over the budget. */
  ghost predicate Honest(size: nat, omitted: nat, budget: nat, words: string)
    requires budget <= size
  {
    && Dropped(size, omitted, budget, words) == omitted
    && forall n: nat :: size - budget <= n && Dropped(size, n, budget, words) == n ==> omitted <= n
  }

  /** Main result: for every text the loop ends; the number in the note is exactly the
      number of characters dropped; the result keeps a head and a tail of the text and has
      exactly the budget's length whenever the note fits it. */
  method Truncate(text: string, budget: nat, words: string) returns (out: string, ghost omitted: nat)
    ensures |text| <= budget ==> out == text
    ensures |text| > budget ==> Honest(|text|, omitted, budget, words)
    ensures |text| > budget ==>
              var keep := |text| - omitted;
              var head := keep / 2;
              out == text[..head] + Marker(omitted, words) + text[|text| - (keep - head)..]
    ensures |text| > budget && |Marker(omitted, words)| <= budget ==> |out| == budget
  {
    if |text| <= budget {
      return text, 0;
    }
    var shown := |text| - budget;
    var marker := Marker(shown, words);
    var keep := Keep(shown, budget, words);
    while |text| - keep != shown
      invariant |text| - budget <= shown <= |text|
      invariant marker == Marker(shown, words) && keep == Keep(shown, budget, words)
      invariant shown <= |text| - keep
      invariant forall n: nat :: |text| - budget <= n && Dropped(|text|, n, budget, words) == n ==> shown <= n
      decreases |text| - shown
    {
      ghost var last := shown;
      shown := |text| - keep;
      DroppedGrows(|text|, last, shown, budget, words);
      forall n: nat | |text| - budget <= n && Dropped(|text|, n, budget, words) == n
        ensures shown <= n
      {
        DroppedGrows(|text|, last, n, budget, words);
      }
      marker := Marker(shown, words);
      keep := Keep(shown, budget, words);
    }
    omitted := shown;
    var head := keep / 2;
    var tail := keep - head;
    out := text[..head] + marker + (if tail > 0 then text[|text| - tail..] else "");
    assert tail == 0 ==> text[|text|..] == "";
  }

  const STORED_BUDGET := 20000
  const STORED_WORDS := " chars truncated before persistence"

  /** What is stored for one tool result; only long texts change. */
  ghost predicate Bounded(result: Option<string>, stored: Option<string>) {
    if result == None || |result.value| <= STORED_BUDGET then stored == result
    else
      exists n: nat ::
        && Honest(|result.value|, n, STORED_BUDGET, STORED_WORDS) && n <= |result.value| && stored.Some?
        && var keep := |result.value| - n;
        && stored.value == result.value[..keep / 2] + Marker(n, STORED_WORDS) + result.value[|result.value| - (keep - keep / 2)..]
  }

  /** Bounds every tool result of a chain on its own. */
  method TruncateToolChain(chain: seq<seq<Option<string>>>) returns (stored: seq<seq<Option<string>>>)
    ensures |stored| == |chain|
    ensures forall g :: 0 <= g < |chain| ==> |stored[g]| == |chain[g]|
    ensures forall g, c :: 0 <= g < |chain| && 0 <= c < |chain[g]| ==> Bounded(chain[g][c], stored[g][c])
  {
    hide Bounded;
    stored := [];
    var g := 0;
    while g < |chain|
      invariant g <= |chain| && |stored| == g
      invariant forall i :: 0 <= i < g ==> |stored[i]| == |chain[i]|
      invariant forall i, c :: 0 <= i < g && 0 <= c < |chain[i]| ==> Bounded(chain[i][c], stored[i][c])
    {
      var calls, c := [], 0;
      while c < |chain[g]|
        invariant c <= |chain[g]| && |calls| == c
        invariant forall k :: 0 <= k < c ==> Bounded(chain[g][k], calls[k])
      {
        var result := BoundResult(chain[g][c]);
        calls := calls + [result];
        c := c + 1;
      }
      stored := stored + [calls];
      g := g + 1;
    }
  }

  method BoundResult(result: Option<string>) returns (stored: Option<string>)
    ensures Bounded(result, stored)
  {
    if result == None || |result.value| <= STORED_BUDGET {
      return result;
    }
    var out;
    ghost var omitted;
    out, omitted := Truncate(result.value, STORED_BUDGET, STORED_WORDS);
    stored := Some(out);
  }

  /** The note's number reads back as what was dropped. */
  lemma MarkerTellsCount(omitted: nat, words: string)
    ensures Value(Marker(omitted, words)[1..1 + |Decimal(omitted)|]) == omitted
  {
    DecimalReadsBack(omitted);
    assert Marker(omitted, words)[1..1 + |Decimal(omitted)|] == Decimal(omitted);
  }
}
