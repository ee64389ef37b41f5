/** The stored form of message bodies: JSON trees with sorted keys.

    A text is its tree; an object is the list of its members, so that a repeated name is
    visible.  Functions answer None where the program raises. */
module Codec {
  import opened Wrappers

  datatype List<+T> = Nil | Cons(head: T, tail: List<T>)

  datatype Pair<+V> = Pair(name: string, value: V)

  /** Floats as JSON texts name them: only the finite ones are JSON, and -0.0 is written
      apart from 0.0. */
  datatype Float = Finite(value: real) | MinusZero | NonFinite

  datatype Json =
    | JNull
    | JBool(b: bool)
    | JInt(i: int)
    | JFloat(f: Float)
    | JStr(s: string)
    | JArr(items: List<Json>)
    | JObj(fields: List<Pair<Json>>)

  /** What callers hand in.  `OddKeys` is a mapping with a key that is no text, `Alien`
      anything that is no JSON value at all; `like` is what it calls itself equal to, as a
      decimal number does. */
  datatype Value =
    | Null
    | Bool(b: bool)
    | Int(i: int)
    | Float(f: Float)
    | Str(s: string)
    | Listed(items: List<Value>)
    | Tupled(items: List<Value>)
    | Mapped(frozen: bool, entries: List<Pair<Value>>)
    | OddKeys
    | Alien(like: Option<Value>)

  // ---------------------------------------------------------------------------
  // Names in order
  // ---------------------------------------------------------------------------

  predicate Less(a: string, b: string) {
    b != "" && (a == "" || a[0] < b[0] || (a[0] == b[0] && Less(a[1..], b[1..])))
  }

  lemma {:induction false} LessIsTotal(a: string, b: string)
    ensures Less(a, b) || a == b || Less(b, a)
    ensures !(Less(a, b) && Less(b, a)) && !Less(a, a)
  {
    if a != "" && b != "" && a[0] == b[0] {
      LessIsTotal(a[1..], b[1..]);
      assert a == [a[0]] + a[1..] && b == [b[0]] + b[1..];
    }
    if a != "" {
      LessIsTotal(a[1..], a[1..]);
    }
  }

  lemma {:induction false} LessChains(a: string, b: string, c: string)
    requires Less(a, b) && Less(b, c)
    ensures Less(a, c)
  {
    if a != "" && a[0] == b[0] == c[0] {
      LessChains(a[1..], b[1..], c[1..]);
    }
  }

  function Insert<V>(p: Pair<V>, l: List<Pair<V>>): List<Pair<V>> {
    if l.Nil? || !Less(l.head.name, p.name) then Cons(p, l) else Cons(l.head, Insert(p, l.tail))
  }

  function Sort<V>(l: List<Pair<V>>): List<Pair<V>> {
    if l.Nil? then Nil else Insert(l.head, Sort(l.tail))
  }

  function Names<V>(l: List<Pair<V>>): set<string> {
    if l.Nil? then {} else {l.head.name} + Names(l.tail)
  }

  /** As in a dictionary: each name once. */
  predicate Unique<V>(l: List<Pair<V>>) {
    l.Cons? ==> l.head.name !in Names(l.tail) && Unique(l.tail)
  }

  predicate Ascending<V>(l: List<Pair<V>>) {
    l.Cons? && l.tail.Cons? ==> Less(l.head.name, l.tail.head.name) && Ascending(l.tail)
  }

  function Get<V>(l: List<Pair<V>>, name: string): (v: Option<V>)
    ensures v == None <==> name !in Names(l)
    ensures v.Some? ==> v.value < l
  {
    if l.Nil? then None else if l.head.name == name then Some(l.head.value) else Get(l.tail, name)
  }

  lemma {:induction false} InsertFacts<V>(p: Pair<V>, l: List<Pair<V>>)
    requires p.name !in Names(l)
    ensures Names(Insert(p, l)) == Names(l) + {p.name}
    ensures Unique(l) ==> Unique(Insert(p, l))
    ensures forall k :: Get(Insert(p, l), k) == if k == p.name then Some(p.value) else Get(l, k)
  {
    if l.Cons? && Less(l.head.name, p.name) {
      InsertFacts(p, l.tail);
    }
  }

  lemma {:induction false} InsertAscends<V>(p: Pair<V>, l: List<Pair<V>>)
    requires p.name !in Names(l) && Ascending(l)
    ensures Ascending(Insert(p, l))
  {
    if l.Cons? {
      LessIsTotal(l.head.name, p.name);
      if Less(l.head.name, p.name) {
        InsertAscends(p, l.tail);
      }
    }
  }

  lemma {:induction false} SortFacts<V>(l: List<Pair<V>>)
    requires Unique(l)
    ensures Names(Sort(l)) == Names(l) && Unique(Sort(l)) && Ascending(Sort(l))
    ensures forall k :: Get(Sort(l), k) == Get(l, k)
  {
    if l.Cons? {
      SortFacts(l.tail);
      InsertFacts(l.head, Sort(l.tail));
      InsertAscends(l.head, Sort(l.tail));
    }
  }

  /** In an ascending list the first name is below all others. */
  lemma {:induction false} HeadIsLeast<V>(l: List<Pair<V>>, name: string)
    requires Ascending(l) && l.Cons? && name in Names(l.tail)
    ensures Less(l.head.name, name)
  {
    if l.tail.head.name != name {
      HeadIsLeast(l.tail, name);
      LessChains(l.head.name, l.tail.head.name, name);
    }
  }

  lemma {:induction false} AscendingIsUnique<V>(l: List<Pair<V>>)
    requires Ascending(l)
    ensures Unique(l) && Sort(l) == l
  {
    if l.Cons? {
      AscendingIsUnique(l.tail);
      if l.head.name in Names(l.tail) {
        HeadIsLeast(l, l.head.name);
        LessIsTotal(l.head.name, l.head.name);
      }
      if l.tail.Cons? {
        LessIsTotal(l.head.name, l.tail.head.name);
      }
    }
  }

  /** An ascending list is determined by what it holds under each name. */
  lemma {:induction false} SameContents<V>(a: List<Pair<V>>, b: List<Pair<V>>)
    requires Ascending(a) && Ascending(b) && forall k :: Get(a, k) == Get(b, k)
    ensures a == b
  {
    if a.Nil? || b.Nil? {
      assert a.Cons? ==> Get(a, a.head.name) == Get(b, a.head.name);
      assert b.Cons? ==> Get(a, b.head.name) == Get(b, b.head.name);
    } else {
      assert Get(a, a.head.name) == Get(b, a.head.name) && Get(a, b.head.name) == Get(b, b.head.name);
      if a.head.name != b.head.name {
        assert a.head.name in Names(b.tail) && b.head.name in Names(a.tail);
        HeadIsLeast(a, b.head.name);
        HeadIsLeast(b, a.head.name);
        LessIsTotal(a.head.name, b.head.name);
      }
      AscendingIsUnique(a);
      AscendingIsUnique(b);
      forall k
        ensures Get(a.tail, k) == Get(b.tail, k)
      {
        assert Get(a, k) == Get(b, k);
      }
      SameContents(a.tail, b.tail);
    }
  }

  // ---------------------------------------------------------------------------
  // Freezing, thawing, writing and reading values
  // ---------------------------------------------------------------------------

  /** Copies a JSON value into immutable containers and refuses everything else. */
  function Freeze(v: Value): Option<Value> {
    match v
    case Float(NonFinite) => None
    case Listed(items) =>
      var fs := FreezeItems(items);
      if fs == None then None else Some(Tupled(fs.value))
    case Tupled(items) =>
      var fs := FreezeItems(items);
      if fs == None then None else Some(Tupled(fs.value))
    case Mapped(_, entries) =>
      var fs := FreezeEntries(entries);
      if fs == None then None else Some(Mapped(true, fs.value))
    case OddKeys => None
    case Alien(_) => None
    case _ => Some(v)
  }

  function FreezeItems(l: List<Value>): Option<List<Value>> {
    if l.Nil? then Some(Nil)
    else
      var h, t := Freeze(l.head), FreezeItems(l.tail);
      if h == None || t == None then None else Some(Cons(h.value, t.value))
  }

  function FreezeEntries(l: List<Pair<Value>>): (r: Option<List<Pair<Value>>>)
    ensures r.Some? ==> Names(r.value) == Names(l)
  {
    if l.Nil? then Some(Nil)
    else
      var h, t := Freeze(l.head.value), FreezeEntries(l.tail);
      if h == None || t == None then None else Some(Cons(Pair(l.head.name, h.value), t.value))
  }

  /** Mappings are dictionaries: no name twice, at any depth. */
  predicate Proper(v: Value) {
    match v
    case Listed(items) => ProperItems(items)
    case Tupled(items) => ProperItems(items)
    case Mapped(_, entries) => Unique(entries) && ProperEntries(entries)
    case _ => true
  }

  predicate ProperItems(l: List<Value>) {
    l.Cons? ==> Proper(l.head) && ProperItems(l.tail)
  }

  predicate ProperEntries(l: List<Pair<Value>>) {
    l.Cons? ==> Proper(l.head.value) && ProperEntries(l.tail)
  }

  /** A deeply immutable JSON value. */
  predicate Frozen(v: Value) {
    match v
    case Float(f) => f != NonFinite
    case Tupled(items) => FrozenItems(items)
    case Mapped(frozen, entries) => frozen && Unique(entries) && FrozenEntries(entries)
    case Listed(_) => false
    case OddKeys => false
    case Alien(_) => false
    case _ => true
  }

  predicate FrozenItems(l: List<Value>) {
    l.Cons? ==> Frozen(l.head) && FrozenItems(l.tail)
  }

  predicate FrozenEntries(l: List<Pair<Value>>) {
    l.Cons? ==> Frozen(l.head.value) && FrozenEntries(l.tail)
  }

  /** Back to the containers the JSON writer takes. */
  function JsonValue(v: Value): Value {
    match v
    case Mapped(_, entries) => Mapped(false, JsonEntries(entries))
    case Tupled(items) => Listed(JsonItems(items))
    case _ => v
  }

  function JsonItems(l: List<Value>): List<Value> {
    if l.Nil? then Nil else Cons(JsonValue(l.head), JsonItems(l.tail))
  }

  function JsonEntries(l: List<Pair<Value>>): (r: List<Pair<Value>>)
    ensures Names(r) == Names(l)
  {
    if l.Nil? then Nil else Cons(Pair(l.head.name, JsonValue(l.head.value)), JsonEntries(l.tail))
  }

  /** The JSON writer: sorted keys, no immutable mappings, no NaN. */
  function Emit(v: Value): Option<Json> {
    match v
    case Null => Some(JNull)
    case Bool(b) => Some(JBool(b))
    case Int(i) => Some(JInt(i))
    case Float(f) => if f == NonFinite then None else Some(JFloat(f))
    case Str(s) => Some(JStr(s))
    case Listed(items) =>
      var ts := EmitItems(items);
      if ts == None then None else Some(JArr(ts.value))
    case Tupled(items) =>
      var ts := EmitItems(items);
      if ts == None then None else Some(JArr(ts.value))
    case Mapped(frozen, entries) =>
      var ts := EmitEntries(entries);
      if frozen || ts == None then None else Some(JObj(Sort(ts.value)))
    case OddKeys => None
    case Alien(_) => None
  }

  function EmitItems(l: List<Value>): Option<List<Json>> {
    if l.Nil? then Some(Nil)
    else
      var h, t := Emit(l.head), EmitItems(l.tail);
      if h == None || t == None then None else Some(Cons(h.value, t.value))
  }

  function EmitEntries(l: List<Pair<Value>>): (r: Option<List<Pair<Json>>>)
    ensures r.Some? ==> Names(r.value) == Names(l)
  {
    if l.Nil? then Some(Nil)
    else
      var h, t := Emit(l.head.value), EmitEntries(l.tail);
      if h == None || t == None then None else Some(Cons(Pair(l.head.name, h.value), t.value))
  }

  /** The JSON reader with the hook that refuses a repeated name. */
  function Load(t: Json): Option<Value> {
    match t
    case JNull => Some(Null)
    case JBool(b) => Some(Bool(b))
    case JInt(i) => Some(Int(i))
    case JFloat(f) => Some(Float(f))
    case JStr(s) => Some(Str(s))
    case JArr(items) =>
      var vs := LoadItems(items);
      if vs == None then None else Some(Listed(vs.value))
    case JObj(fields) =>
      var vs := LoadFields(fields);
      if vs == None || !Unique(fields) then None else Some(Mapped(false, vs.value))
  }

  function LoadItems(l: List<Json>): Option<List<Value>> {
    if l.Nil? then Some(Nil)
    else
      var h, t := Load(l.head), LoadItems(l.tail);
      if h == None || t == None then None else Some(Cons(h.value, t.value))
  }

  function LoadFields(l: List<Pair<Json>>): (r: Option<List<Pair<Value>>>)
    ensures r.Some? ==> Names(r.value) == Names(l)
  {
    if l.Nil? then Some(Nil)
    else
      var h, t := Load(l.head.value), LoadFields(l.tail);
      if h == None || t == None then None else Some(Cons(Pair(l.head.name, h.value), t.value))
  }

  /** The hook itself: collects the members of one object and stops at a repeated name. */
  method UniqueFields<V>(pairs: List<Pair<V>>) returns (ok: bool, seen: map<string, V>)
    ensures ok <==> Unique(pairs)
    ensures ok ==> forall k :: Get(pairs, k) == if k in seen then Some(seen[k]) else None
  {
    seen := map[];
    var rest := pairs;
    while rest.Cons?
      invariant Unique(pairs) <==> Unique(rest) && seen.Keys !! Names(rest)
      invariant forall k :: Get(pairs, k) == if k in seen then Some(seen[k]) else Get(rest, k)
      decreases rest
    {
      if rest.head.name in seen {
        return false, seen;
      }
      seen := seen[rest.head.name := rest.head.value];
      rest := rest.tail;
    }
    ok := true;
  }

  // ---------------------------------------------------------------------------
  // Freezing
  // ---------------------------------------------------------------------------

  /** Nothing but JSON, whatever the containers. */
  predicate JsonLike(v: Value) {
    match v
    case Float(f) => f != NonFinite
    case Listed(items) => JsonLikeItems(items)
    case Tupled(items) => JsonLikeItems(items)
    case Mapped(_, entries) => JsonLikeEntries(entries)
    case OddKeys => false
    case Alien(_) => false
    case _ => true
  }

  predicate JsonLikeItems(l: List<Value>) {
    l.Cons? ==> JsonLike(l.head) && JsonLikeItems(l.tail)
  }

  predicate JsonLikeEntries(l: List<Pair<Value>>) {
    l.Cons? ==> JsonLike(l.head.value) && JsonLikeEntries(l.tail)
  }

  /** Freezing accepts exactly the JSON values, and what it returns is deeply immutable. */
  lemma {:induction false} FreezeAcceptsJson(v: Value)
    requires Proper(v)
    ensures Freeze(v).Some? <==> JsonLike(v)
    ensures Freeze(v).Some? ==> Frozen(Freeze(v).value)
  {
    match v
    case Listed(items) => FreezeAcceptsItems(items);
    case Tupled(items) => FreezeAcceptsItems(items);
    case Mapped(_, entries) => FreezeAcceptsEntries(entries);
    case _ =>
  }

  lemma {:induction false} FreezeAcceptsItems(l: List<Value>)
    requires ProperItems(l)
    ensures FreezeItems(l).Some? <==> JsonLikeItems(l)
    ensures FreezeItems(l).Some? ==> FrozenItems(FreezeItems(l).value)
  {
    if l.Cons? {
      FreezeAcceptsJson(l.head);
      FreezeAcceptsItems(l.tail);
    }
  }

  lemma {:induction false} FreezeAcceptsEntries(l: List<Pair<Value>>)
    requires ProperEntries(l)
    ensures FreezeEntries(l).Some? <==> JsonLikeEntries(l)
    ensures FreezeEntries(l).Some? ==> FrozenEntries(FreezeEntries(l).value)
    ensures FreezeEntries(l).Some? && Unique(l) ==> Unique(FreezeEntries(l).value)
  {
    if l.Cons? {
      FreezeAcceptsJson(l.head.value);
      FreezeAcceptsEntries(l.tail);
    }
  }

  /** Freezing undoes thawing, and a frozen value stays as it is. */
  lemma {:induction false} FreezeUndoesThaw(v: Value)
    requires Frozen(v)
    ensures Freeze(JsonValue(v)) == Some(v) && Freeze(v) == Some(v)
  {
    match v
    case Tupled(items) => FreezeUndoesItems(items);
    case Mapped(_, entries) => FreezeUndoesEntries(entries);
    case _ =>
  }

  lemma {:induction false} FreezeUndoesItems(l: List<Value>)
    requires FrozenItems(l)
    ensures FreezeItems(JsonItems(l)) == Some(l) && FreezeItems(l) == Some(l)
  {
    if l.Cons? {
      FreezeUndoesThaw(l.head);
      FreezeUndoesItems(l.tail);
    }
  }

  lemma {:induction false} FreezeUndoesEntries(l: List<Pair<Value>>)
    requires FrozenEntries(l)
    ensures FreezeEntries(JsonEntries(l)) == Some(l) && FreezeEntries(l) == Some(l)
  {
    if l.Cons? {
      FreezeUndoesThaw(l.head.value);
      FreezeUndoesEntries(l.tail);
    }
  }

  // ---------------------------------------------------------------------------
  // The text of a frozen value
  // ---------------------------------------------------------------------------

  /** The tree written for a frozen value. */
  function Tree(v: Value): Json {
    match v
    case Null => JNull
    case Bool(b) => JBool(b)
    case Int(i) => JInt(i)
    case Float(f) => JFloat(f)
    case Str(s) => JStr(s)
    case Tupled(items) => JArr(TreeItems(items))
    case Listed(items) => JArr(TreeItems(items))
    case Mapped(_, entries) => JObj(Sort(TreeEntries(entries)))
    case _ => JNull
  }

  function TreeItems(l: List<Value>): List<Json> {
    if l.Nil? then Nil else Cons(Tree(l.head), TreeItems(l.tail))
  }

  function TreeEntries(l: List<Pair<Value>>): (r: List<Pair<Json>>)
    ensures Names(r) == Names(l)
  {
    if l.Nil? then Nil else Cons(Pair(l.head.name, Tree(l.head.value)), TreeEntries(l.tail))
  }

  /** The same value with its mappings in key order. */
  function Norm(v: Value): Value {
    match v
    case Tupled(items) => Tupled(NormItems(items))
    case Mapped(frozen, entries) => Mapped(frozen, Sort(NormEntries(entries)))
    case _ => v
  }

  function NormItems(l: List<Value>): List<Value> {
    if l.Nil? then Nil else Cons(Norm(l.head), NormItems(l.tail))
  }

  function NormEntries(l: List<Pair<Value>>): (r: List<Pair<Value>>)
    ensures Names(r) == Names(l)
  {
    if l.Nil? then Nil else Cons(Pair(l.head.name, Norm(l.head.value)), NormEntries(l.tail))
  }

  /** Freezing `v` gives `f`: what is written for `f` is read back as `f` in key order. */
  ghost predicate Survives(f: Value) {
    && Emit(JsonValue(f)) == Some(Tree(f))
    && Load(Tree(f)) == Some(JsonValue(Norm(f)))
    && Frozen(Norm(f))
  }

  lemma {:induction false} TextSurvives(f: Value)
    requires Frozen(f)
    ensures Survives(f)
  {
    match f
    case Tupled(items) => ItemsSurvive(items);
    case Mapped(_, entries) =>
      EntriesSurvive(entries);
      UniqueAfter(entries);
      SortFacts(TreeEntries(entries));
      SortedLoads(TreeEntries(entries), JsonEntries(NormEntries(entries)));
      SortedThaws(NormEntries(entries));
      SortFacts(NormEntries(entries));
      SortedStaysFrozen(NormEntries(entries));
    case _ =>
  }

  lemma {:induction false} ItemsSurvive(l: List<Value>)
    requires FrozenItems(l)
    ensures EmitItems(JsonItems(l)) == Some(TreeItems(l))
    ensures LoadItems(TreeItems(l)) == Some(JsonItems(NormItems(l)))
    ensures FrozenItems(NormItems(l))
  {
    if l.Cons? {
      TextSurvives(l.head);
      ItemsSurvive(l.tail);
    }
  }

  lemma {:induction false} EntriesSurvive(l: List<Pair<Value>>)
    requires FrozenEntries(l)
    ensures EmitEntries(JsonEntries(l)) == Some(TreeEntries(l))
    ensures LoadFields(TreeEntries(l)) == Some(JsonEntries(NormEntries(l)))
    ensures FrozenEntries(NormEntries(l))
  {
    if l.Cons? {
      TextSurvives(l.head.value);
      EntriesSurvive(l.tail);
    }
  }

  lemma {:induction false} UniqueAfter(l: List<Pair<Value>>)
    requires Unique(l)
    ensures Unique(TreeEntries(l)) && Unique(NormEntries(l)) && Unique(JsonEntries(l))
  {
    if l.Cons? {
      UniqueAfter(l.tail);
    }
  }

  lemma {:induction false} InsertedLoads(p: Pair<Json>, l: List<Pair<Json>>, v: Value, vs: List<Pair<Value>>)
    requires Load(p.value) == Some(v) && LoadFields(l) == Some(vs)
    ensures LoadFields(Insert(p, l)) == Some(Insert(Pair(p.name, v), vs))
  {
    if l.Cons? && Less(l.head.name, p.name) {
      InsertedLoads(p, l.tail, v, vs.tail);
    }
  }

  lemma {:induction false} SortedLoads(l: List<Pair<Json>>, vs: List<Pair<Value>>)
    requires LoadFields(l) == Some(vs)
    ensures LoadFields(Sort(l)) == Some(Sort(vs))
  {
    if l.Cons? {
      SortedLoads(l.tail, vs.tail);
      InsertedLoads(l.head, Sort(l.tail), vs.head.value, Sort(vs.tail));
    }
  }

  lemma {:induction false} InsertedThaws(p: Pair<Value>, l: List<Pair<Value>>)
    ensures JsonEntries(Insert(p, l)) == Insert(Pair(p.name, JsonValue(p.value)), JsonEntries(l))
  {
    if l.Cons? && Less(l.head.name, p.name) {
      InsertedThaws(p, l.tail);
    }
  }

  lemma {:induction false} SortedThaws(l: List<Pair<Value>>)
    ensures JsonEntries(Sort(l)) == Sort(JsonEntries(l))
  {
    if l.Cons? {
      SortedThaws(l.tail);
      InsertedThaws(l.head, Sort(l.tail));
    }
  }

  lemma {:induction false} InsertedStaysFrozen(p: Pair<Value>, l: List<Pair<Value>>)
    requires Frozen(p.value) && FrozenEntries(l)
    ensures FrozenEntries(Insert(p, l))
  {
    if l.Cons? && Less(l.head.name, p.name) {
      InsertedStaysFrozen(p, l.tail);
    }
  }

  lemma {:induction false} SortedStaysFrozen(l: List<Pair<Value>>)
    requires FrozenEntries(l)
    ensures FrozenEntries(Sort(l))
  {
    if l.Cons? {
      SortedStaysFrozen(l.tail);
      InsertedStaysFrozen(l.head, Sort(l.tail));
    }
  }

  // ---------------------------------------------------------------------------
  // Equal values, equal texts
  // ---------------------------------------------------------------------------

  /** What a number counts for when Python compares it: a truth value as 1 or 0. */
  function Amount(v: Value): Option<real> {
    match v
    case Bool(b) => Some(if b then 1.0 else 0.0)
    case Int(i) => Some(i as real)
    case Float(Finite(x)) => Some(x)
    case Float(MinusZero) => Some(0.0)
    case _ => None
  }

  /** How a number is written, apart from what it counts for. */
  datatype NumberForm = NoNumber | Truth | Whole | Point | MinusPoint

  function WrittenAs(v: Value): NumberForm {
    match v
    case Bool(_) => Truth
    case Int(_) => Whole
    case Float(MinusZero) => MinusPoint
    case Float(_) => Point
    case _ => NoNumber
  }

  /** `==` in Python, of any value and a stored one: numbers by what they count for, whatever
      their types, mappings by content, in any order, and lists apart from tuples. */
  predicate Equal(a: Value, b: Value)
    decreases a
  {
    match a
    case Listed(items) => b.Listed? && EqualItems(items, b.items)
    case Tupled(items) => b.Tupled? && EqualItems(items, b.items)
    case Mapped(_, entries) =>
      b.Mapped? && Names(entries) == Names(b.entries) &&
      forall k :: k in Names(entries) ==> Equal(Get(entries, k).value, Get(b.entries, k).value)
    case Alien(like) => like.Some? && Equal(like.value, b)
    case _ => if Amount(a) == None then a == b else Amount(a) == Amount(b)
  }

  predicate EqualItems(a: List<Value>, b: List<Value>)
    decreases a
  {
    if a.Nil? || b.Nil? then a.Nil? && b.Nil? else Equal(a.head, b.head) && EqualItems(a.tail, b.tail)
  }

  /** The value with this number in a list. */
  function Nth(l: List<Value>, n: nat): Option<Value> {
    if l.Nil? then None else if n == 0 then Some(l.head) else Nth(l.tail, n - 1)
  }

  /** Place by place. */
  ghost predicate EqualAt(a: List<Value>, b: List<Value>, n: nat) {
    if Nth(a, n) == None || Nth(b, n) == None then Nth(a, n) == Nth(b, n) else Equal(Nth(a, n).value, Nth(b, n).value)
  }

  lemma {:induction false} EqualItemsIff(a: List<Value>, b: List<Value>)
    ensures EqualItems(a, b) <==> forall n: nat :: EqualAt(a, b, n)
  {
    assert EqualAt(a, b, 0) ==> (a.Nil? <==> b.Nil?) && (a.Cons? ==> Equal(a.head, b.head));
    if a.Cons? && b.Cons? {
      EqualItemsIff(a.tail, b.tail);
      forall n: nat
        ensures EqualAt(a, b, n + 1) == EqualAt(a.tail, b.tail, n)
      {
      }
      if EqualItems(a, b) {
        assert forall n: nat :: n > 0 ==> EqualAt(a, b, n) == EqualAt(a.tail, b.tail, n - 1);
      }
    }
  }

  /** What equality means for containers and for foreign objects: lists equal lists and tuples
      equal tuples, place by place; an object equals what it says it is like, or nothing. */
  lemma ContainersEqualIff(a: List<Value>, v: Value, b: Value)
    ensures Equal(Listed(a), b) <==> b.Listed? && forall n: nat :: EqualAt(a, b.items, n)
    ensures Equal(Tupled(a), b) <==> b.Tupled? && forall n: nat :: EqualAt(a, b.items, n)
    ensures Equal(Alien(Some(v)), b) <==> Equal(v, b)
    ensures !Equal(Alien(None), b)
  {
    if b.Listed? || b.Tupled? {
      EqualItemsIff(a, b.items);
    }
  }

  /** Wherever both values hold something at one place, numbers there are of one kind. */
  ghost predicate Alike(a: Value, b: Value)
    decreases a
  {
    match a
    case Tupled(items) => b.Tupled? ==> AlikeItems(items, b.items)
    case Mapped(_, entries) =>
      b.Mapped? ==>
        forall k :: k in Names(entries) && k in Names(b.entries) ==>
          Alike(Get(entries, k).value, Get(b.entries, k).value)
    case _ => WrittenAs(a) == WrittenAs(b)
  }

  ghost predicate AlikeItems(a: List<Value>, b: List<Value>)
    decreases a
  {
    a.Cons? && b.Cons? ==> Alike(a.head, b.head) && AlikeItems(a.tail, b.tail)
  }

  lemma {:induction false} NormUnder(l: List<Pair<Value>>, k: string)
    requires k in Names(l)
    ensures Get(NormEntries(l), k) == Some(Norm(Get(l, k).value))
  {
    if l.head.name != k {
      NormUnder(l.tail, k);
    }
  }

  lemma {:induction false} FrozenUnder(l: List<Pair<Value>>, k: string)
    requires FrozenEntries(l) && k in Names(l)
    ensures Frozen(Get(l, k).value)
  {
    if l.head.name != k {
      FrozenUnder(l.tail, k);
    }
  }

  /** The key-ordered forms of two frozen values are identical exactly when the values are
      equal and their numbers alike. */
  lemma {:induction false} SameNormIffEqual(a: Value, b: Value)
    requires Frozen(a) && Frozen(b)
    ensures Norm(a) == Norm(b) <==> Equal(a, b) && Alike(a, b)
    decreases a
  {
    if a.Tupled? && b.Tupled? {
      SameNormIffEqualItems(a.items, b.items);
    } else if a.Mapped? && b.Mapped? {
      SameNormIffEqualEntries(a, b);
    }
  }

  lemma {:induction false} SameNormIffEqualItems(a: List<Value>, b: List<Value>)
    requires FrozenItems(a) && FrozenItems(b)
    ensures NormItems(a) == NormItems(b) <==> EqualItems(a, b) && AlikeItems(a, b)
    decreases a
  {
    if a.Cons? && b.Cons? {
      SameNormIffEqual(a.head, b.head);
      SameNormIffEqualItems(a.tail, b.tail);
    }
  }

  /** Under every name both lists hold the same. */
  ghost predicate SameUnder<V>(p: List<Pair<V>>, q: List<Pair<V>>) {
    forall k: string :: Get(p, k) == Get(q, k)
  }

  lemma SortsIffSameUnder<V>(p: List<Pair<V>>, q: List<Pair<V>>)
    requires Unique(p) && Unique(q)
    ensures Sort(p) == Sort(q) <==> SameUnder(p, q)
  {
    SortFacts(p);
    SortFacts(q);
    if SameUnder(p, q) {
      forall k
        ensures Get(Sort(p), k) == Get(Sort(q), k)
      {
        assert Get(p, k) == Get(q, k);
      }
      SameContents(Sort(p), Sort(q));
    } else {
      var k :| Get(p, k) != Get(q, k);
      assert Get(Sort(p), k) != Get(Sort(q), k);
    }
  }

  lemma {:induction false} SameNormIffEqualEntries(a: Value, b: Value)
    requires Frozen(a) && Frozen(b) && a.Mapped? && b.Mapped?
    ensures Norm(a) == Norm(b) <==> Equal(a, b) && Alike(a, b)
    decreases a, 0
  {
    var p, q := NormEntries(a.entries), NormEntries(b.entries);
    UniqueAfter(a.entries);
    UniqueAfter(b.entries);
    SortsIffSameUnder(p, q);
    forall k | k in Names(a.entries) && k in Names(b.entries)
      ensures EqualUnder(a.entries, b.entries, k) <==> Get(p, k) == Get(q, k)
    {
      NormUnder(a.entries, k);
      NormUnder(b.entries, k);
      FrozenUnder(a.entries, k);
      FrozenUnder(b.entries, k);
      SameNormIffEqual(Get(a.entries, k).value, Get(b.entries, k).value);
    }
    EqualIffSameUnder(a, b, p, q);
  }

  ghost predicate EqualUnder(a: List<Pair<Value>>, b: List<Pair<Value>>, k: string)
    requires k in Names(a) && k in Names(b)
  {
    Equal(Get(a, k).value, Get(b, k).value) && Alike(Get(a, k).value, Get(b, k).value)
  }

  lemma EqualIffSameUnder(a: Value, b: Value, p: List<Pair<Value>>, q: List<Pair<Value>>)
    requires a.Mapped? && b.Mapped? && Names(p) == Names(a.entries) && Names(q) == Names(b.entries)
    requires forall k :: k in Names(a.entries) && k in Names(b.entries) ==>
                           (EqualUnder(a.entries, b.entries, k) <==> Get(p, k) == Get(q, k))
    ensures Equal(a, b) && Alike(a, b) <==> SameUnder(p, q)
  {
    hide Names, Get;
    if Equal(a, b) && Alike(a, b) {
      forall k: string
        ensures Get(p, k) == Get(q, k)
      {
        if k in Names(a.entries) {
          assert EqualUnder(a.entries, b.entries, k);
        }
      }
    }
    if SameUnder(p, q) {
      forall k: string
        ensures k in Names(p) <==> k in Names(q)
      {
        assert Get(p, k) == Get(q, k);
      }
      forall k | k in Names(a.entries)
        ensures EqualUnder(a.entries, b.entries, k)
      {
        assert Get(p, k) == Get(q, k);
      }
    }
  }

  // ---------------------------------------------------------------------------
  // Bodies
  // ---------------------------------------------------------------------------

  datatype Part = Content(kind: string, value: Value) | Call(binding: string, arguments: Value)

  /** `legacy` marks a result stored when the outcome could still be unknown. */
  datatype Body =
    | Input(parts: List<Part>)
    | Output(parts: List<Part>, finish: string)
    | ToolResult(legacy: bool, message: string, index: int, outcome: string, parts: List<Part>)
    | Control(action: string, through: int, reason: Option<string>)

  const FINISHES := {"continue", "complete", "quiet"}
  const OUTCOMES := {"success", "denied", "error", "interrupted"}
  const ACTIONS := {"pause", "resume", "abandon", "failure"}

  predicate ValidPart(p: Part) {
    match p
    case Content(kind, value) => kind != "" && kind != "tool_call" && Frozen(value)
    case Call(binding, arguments) => binding != "" && arguments.Mapped? && Frozen(arguments)
  }

  predicate ValidParts(l: List<Part>) {
    l.Cons? ==> ValidPart(l.head) && ValidParts(l.tail)
  }

  predicate HasCall(l: List<Part>) {
    l.Cons? && (l.head.Call? || HasCall(l.tail))
  }

  /** What the constructors leave: the bodies that exist. */
  predicate Valid(b: Body) {
    match b
    case Input(parts) => ValidParts(parts) && !HasCall(parts)
    case Output(parts, finish) => ValidParts(parts) && finish in FINISHES && (finish != "continue" ==> !HasCall(parts))
    case ToolResult(legacy, message, index, outcome, parts) =>
      ValidParts(parts) && !HasCall(parts) && message != "" && index >= 0 && outcome in OUTCOMES &&
      (legacy ==> outcome == "error")
    case Control(action, through, _) => action in ACTIONS && through >= 0
  }

  function PartRow(p: Part): List<Pair<Value>> {
    match p
    case Call(binding, arguments) =>
      Cons(Pair("kind", Str("tool_call")), Cons(Pair("binding_id", Str(binding)),
        Cons(Pair("arguments", JsonValue(arguments)), Nil)))
    case Content(kind, value) => Cons(Pair("kind", Str(kind)), Cons(Pair("value", JsonValue(value)), Nil))
  }

  function PartRows(l: List<Part>): List<Value> {
    if l.Nil? then Nil else Cons(Mapped(false, PartRow(l.head)), PartRows(l.tail))
  }

  function BodyRow(b: Body): List<Pair<Value>> {
    match b
    case Control(action, through, reason) =>
      Cons(Pair("kind", Str("control")), Cons(Pair("action", Str(action)), Cons(Pair("through_seq", Int(through)),
        Cons(Pair("reason", if reason == None then Null else Str(reason.value)), Nil))))
    case Input(parts) => Cons(Pair("kind", Str("input")), Cons(Pair("parts", Listed(PartRows(parts))), Nil))
    case Output(parts, finish) =>
      Cons(Pair("kind", Str("output")), Cons(Pair("parts", Listed(PartRows(parts))),
        Cons(Pair("finish", Str(finish)), Nil)))
    case ToolResult(legacy, message, index, outcome, parts) =>
      Cons(Pair("kind", Str("tool_result")), Cons(Pair("parts", Listed(PartRows(parts))),
        Cons(Pair("outcome", Str(if legacy then "unknown" else outcome)),
          Cons(Pair("call_ref", Mapped(false, CallRow(message, index))), Nil))))
  }

  function CallRow(message: string, index: int): List<Pair<Value>> {
    Cons(Pair("message_id", Str(message)), Cons(Pair("part_index", Int(index)), Nil))
  }

  /** A new message may not use the old representation. */
  function Encode(b: Body, allowLegacy: bool): Option<Json> {
    if b.ToolResult? && b.legacy && !allowLegacy then None else Emit(Mapped(false, BodyRow(b)))
  }

  datatype Fault = DuplicateField | Malformed

  function MakeContent(kind: Value, value: Value): Option<Part> {
    if kind.Str? && kind.s != "" && kind.s != "tool_call" && Freeze(value).Some?
    then Some(Content(kind.s, Freeze(value).value)) else None
  }

  function MakeCall(binding: Value, arguments: Value): Option<Part> {
    if binding.Str? && binding.s != "" && arguments.Mapped? && Freeze(arguments).Some?
    then Some(Call(binding.s, Freeze(arguments).value)) else None
  }

  function PartOf(v: Value): Option<Part> {
    if !v.Mapped? then None
    else if Get(v.entries, "kind") == Some(Str("tool_call")) then
      if Names(v.entries) == {"kind", "binding_id", "arguments"}
      then MakeCall(Get(v.entries, "binding_id").value, Get(v.entries, "arguments").value) else None
    else if Names(v.entries) == {"kind", "value"}
    then MakeContent(Get(v.entries, "kind").value, Get(v.entries, "value").value) else None
  }

  function PartsOf(l: List<Value>): Option<List<Part>> {
    if l.Nil? then Some(Nil)
    else
      var h, t := PartOf(l.head), PartsOf(l.tail);
      if h == None || t == None then None else Some(Cons(h.value, t.value))
  }

  function MakeControl(row: List<Pair<Value>>): Option<Body>
    requires Names(row) == {"kind", "action", "through_seq", "reason"}
  {
    var action, through, reason := Get(row, "action").value, Get(row, "through_seq").value, Get(row, "reason").value;
    if action.Str? && action.s in ACTIONS && through.Int? && through.i >= 0 && (reason.Null? || reason.Str?)
    then Some(Control(action.s, through.i, if reason.Null? then None else Some(reason.s))) else None
  }

  function MakeResult(row: List<Pair<Value>>, parts: List<Part>): Option<Body>
    requires Names(row) == {"kind", "parts", "call_ref", "outcome"}
  {
    var call, outcome := Get(row, "call_ref").value, Get(row, "outcome").value;
    if !call.Mapped? || Names(call.entries) != {"message_id", "part_index"} then None
    else
      var message, index := Get(call.entries, "message_id").value, Get(call.entries, "part_index").value;
      if message.Str? && message.s != "" && index.Int? && index.i >= 0 && !HasCall(parts) && outcome.Str? &&
         (outcome.s == "unknown" || outcome.s in OUTCOMES)
      then
        var unknown := outcome.s == "unknown";
        Some(ToolResult(unknown, message.s, index.i, if unknown then "error" else outcome.s, parts))
      else None
  }

  function MakeBody(row: List<Pair<Value>>): Option<Body> {
    var kind := Get(row, "kind");
    if kind == Some(Str("control")) then
      if Names(row) == {"kind", "action", "through_seq", "reason"} then MakeControl(row) else None
    else if kind == None || !kind.value.Str? then None
    else if kind.value.s == "input" then
      if Names(row) != {"kind", "parts"} || !Get(row, "parts").value.Listed? then None
      else
        var parts := PartsOf(Get(row, "parts").value.items);
        if parts == None || HasCall(parts.value) then None else Some(Input(parts.value))
    else if kind.value.s == "output" then
      if Names(row) != {"kind", "parts", "finish"} || !Get(row, "parts").value.Listed? then None
      else
        var parts, finish := PartsOf(Get(row, "parts").value.items), Get(row, "finish").value;
        if parts == None || !finish.Str? || finish.s !in FINISHES || (finish.s != "continue" && HasCall(parts.value)) then None
        else Some(Output(parts.value, finish.s))
    else if kind.value.s == "tool_result" then
      if Names(row) != {"kind", "parts", "call_ref", "outcome"} || !Get(row, "parts").value.Listed? then None
      else
        var parts := PartsOf(Get(row, "parts").value.items);
        if parts == None then None else MakeResult(row, parts.value)
    else None
  }

  function Decode(t: Json): Result<Body, Fault> {
    var v := Load(t);
    if v == None then Err(DuplicateField)
    else if !v.value.Mapped? then Err(Malformed)
    else
      var b := MakeBody(v.value.entries);
      if b == None then Err(Malformed) else Ok(b.value)
  }

  // ---------------------------------------------------------------------------
  // What decoding refuses and yields
  // ---------------------------------------------------------------------------

  /** No object of the text names a field twice. */
  predicate UniqueTree(t: Json) {
    match t
    case JArr(items) => UniqueTreeItems(items)
    case JObj(fields) => Unique(fields) && UniqueTreeFields(fields)
    case _ => true
  }

  predicate UniqueTreeItems(l: List<Json>) {
    l.Cons? ==> UniqueTree(l.head) && UniqueTreeItems(l.tail)
  }

  predicate UniqueTreeFields(l: List<Pair<Json>>) {
    l.Cons? ==> UniqueTree(l.head.value) && UniqueTreeFields(l.tail)
  }

  lemma {:induction false} LoadRefusesDuplicates(t: Json)
    ensures Load(t).Some? <==> UniqueTree(t)
    ensures Load(t).Some? ==> Proper(Load(t).value)
  {
    match t
    case JArr(items) => LoadRefusesInItems(items);
    case JObj(fields) => LoadRefusesInFields(fields);
    case _ =>
  }

  lemma {:induction false} LoadRefusesInItems(l: List<Json>)
    ensures LoadItems(l).Some? <==> UniqueTreeItems(l)
    ensures LoadItems(l).Some? ==> ProperItems(LoadItems(l).value)
  {
    if l.Cons? {
      LoadRefusesDuplicates(l.head);
      LoadRefusesInItems(l.tail);
    }
  }

  lemma {:induction false} LoadRefusesInFields(l: List<Pair<Json>>)
    ensures LoadFields(l).Some? <==> UniqueTreeFields(l)
    ensures LoadFields(l).Some? ==> ProperEntries(LoadFields(l).value)
    ensures LoadFields(l).Some? && Unique(l) ==> Unique(LoadFields(l).value)
  {
    if l.Cons? {
      LoadRefusesDuplicates(l.head.value);
      LoadRefusesInFields(l.tail);
    }
  }

  /** Main result: a repeated field name is refused at every depth, and as such only there. */
  lemma DecodeRefusesDuplicates(t: Json)
    ensures Decode(t) == Err(DuplicateField) <==> !UniqueTree(t)
  {
    LoadRefusesDuplicates(t);
  }

  lemma {:induction false} PartsAreValid(l: List<Value>)
    requires ProperItems(l) && PartsOf(l).Some?
    ensures ValidParts(PartsOf(l).value)
  {
    if l.Cons? {
      PartIsValid(l.head);
      PartsAreValid(l.tail);
    }
  }

  lemma {:induction false} ProperUnder(l: List<Pair<Value>>, k: string)
    requires ProperEntries(l) && k in Names(l)
    ensures Proper(Get(l, k).value)
  {
    if l.head.name != k {
      ProperUnder(l.tail, k);
    }
  }

  lemma PartIsValid(v: Value)
    requires Proper(v) && PartOf(v).Some?
    ensures ValidPart(PartOf(v).value)
  {
    var payload := if PartOf(v).value.Call? then "arguments" else "value";
    ProperUnder(v.entries, payload);
    FreezeAcceptsJson(Get(v.entries, payload).value);
  }

  /** Whatever is decoded is a body that the constructors admit. */
  lemma DecodedIsValid(t: Json)
    requires Decode(t).Ok?
    ensures Valid(Decode(t).value)
  {
    LoadRefusesDuplicates(t);
    var row := Load(t).value.entries;
    if Decode(t).value.Input? || Decode(t).value.Output? || Decode(t).value.ToolResult? {
      ProperUnder(row, "parts");
      PartsAreValid(Get(row, "parts").value.items);
    }
  }

  // ---------------------------------------------------------------------------
  // Round trips
  // ---------------------------------------------------------------------------

  function NormPart(p: Part): Part {
    match p
    case Content(kind, value) => Content(kind, Norm(value))
    case Call(binding, arguments) => Call(binding, Norm(arguments))
  }

  function NormParts(l: List<Part>): List<Part> {
    if l.Nil? then Nil else Cons(NormPart(l.head), NormParts(l.tail))
  }

  function NormBody(b: Body): Body {
    match b
    case Input(parts) => Input(NormParts(parts))
    case Output(parts, finish) => Output(NormParts(parts), finish)
    case ToolResult(legacy, message, index, outcome, parts) => ToolResult(legacy, message, index, outcome, NormParts(parts))
    case Control(_, _, _) => b
  }

  /** An object written from `row` and read back is the same row, with its values read
      back, in key order. */
  lemma RowSurvives(row: List<Pair<Value>>, ts: List<Pair<Json>>, vs: List<Pair<Value>>)
    requires Unique(row) && EmitEntries(row) == Some(ts) && LoadFields(ts) == Some(vs)
    ensures Emit(Mapped(false, row)) == Some(JObj(Sort(ts)))
    ensures Load(JObj(Sort(ts))) == Some(Mapped(false, Sort(vs)))
    ensures Names(Sort(vs)) == Names(row) && forall k :: Get(Sort(vs), k) == Get(vs, k)
  {
    EmitKeepsUnique(row);
    LoadKeepsUnique(ts);
    SortedLoads(ts, vs);
    hide Sort, Ascending;
    SortFacts(ts);
    SortFacts(vs);
  }

  lemma {:induction false} EmitKeepsUnique(l: List<Pair<Value>>)
    requires EmitEntries(l).Some?
    ensures Unique(EmitEntries(l).value) <==> Unique(l)
  {
    if l.Cons? {
      EmitKeepsUnique(l.tail);
    }
  }

  lemma {:induction false} LoadKeepsUnique(l: List<Pair<Json>>)
    requires LoadFields(l).Some?
    ensures Unique(LoadFields(l).value) <==> Unique(l)
  {
    if l.Cons? {
      LoadKeepsUnique(l.tail);
    }
  }

  /** `ts` is written for `row`, and `vs` is read back from it. */
  ghost predicate Travels(row: List<Pair<Value>>, ts: List<Pair<Json>>, vs: List<Pair<Value>>) {
    Unique(row) && EmitEntries(row) == Some(ts) && LoadFields(ts) == Some(vs)
  }

  lemma TravelMore(p: Pair<Value>, t: Json, w: Value, row: List<Pair<Value>>, ts: List<Pair<Json>>, vs: List<Pair<Value>>)
    requires Travels(row, ts, vs) && Emit(p.value) == Some(t) && Load(t) == Some(w) && p.name !in Names(row)
    ensures Travels(Cons(p, row), Cons(Pair(p.name, t), ts), Cons(Pair(p.name, w), vs))
    ensures Names(Cons(p, row)) == {p.name} + Names(row)
  {
  }

  lemma GetFirst<V>(p: Pair<V>, l: List<Pair<V>>)
    ensures Names(Cons(p, l)) == {p.name} + Names(l)
    ensures forall k :: Get(Cons(p, l), k) == if k == p.name then Some(p.value) else Get(l, k)
  {
  }

  /** What a row of two, three or four members holds. */
  lemma RowOf2<V>(a: Pair<V>, b: Pair<V>)
    requires a.name != b.name
    ensures var l := Cons(a, Cons(b, Nil));
            Names(l) == {a.name, b.name} && Get(l, a.name) == Some(a.value) && Get(l, b.name) == Some(b.value)
  {
    GetFirst(b, Nil);
    GetFirst(a, Cons(b, Nil));
  }

  lemma RowOf3<V>(a: Pair<V>, b: Pair<V>, c: Pair<V>)
    requires a.name != b.name && a.name != c.name && b.name != c.name
    ensures var l := Cons(a, Cons(b, Cons(c, Nil)));
            Names(l) == {a.name, b.name, c.name} &&
            Get(l, a.name) == Some(a.value) && Get(l, b.name) == Some(b.value) && Get(l, c.name) == Some(c.value)
  {
    RowOf2(b, c);
    GetFirst(a, Cons(b, Cons(c, Nil)));
  }

  lemma RowOf4<V>(a: Pair<V>, b: Pair<V>, c: Pair<V>, d: Pair<V>)
    requires a.name != b.name && a.name != c.name && a.name != d.name && b.name != c.name && b.name != d.name && c.name != d.name
    ensures var l := Cons(a, Cons(b, Cons(c, Cons(d, Nil))));
            Names(l) == {a.name, b.name, c.name, d.name} && Get(l, a.name) == Some(a.value) && Get(l, b.name) == Some(b.value) &&
            Get(l, c.name) == Some(c.value) && Get(l, d.name) == Some(d.value)
  {
    RowOf3(b, c, d);
    GetFirst(a, Cons(b, Cons(c, Cons(d, Nil))));
  }

  function PartFields(p: Part): List<Pair<Json>> {
    match p
    case Call(binding, arguments) =>
      Cons(Pair("kind", JStr("tool_call")), Cons(Pair("binding_id", JStr(binding)),
        Cons(Pair("arguments", Tree(arguments)), Nil)))
    case Content(kind, value) => Cons(Pair("kind", JStr(kind)), Cons(Pair("value", Tree(value)), Nil))
  }

  lemma PartTravels(p: Part)
    requires ValidPart(p)
    ensures Travels(PartRow(p), PartFields(p), PartRow(NormPart(p)))
  {
    var payload, name := if p.Call? then p.arguments else p.value, if p.Call? then "arguments" else "value";
    TextSurvives(payload);
    hide Emit, Load, Tree, JsonValue, Norm;
    var v, t, w := Pair(name, JsonValue(payload)), Tree(payload), JsonValue(Norm(payload));
    TravelMore(v, t, w, Nil, Nil, Nil);
    if p.Call? {
      StrTravels(p.binding);
      StrTravels("tool_call");
      TravelMore(Pair("binding_id", Str(p.binding)), JStr(p.binding), Str(p.binding), Cons(v, Nil), Cons(Pair(name, t), Nil),
                 Cons(Pair(name, w), Nil));
      TravelMore(Pair("kind", Str("tool_call")), JStr("tool_call"), Str("tool_call"), PartRow(p).tail, PartFields(p).tail,
                 PartRow(NormPart(p)).tail);
    } else {
      StrTravels(p.kind);
      TravelMore(Pair("kind", Str(p.kind)), JStr(p.kind), Str(p.kind), PartRow(p).tail, PartFields(p).tail,
                 PartRow(NormPart(p)).tail);
    }
  }

  lemma StrTravels(s: string)
    ensures Emit(Str(s)) == Some(JStr(s)) && Load(JStr(s)) == Some(Str(s))
  {
  }

  lemma IntTravels(i: int)
    ensures Emit(Int(i)) == Some(JInt(i)) && Load(JInt(i)) == Some(Int(i))
  {
  }

  lemma PartSurvives(p: Part)
    requires ValidPart(p)
    ensures Emit(Mapped(false, PartRow(p))) == Some(JObj(Sort(PartFields(p))))
    ensures Load(JObj(Sort(PartFields(p)))) == Some(Mapped(false, Sort(PartRow(NormPart(p)))))
    ensures PartOf(Mapped(false, Sort(PartRow(NormPart(p))))) == Some(NormPart(p))
  {
    var payload := if p.Call? then p.arguments else p.value;
    TextSurvives(payload);
    FreezeUndoesThaw(Norm(payload));
    PartTravels(p);
    RowSurvives(PartRow(p), PartFields(p), PartRow(NormPart(p)));
    hide Emit, Load, Tree, JsonValue, Sort, EmitEntries, LoadFields, Frozen;
    PartNames(p);
    PartNames(NormPart(p));
    PartReads(Sort(PartRow(NormPart(p))), NormPart(p));
  }

  lemma PartNames(p: Part)
    ensures Names(PartRow(p)) == if p.Call? then {"kind", "binding_id", "arguments"} else {"kind", "value"}
    ensures p.Call? ==> Get(PartRow(p), "kind") == Some(Str("tool_call")) && Get(PartRow(p), "binding_id") == Some(Str(p.binding)) &&
                        Get(PartRow(p), "arguments") == Some(JsonValue(p.arguments))
    ensures p.Content? ==> Get(PartRow(p), "kind") == Some(Str(p.kind)) && Get(PartRow(p), "value") == Some(JsonValue(p.value))
  {
    hide JsonValue;
    if p.Call? {
      RowOf3(Pair("kind", Str("tool_call")), Pair("binding_id", Str(p.binding)), Pair("arguments", JsonValue(p.arguments)));
    } else {
      RowOf2(Pair("kind", Str(p.kind)), Pair("value", JsonValue(p.value)));
    }
  }

  /** A row is read by what it holds under each name. */
  lemma PartReads(row: List<Pair<Value>>, p: Part)
    requires Names(row) == Names(PartRow(p)) && forall k :: Get(row, k) == Get(PartRow(p), k)
    requires p.Content? ==> p.kind != "" && p.kind != "tool_call" && Freeze(JsonValue(p.value)) == Some(p.value)
    requires p.Call? ==> p.binding != "" && p.arguments.Mapped? && Freeze(JsonValue(p.arguments)) == Some(p.arguments)
    ensures PartOf(Mapped(false, row)) == Some(p)
  {
    PartNames(p);
    assert p.Call? ==> JsonValue(p.arguments).Mapped?;
    hide Get, Names, PartRow, Freeze, JsonValue;
  }

  function PartTrees(l: List<Part>): List<Json> {
    if l.Nil? then Nil else Cons(JObj(Sort(PartFields(l.head))), PartTrees(l.tail))
  }

  /** The rows of the parts as they are read back. */
  function ReadRows(l: List<Part>): List<Value> {
    if l.Nil? then Nil else Cons(Mapped(false, Sort(PartRow(NormPart(l.head)))), ReadRows(l.tail))
  }

  lemma {:induction false} PartsSurvive(l: List<Part>)
    requires ValidParts(l)
    ensures EmitItems(PartRows(l)) == Some(PartTrees(l))
    ensures LoadItems(PartTrees(l)) == Some(ReadRows(l))
    ensures PartsOf(ReadRows(l)) == Some(NormParts(l)) && HasCall(NormParts(l)) == HasCall(l)
  {
    if l.Cons? {
      PartSurvives(l.head);
      PartsSurvive(l.tail);
    }
  }

  function CallFields(message: string, index: int): List<Pair<Json>> {
    Cons(Pair("message_id", JStr(message)), Cons(Pair("part_index", JInt(index)), Nil))
  }

  function BodyFields(b: Body): List<Pair<Json>> {
    match b
    case Control(action, through, reason) =>
      Cons(Pair("kind", JStr("control")), Cons(Pair("action", JStr(action)), Cons(Pair("through_seq", JInt(through)),
        Cons(Pair("reason", if reason == None then JNull else JStr(reason.value)), Nil))))
    case Input(parts) => Cons(Pair("kind", JStr("input")), Cons(Pair("parts", JArr(PartTrees(parts))), Nil))
    case Output(parts, finish) =>
      Cons(Pair("kind", JStr("output")), Cons(Pair("parts", JArr(PartTrees(parts))),
        Cons(Pair("finish", JStr(finish)), Nil)))
    case ToolResult(legacy, message, index, outcome, parts) =>
      Cons(Pair("kind", JStr("tool_result")), Cons(Pair("parts", JArr(PartTrees(parts))),
        Cons(Pair("outcome", JStr(if legacy then "unknown" else outcome)),
          Cons(Pair("call_ref", JObj(Sort(CallFields(message, index)))), Nil))))
  }

  function ReadRow(b: Body): List<Pair<Value>> {
    match b
    case Control(action, through, reason) => BodyRow(b)
    case Input(parts) => Cons(Pair("kind", Str("input")), Cons(Pair("parts", Listed(ReadRows(parts))), Nil))
    case Output(parts, finish) =>
      Cons(Pair("kind", Str("output")), Cons(Pair("parts", Listed(ReadRows(parts))),
        Cons(Pair("finish", Str(finish)), Nil)))
    case ToolResult(legacy, message, index, outcome, parts) =>
      Cons(Pair("kind", Str("tool_result")), Cons(Pair("parts", Listed(ReadRows(parts))),
        Cons(Pair("outcome", Str(if legacy then "unknown" else outcome)),
          Cons(Pair("call_ref", Mapped(false, Sort(CallRow(message, index)))), Nil))))
  }

  lemma CallRefSurvives(message: string, index: int)
    ensures Emit(Mapped(false, CallRow(message, index))) == Some(JObj(Sort(CallFields(message, index))))
    ensures Load(JObj(Sort(CallFields(message, index)))) == Some(Mapped(false, Sort(CallRow(message, index))))
    ensures var row := Sort(CallRow(message, index));
            Names(row) == {"message_id", "part_index"} && Get(row, "message_id") == Some(Str(message)) &&
            Get(row, "part_index") == Some(Int(index))
  {
    StrTravels(message);
    IntTravels(index);
    hide Emit, Load, Sort;
    TravelMore(Pair("part_index", Int(index)), JInt(index), Int(index), Nil, Nil, Nil);
    TravelMore(Pair("message_id", Str(message)), JStr(message), Str(message), CallRow(message, index).tail,
               CallFields(message, index).tail, CallRow(message, index).tail);
    RowSurvives(CallRow(message, index), CallFields(message, index), CallRow(message, index));
    RowOf2(Pair("message_id", Str(message)), Pair("part_index", Int(index)));
  }

  lemma PartsTravel(parts: List<Part>)
    requires ValidParts(parts)
    ensures Emit(Listed(PartRows(parts))) == Some(JArr(PartTrees(parts)))
    ensures Load(JArr(PartTrees(parts))) == Some(Listed(ReadRows(parts)))
  {
    PartsSurvive(parts);
  }

  lemma OneTravels(p: Pair<Value>, t: Json, w: Value)
    requires Emit(p.value) == Some(t) && Load(t) == Some(w)
    ensures Travels(Cons(p, Nil), Cons(Pair(p.name, t), Nil), Cons(Pair(p.name, w), Nil))
    ensures Names(Cons(p, Nil)) == {p.name}
  {
    TravelMore(p, t, w, Nil, Nil, Nil);
  }

  lemma InputTravels(b: Body)
    requires Valid(b) && b.Input?
    ensures Travels(BodyRow(b), BodyFields(b), ReadRow(b))
  {
    StrTravels("input");
    PartsTravel(b.parts);
    var row, ts, vs := BodyRow(b), BodyFields(b), ReadRow(b);
    hide Emit, Load, Travels, Names, PartTrees, ReadRows, PartRows;
    OneTravels(row.tail.head, ts.tail.head.value, vs.tail.head.value);
    TravelMore(row.head, ts.head.value, vs.head.value, row.tail, ts.tail, vs.tail);
  }

  lemma OutputTravels(b: Body)
    requires Valid(b) && b.Output?
    ensures Travels(BodyRow(b), BodyFields(b), ReadRow(b))
  {
    StrTravels("output");
    StrTravels(b.finish);
    PartsTravel(b.parts);
    var row, ts, vs := BodyRow(b), BodyFields(b), ReadRow(b);
    hide Emit, Load, Travels, Names, PartTrees, ReadRows, PartRows;
    OneTravels(row.tail.tail.head, ts.tail.tail.head.value, vs.tail.tail.head.value);
    TravelMore(row.tail.head, ts.tail.head.value, vs.tail.head.value, row.tail.tail, ts.tail.tail, vs.tail.tail);
    TravelMore(row.head, ts.head.value, vs.head.value, row.tail, ts.tail, vs.tail);
  }

  /** Four members, the last one first. */
  lemma FourTravel(row: List<Pair<Value>>, ts: List<Pair<Json>>, vs: List<Pair<Value>>, a: Pair<Value>, b: Pair<Value>,
                   c: Pair<Value>, d: Pair<Value>, ta: Json, tb: Json, tc: Json, td: Json, wa: Value, wb: Value, wc: Value,
                   wd: Value)
    requires row == Cons(a, Cons(b, Cons(c, Cons(d, Nil))))
    requires ts == Cons(Pair(a.name, ta), Cons(Pair(b.name, tb), Cons(Pair(c.name, tc), Cons(Pair(d.name, td), Nil))))
    requires vs == Cons(Pair(a.name, wa), Cons(Pair(b.name, wb), Cons(Pair(c.name, wc), Cons(Pair(d.name, wd), Nil))))
    requires a.name != b.name && a.name != c.name && a.name != d.name && b.name != c.name && b.name != d.name && c.name != d.name
    requires Emit(a.value) == Some(ta) && Emit(b.value) == Some(tb) && Emit(c.value) == Some(tc) && Emit(d.value) == Some(td)
    requires Load(ta) == Some(wa) && Load(tb) == Some(wb) && Load(tc) == Some(wc) && Load(td) == Some(wd)
    ensures Travels(row, ts, vs)
  {
    hide Emit, Load, Travels, Names;
    OneTravels(d, td, wd);
    TravelMore(c, tc, wc, row.tail.tail.tail, ts.tail.tail.tail, vs.tail.tail.tail);
    TravelMore(b, tb, wb, row.tail.tail, ts.tail.tail, vs.tail.tail);
    TravelMore(a, ta, wa, row.tail, ts.tail, vs.tail);
  }

  lemma ResultTravels(b: Body)
    requires Valid(b) && b.ToolResult?
    ensures Travels(BodyRow(b), BodyFields(b), ReadRow(b))
  {
    var outcome := if b.legacy then "unknown" else b.outcome;
    StrTravels("tool_result");
    StrTravels(outcome);
    PartsTravel(b.parts);
    CallRefSurvives(b.message, b.index);
    var call, read := JObj(Sort(CallFields(b.message, b.index))), Mapped(false, Sort(CallRow(b.message, b.index)));
    var row, ts, vs := BodyRow(b), BodyFields(b), ReadRow(b);
    hide Emit, Load, Travels, Names, PartTrees, ReadRows, PartRows, Sort, CallRow, CallFields, Valid;
    FourTravel(row, ts, vs, row.head, row.tail.head, row.tail.tail.head, row.tail.tail.tail.head,
               JStr("tool_result"), JArr(PartTrees(b.parts)), JStr(outcome), call,
               Str("tool_result"), Listed(ReadRows(b.parts)), Str(outcome), read);
  }

  lemma ControlTravels(b: Body)
    requires Valid(b) && b.Control?
    ensures Travels(BodyRow(b), BodyFields(b), ReadRow(b))
  {
    var r, t := if b.reason == None then Null else Str(b.reason.value), if b.reason == None then JNull else JStr(b.reason.value);
    StrTravels("control");
    StrTravels(b.action);
    IntTravels(b.through);
    assert Emit(r) == Some(t) && Load(t) == Some(r);
    var row, ts, vs := BodyRow(b), BodyFields(b), ReadRow(b);
    hide Emit, Load, Travels, Names;
    FourTravel(row, ts, vs, row.head, row.tail.head, row.tail.tail.head, row.tail.tail.tail.head,
               JStr("control"), JStr(b.action), JInt(b.through), t, Str("control"), Str(b.action), Int(b.through), r);
  }

  lemma BodyTravels(b: Body)
    requires Valid(b)
    ensures Travels(BodyRow(b), BodyFields(b), ReadRow(b))
  {
    hide Valid, Travels, BodyRow, BodyFields, ReadRow;
    match b
    case Input(_) => InputTravels(b);
    case Output(_, _) => OutputTravels(b);
    case ToolResult(_, _, _, _, _) => ResultTravels(b);
    case Control(_, _, _) => ControlTravels(b);
  }

  lemma ControlReads(row: List<Pair<Value>>, b: Body)
    requires Valid(b) && b.Control? && Names(row) == Names(ReadRow(b)) && forall k :: Get(row, k) == Get(ReadRow(b), k)
    ensures MakeBody(row) == Some(b)
  {
    var r := if b.reason == None then Null else Str(b.reason.value);
    RowOf4(Pair("kind", Str("control")), Pair("action", Str(b.action)), Pair("through_seq", Int(b.through)), Pair("reason", r));
    assert ReadRow(b) == BodyRow(b);
    hide Get, Names;
  }

  lemma ResultIsMade(row: List<Pair<Value>>, b: Body, parts: List<Part>, call: List<Pair<Value>>)
    requires Valid(b) && b.ToolResult? && HasCall(parts) == HasCall(b.parts)
    requires Names(row) == {"kind", "parts", "call_ref", "outcome"}
    requires Get(row, "outcome") == Some(Str(if b.legacy then "unknown" else b.outcome))
    requires Get(row, "call_ref") == Some(Mapped(false, call)) && Names(call) == {"message_id", "part_index"}
    requires Get(call, "message_id") == Some(Str(b.message)) && Get(call, "part_index") == Some(Int(b.index))
    ensures MakeResult(row, parts) == Some(ToolResult(b.legacy, b.message, b.index, b.outcome, parts))
  {
    assert "unknown" !in OUTCOMES;
    hide Get, Names, HasCall, ValidParts;
  }

  lemma BodyIsResult(row: List<Pair<Value>>, items: List<Value>, parts: List<Part>)
    requires Names(row) == {"kind", "parts", "call_ref", "outcome"} && Get(row, "kind") == Some(Str("tool_result"))
    requires Get(row, "parts") == Some(Listed(items)) && PartsOf(items) == Some(parts)
    ensures MakeBody(row) == MakeResult(row, parts)
  {
    hide Get, Names, PartsOf, MakeResult;
  }

  lemma ResultReads(row: List<Pair<Value>>, b: Body)
    requires Valid(b) && b.ToolResult? && Names(row) == Names(ReadRow(b)) && forall k :: Get(row, k) == Get(ReadRow(b), k)
    ensures MakeBody(row) == Some(NormBody(b))
  {
    PartsSurvive(b.parts);
    CallRefSurvives(b.message, b.index);
    var outcome, call := if b.legacy then "unknown" else b.outcome, Sort(CallRow(b.message, b.index));
    RowOf4(Pair("kind", Str("tool_result")), Pair("parts", Listed(ReadRows(b.parts))),
           Pair("outcome", Str(outcome)), Pair("call_ref", Mapped(false, call)));
    assert ReadRow(b) == Cons(Pair("kind", Str("tool_result")), Cons(Pair("parts", Listed(ReadRows(b.parts))),
                           Cons(Pair("outcome", Str(outcome)), Cons(Pair("call_ref", Mapped(false, call)), Nil))));
    hide Get, Names, PartsOf, HasCall, Sort, CallRow, Valid, NormParts, ReadRows, MakeBody, MakeResult, ReadRow;
    BodyIsResult(row, ReadRows(b.parts), NormParts(b.parts));
    ResultIsMade(row, b, NormParts(b.parts), call);
  }

  lemma InputReads(row: List<Pair<Value>>, b: Body)
    requires Valid(b) && b.Input? && Names(row) == Names(ReadRow(b)) && forall k :: Get(row, k) == Get(ReadRow(b), k)
    ensures MakeBody(row) == Some(NormBody(b))
  {
    PartsSurvive(b.parts);
    RowOf2(Pair("kind", Str("input")), Pair("parts", Listed(ReadRows(b.parts))));
    hide Get, Names, PartsOf, HasCall;
  }

  lemma OutputReads(row: List<Pair<Value>>, b: Body)
    requires Valid(b) && b.Output? && Names(row) == Names(ReadRow(b)) && forall k :: Get(row, k) == Get(ReadRow(b), k)
    ensures MakeBody(row) == Some(NormBody(b))
  {
    PartsSurvive(b.parts);
    RowOf3(Pair("kind", Str("output")), Pair("parts", Listed(ReadRows(b.parts))), Pair("finish", Str(b.finish)));
    hide Get, Names, PartsOf, HasCall;
  }

  lemma BodyReads(row: List<Pair<Value>>, b: Body)
    requires Valid(b) && Names(row) == Names(ReadRow(b)) && forall k :: Get(row, k) == Get(ReadRow(b), k)
    ensures MakeBody(row) == Some(NormBody(b))
  {
    hide Get, Names, MakeBody, ReadRow, Valid;
    match b
    case Control(_, _, _) => ControlReads(row, b);
    case Input(_) => InputReads(row, b);
    case Output(_, _) => OutputReads(row, b);
    case ToolResult(_, _, _, _, _) => ResultReads(row, b);
  }

  lemma ReadNames(b: Body)
    requires Valid(b)
    ensures Unique(BodyRow(b)) && EmitEntries(BodyRow(b)) == Some(BodyFields(b)) && LoadFields(BodyFields(b)) == Some(ReadRow(b))
    ensures Names(ReadRow(b)) == Names(BodyRow(b))
  {
    BodyTravels(b);
    hide BodyRow, BodyFields, ReadRow, Valid;
  }

  /** Main result: decoding undoes encoding on every body, the legacy marker and nested
      JSON included; only the key order inside mappings is normalised. */
  lemma DecodeUndoesEncode(b: Body)
    requires Valid(b)
    ensures Encode(b, true).Some? && Decode(Encode(b, true).value) == Ok(NormBody(b))
  {
    hide Get, Names, BodyRow, BodyFields, ReadRow, Sort, MakeBody, EmitEntries, LoadFields, Valid, Emit, Load, Unique;
    ReadNames(b);
    RowSurvives(BodyRow(b), BodyFields(b), ReadRow(b));
    BodyReads(Sort(ReadRow(b)), b);
  }

  /** A new message is refused exactly when it carries the legacy marker. */
  lemma EncodeNewRefusesLegacy(b: Body)
    requires Valid(b)
    ensures Encode(b, false) == None <==> b.ToolResult? && b.legacy
    ensures Encode(b, false).Some? ==> Encode(b, false) == Encode(b, true)
  {
    DecodeUndoesEncode(b);
  }

  // ---------------------------------------------------------------------------
  // Canonical texts
  // ---------------------------------------------------------------------------

  /** Every object of the text has its names in ascending order. */
  predicate Canonical(t: Json) {
    match t
    case JArr(items) => CanonicalItems(items)
    case JObj(fields) => Ascending(fields) && CanonicalFields(fields)
    case _ => true
  }

  predicate CanonicalItems(l: List<Json>) {
    l.Cons? ==> Canonical(l.head) && CanonicalItems(l.tail)
  }

  predicate CanonicalFields(l: List<Pair<Json>>) {
    l.Cons? ==> Canonical(l.head.value) && CanonicalFields(l.tail)
  }

  /** A canonical text that was read and frozen is written again as it was. */
  lemma {:induction false} CanonicalIsRewritten(t: Json, f: Value)
    requires Canonical(t) && Load(t).Some? && Freeze(Load(t).value) == Some(f)
    ensures Emit(JsonValue(f)) == Some(t)
  {
    match t
    case JArr(items) => ItemsAreRewritten(items, f.items);
    case JObj(fields) =>
      FieldsAreRewritten(fields, f.entries);
      AscendingIsUnique(fields);
    case _ =>
  }

  lemma {:induction false} ItemsAreRewritten(l: List<Json>, fs: List<Value>)
    requires CanonicalItems(l) && LoadItems(l).Some? && FreezeItems(LoadItems(l).value) == Some(fs)
    ensures EmitItems(JsonItems(fs)) == Some(l)
  {
    if l.Cons? {
      CanonicalIsRewritten(l.head, fs.head);
      ItemsAreRewritten(l.tail, fs.tail);
    }
  }

  lemma {:induction false} FieldsAreRewritten(l: List<Pair<Json>>, fs: List<Pair<Value>>)
    requires CanonicalFields(l) && LoadFields(l).Some? && FreezeEntries(LoadFields(l).value) == Some(fs)
    ensures EmitEntries(JsonEntries(fs)) == Some(l)
  {
    if l.Cons? {
      CanonicalIsRewritten(l.head.value, fs.head.value);
      FieldsAreRewritten(l.tail, fs.tail);
    }
  }

  lemma {:induction false} LoadUnder(l: List<Pair<Json>>, k: string)
    requires LoadFields(l).Some? && k in Names(l)
    ensures k in Names(LoadFields(l).value) && Load(Get(l, k).value) == Some(Get(LoadFields(l).value, k).value)
    ensures CanonicalFields(l) ==> Canonical(Get(l, k).value)
  {
    if l.head.name != k {
      LoadUnder(l.tail, k);
    }
  }

  /** The tree of a text or a number is known from what is read. */
  lemma ScalarTree(t: Json)
    requires Load(t).Some?
    ensures Load(t).value.Str? ==> t == JStr(Load(t).value.s)
    ensures Load(t).value.Int? ==> t == JInt(Load(t).value.i)
    ensures Load(t).value.Null? ==> t == JNull
    ensures Load(t).value.Mapped? ==> t.JObj? && LoadFields(t.fields) == Some(Load(t).value.entries)
    ensures Load(t).value.Listed? ==> t.JArr? && LoadItems(t.items) == Some(Load(t).value.items)
  {
  }

  lemma PayloadTree(t: Json, f: Value)
    requires Canonical(t) && Load(t).Some? && Freeze(Load(t).value) == Some(f)
    ensures t == Tree(f)
  {
    LoadRefusesDuplicates(t);
    FreezeAcceptsJson(Load(t).value);
    CanonicalIsRewritten(t, f);
    TextSurvives(f);
  }

  lemma PartFieldNames(p: Part)
    ensures Names(PartFields(p)) == if p.Call? then {"kind", "binding_id", "arguments"} else {"kind", "value"}
    ensures Unique(PartFields(p))
    ensures p.Call? ==> Get(PartFields(p), "kind") == Some(JStr("tool_call")) &&
                        Get(PartFields(p), "binding_id") == Some(JStr(p.binding)) &&
                        Get(PartFields(p), "arguments") == Some(Tree(p.arguments))
    ensures p.Content? ==> Get(PartFields(p), "kind") == Some(JStr(p.kind)) && Get(PartFields(p), "value") == Some(Tree(p.value))
  {
    hide Tree;
    if p.Call? {
      RowOf3(Pair("kind", JStr("tool_call")), Pair("binding_id", JStr(p.binding)), Pair("arguments", Tree(p.arguments)));
      UniqueOf3(Pair("kind", JStr("tool_call")), Pair("binding_id", JStr(p.binding)), Pair("arguments", Tree(p.arguments)));
    } else {
      RowOf2(Pair("kind", JStr(p.kind)), Pair("value", Tree(p.value)));
      UniqueOf2(Pair("kind", JStr(p.kind)), Pair("value", Tree(p.value)));
    }
  }

  lemma UniqueOf2<V>(a: Pair<V>, b: Pair<V>)
    requires a.name != b.name
    ensures Unique(Cons(a, Cons(b, Nil)))
  {
    GetFirst(b, Nil);
    assert Unique(Cons(b, Nil));
  }

  lemma UniqueOf3<V>(a: Pair<V>, b: Pair<V>, c: Pair<V>)
    requires a.name != b.name && a.name != c.name && b.name != c.name
    ensures Unique(Cons(a, Cons(b, Cons(c, Nil))))
  {
    UniqueOf2(b, c);
    RowOf2(b, c);
  }

  lemma UniqueOf4<V>(a: Pair<V>, b: Pair<V>, c: Pair<V>, d: Pair<V>)
    requires a.name != b.name && a.name != c.name && a.name != d.name && b.name != c.name && b.name != d.name && c.name != d.name
    ensures Unique(Cons(a, Cons(b, Cons(c, Cons(d, Nil)))))
  {
    UniqueOf3(b, c, d);
    RowOf3(b, c, d);
  }

  /** An ascending object with the contents of a row is that row in key order. */
  lemma IsSorted(l: List<Pair<Json>>, row: List<Pair<Json>>)
    requires Ascending(l) && Unique(row) && Names(l) == Names(row)
    requires forall k :: k in Names(row) ==> Get(l, k) == Get(row, k)
    ensures l == Sort(row)
  {
    SortFacts(row);
    forall k
      ensures Get(l, k) == Get(Sort(row), k)
    {
      assert k in Names(row) || (Get(l, k) == None && Get(row, k) == None);
    }
    SameContents(l, Sort(row));
  }

  lemma PartIsRewritten(t: Json, p: Part)
    requires Canonical(t) && Load(t).Some? && PartOf(Load(t).value) == Some(p)
    ensures t == JObj(Sort(PartFields(p)))
  {
    ScalarTree(t);
    var l, row := t.fields, Load(t).value.entries;
    assert LoadFields(l) == Some(row) && Names(row) == Names(l);
    LoadUnder(l, "kind");
    ScalarTree(Get(l, "kind").value);
    PartFieldNames(p);
    if p.Call? {
      LoadUnder(l, "binding_id");
      ScalarTree(Get(l, "binding_id").value);
      LoadUnder(l, "arguments");
      PayloadTree(Get(l, "arguments").value, p.arguments);
    } else {
      LoadUnder(l, "value");
      PayloadTree(Get(l, "value").value, p.value);
    }
    hide Load, Freeze, Tree, Names, Get, PartFields, PartOf, LoadFields;
    IsSorted(l, PartFields(p));
  }

  lemma {:induction false} PartsAreRewritten(l: List<Json>, parts: List<Part>)
    requires CanonicalItems(l) && LoadItems(l).Some? && PartsOf(LoadItems(l).value) == Some(parts)
    ensures l == PartTrees(parts)
  {
    if l.Cons? {
      PartIsRewritten(l.head, parts.head);
      PartsAreRewritten(l.tail, parts.tail);
    }
  }

  lemma PartsFieldIsRewritten(l: List<Pair<Json>>, row: List<Pair<Value>>, parts: List<Part>)
    requires CanonicalFields(l) && LoadFields(l) == Some(row) && "parts" in Names(l)
    requires Get(row, "parts").value.Listed? && PartsOf(Get(row, "parts").value.items) == Some(parts)
    ensures Get(l, "parts") == Some(JArr(PartTrees(parts)))
  {
    LoadUnder(l, "parts");
    var t := Get(l, "parts").value;
    ScalarTree(t);
    PartsAreRewritten(t.items, parts);
  }

  lemma StrFieldIsRewritten(l: List<Pair<Json>>, row: List<Pair<Value>>, k: string)
    requires LoadFields(l) == Some(row) && k in Names(l)
    ensures Get(row, k).Some?
    ensures Get(row, k).value.Str? ==> Get(l, k) == Some(JStr(Get(row, k).value.s))
    ensures Get(row, k).value.Int? ==> Get(l, k) == Some(JInt(Get(row, k).value.i))
    ensures Get(row, k).value.Null? ==> Get(l, k) == Some(JNull)
  {
    LoadUnder(l, k);
    ScalarTree(Get(l, k).value);
  }

  lemma CallFieldIsRewritten(l: List<Pair<Json>>, row: List<Pair<Value>>, message: string, index: int)
    requires CanonicalFields(l) && LoadFields(l) == Some(row) && "call_ref" in Names(l)
    requires var c := Get(row, "call_ref").value;
             c.Mapped? && Names(c.entries) == {"message_id", "part_index"} && Get(c.entries, "message_id") == Some(Str(message)) &&
             Get(c.entries, "part_index") == Some(Int(index))
    ensures Get(l, "call_ref") == Some(JObj(Sort(CallFields(message, index))))
  {
    LoadUnder(l, "call_ref");
    var t := Get(l, "call_ref").value;
    ScalarTree(t);
    var c := Get(row, "call_ref").value.entries;
    StrFieldIsRewritten(t.fields, c, "message_id");
    StrFieldIsRewritten(t.fields, c, "part_index");
    RowOf2(Pair("message_id", JStr(message)), Pair("part_index", JInt(index)));
    UniqueOf2(Pair("message_id", JStr(message)), Pair("part_index", JInt(index)));
    hide Load, LoadFields, Names, Get;
    IsSorted(t.fields, CallFields(message, index));
  }

  lemma InputRow(row: List<Pair<Value>>, b: Body)
    requires MakeBody(row) == Some(b) && b.Input?
    ensures Names(row) == {"kind", "parts"} && Get(row, "kind") == Some(Str("input"))
    ensures Get(row, "parts").value.Listed? && PartsOf(Get(row, "parts").value.items) == Some(b.parts)
  {
    hide Get, Names, PartsOf, HasCall;
  }

  lemma InputIsRewritten(l: List<Pair<Json>>, row: List<Pair<Value>>, b: Body)
    requires Ascending(l) && CanonicalFields(l) && LoadFields(l) == Some(row) && MakeBody(row) == Some(b) && b.Input?
    ensures l == Sort(BodyFields(b))
  {
    hide LoadFields, Get, Names, MakeBody, CanonicalFields, PartTrees, Sort, PartsOf;
    InputRow(row, b);
    assert Names(l) == Names(row);
    StrFieldIsRewritten(l, row, "kind");
    PartsFieldIsRewritten(l, row, b.parts);
    RowOf2(Pair("kind", JStr("input")), Pair("parts", JArr(PartTrees(b.parts))));
    UniqueOf2(Pair("kind", JStr("input")), Pair("parts", JArr(PartTrees(b.parts))));
    IsSorted(l, BodyFields(b));
  }

  lemma OutputRow(row: List<Pair<Value>>, b: Body)
    requires MakeBody(row) == Some(b) && b.Output?
    ensures Names(row) == {"kind", "parts", "finish"} && Get(row, "kind") == Some(Str("output"))
    ensures Get(row, "finish") == Some(Str(b.finish))
    ensures Get(row, "parts").value.Listed? && PartsOf(Get(row, "parts").value.items) == Some(b.parts)
  {
    hide Get, Names, PartsOf, HasCall;
  }

  lemma OutputIsRewritten(l: List<Pair<Json>>, row: List<Pair<Value>>, b: Body)
    requires Ascending(l) && CanonicalFields(l) && LoadFields(l) == Some(row) && MakeBody(row) == Some(b) && b.Output?
    ensures l == Sort(BodyFields(b))
  {
    hide LoadFields, Get, Names, MakeBody, CanonicalFields, PartTrees, Sort, PartsOf;
    OutputRow(row, b);
    assert Names(l) == Names(row);
    StrFieldIsRewritten(l, row, "kind");
    StrFieldIsRewritten(l, row, "finish");
    PartsFieldIsRewritten(l, row, b.parts);
    RowOf3(Pair("kind", JStr("output")), Pair("parts", JArr(PartTrees(b.parts))), Pair("finish", JStr(b.finish)));
    UniqueOf3(Pair("kind", JStr("output")), Pair("parts", JArr(PartTrees(b.parts))), Pair("finish", JStr(b.finish)));
    IsSorted(l, BodyFields(b));
  }

  /** What the row of a decoded result holds. */
  lemma ResultRow(row: List<Pair<Value>>, b: Body)
    requires MakeBody(row) == Some(b) && b.ToolResult?
    ensures Names(row) == {"kind", "parts", "call_ref", "outcome"} && Get(row, "kind") == Some(Str("tool_result"))
    ensures Get(row, "outcome") == Some(Str(if b.legacy then "unknown" else b.outcome))
    ensures Get(row, "parts").value.Listed? && PartsOf(Get(row, "parts").value.items) == Some(b.parts)
    ensures var c := Get(row, "call_ref").value;
            c.Mapped? && Names(c.entries) == {"message_id", "part_index"} && Get(c.entries, "message_id") == Some(Str(b.message)) &&
            Get(c.entries, "part_index") == Some(Int(b.index))
  {
    hide Get, Names, PartsOf, HasCall;
  }

  lemma FourFields(l: List<Pair<Json>>, a: Pair<Json>, b: Pair<Json>, c: Pair<Json>, d: Pair<Json>)
    requires a.name != b.name && a.name != c.name && a.name != d.name && b.name != c.name && b.name != d.name && c.name != d.name
    requires Ascending(l) && Names(l) == {a.name, b.name, c.name, d.name}
    requires Get(l, a.name) == Some(a.value) && Get(l, b.name) == Some(b.value)
    requires Get(l, c.name) == Some(c.value) && Get(l, d.name) == Some(d.value)
    ensures l == Sort(Cons(a, Cons(b, Cons(c, Cons(d, Nil)))))
  {
    hide Get, Names, Sort;
    RowOf4(a, b, c, d);
    UniqueOf4(a, b, c, d);
    IsSorted(l, Cons(a, Cons(b, Cons(c, Cons(d, Nil)))));
  }

  lemma ResultIsRewritten(l: List<Pair<Json>>, row: List<Pair<Value>>, b: Body)
    requires Ascending(l) && CanonicalFields(l) && LoadFields(l) == Some(row) && MakeBody(row) == Some(b) && b.ToolResult?
    ensures l == Sort(BodyFields(b))
  {
    hide LoadFields, Get, Names, MakeBody, CanonicalFields, PartTrees, Sort, CallFields, PartsOf;
    ResultRow(row, b);
    assert Names(l) == Names(row);
    StrFieldIsRewritten(l, row, "kind");
    StrFieldIsRewritten(l, row, "outcome");
    PartsFieldIsRewritten(l, row, b.parts);
    CallFieldIsRewritten(l, row, b.message, b.index);
    FourFields(l, Pair("kind", JStr("tool_result")), Pair("parts", JArr(PartTrees(b.parts))),
               Pair("outcome", JStr(if b.legacy then "unknown" else b.outcome)),
               Pair("call_ref", JObj(Sort(CallFields(b.message, b.index)))));
  }

  lemma ControlRow(row: List<Pair<Value>>, b: Body)
    requires MakeBody(row) == Some(b) && b.Control?
    ensures Names(row) == {"kind", "action", "through_seq", "reason"} && Get(row, "kind") == Some(Str("control"))
    ensures Get(row, "action") == Some(Str(b.action)) && Get(row, "through_seq") == Some(Int(b.through))
    ensures Get(row, "reason") == Some(if b.reason == None then Null else Str(b.reason.value))
  {
    hide Get, Names, PartsOf, HasCall;
  }

  lemma ControlIsRewritten(l: List<Pair<Json>>, row: List<Pair<Value>>, b: Body)
    requires Ascending(l) && LoadFields(l) == Some(row) && MakeBody(row) == Some(b) && b.Control?
    ensures l == Sort(BodyFields(b))
  {
    hide LoadFields, Get, Names, MakeBody, Sort;
    ControlRow(row, b);
    assert Names(l) == Names(row);
    StrFieldIsRewritten(l, row, "kind");
    StrFieldIsRewritten(l, row, "action");
    StrFieldIsRewritten(l, row, "through_seq");
    StrFieldIsRewritten(l, row, "reason");
    FourFields(l, Pair("kind", JStr("control")), Pair("action", JStr(b.action)), Pair("through_seq", JInt(b.through)),
               Pair("reason", if b.reason == None then JNull else JStr(b.reason.value)));
  }

  lemma EncodeIsFields(b: Body)
    requires Valid(b)
    ensures Encode(b, true) == Some(JObj(Sort(BodyFields(b))))
  {
    hide Get, Names, BodyRow, BodyFields, ReadRow, Sort, EmitEntries, LoadFields, Valid, Emit, Load, Unique;
    ReadNames(b);
    RowSurvives(BodyRow(b), BodyFields(b), ReadRow(b));
  }

  /** Main result: encoding a decoded canonical text gives that text back. */
  lemma EncodeUndoesDecode(t: Json)
    requires Canonical(t) && Decode(t).Ok?
    ensures Encode(Decode(t).value, true) == Some(t)
  {
    DecodedIsValid(t);
    var b := Decode(t).value;
    EncodeIsFields(b);
    ScalarTree(t);
    var l, row := t.fields, Load(t).value.entries;
    assert MakeBody(row) == Some(b);
    hide MakeBody, BodyFields, Valid, Sort, Encode, Decode, Load;
    match b
    case Input(_) => InputIsRewritten(l, row, b);
    case Output(_, _) => OutputIsRewritten(l, row, b);
    case ToolResult(_, _, _, _, _) => ResultIsRewritten(l, row, b);
    case Control(_, _, _) => ControlIsRewritten(l, row, b);
  }

  // ---------------------------------------------------------------------------
  // Equal bodies, equal texts
  // ---------------------------------------------------------------------------

  lemma {:induction false} InsertStaysCanonical(p: Pair<Json>, l: List<Pair<Json>>)
    requires Canonical(p.value) && CanonicalFields(l)
    ensures CanonicalFields(Insert(p, l))
  {
    if l.Cons? && Less(l.head.name, p.name) {
      InsertStaysCanonical(p, l.tail);
    }
  }

  lemma {:induction false} SortedIsCanonical(l: List<Pair<Json>>)
    requires CanonicalFields(l)
    ensures CanonicalFields(Sort(l))
  {
    if l.Cons? {
      SortedIsCanonical(l.tail);
      InsertStaysCanonical(l.head, Sort(l.tail));
    }
  }

  lemma {:induction false} TreeIsCanonical(f: Value)
    requires Frozen(f)
    ensures Canonical(Tree(f))
  {
    match f
    case Tupled(items) => TreeItemsCanonical(items);
    case Mapped(_, entries) =>
      TreeEntriesCanonical(entries);
      UniqueAfter(entries);
      SortFacts(TreeEntries(entries));
      SortedIsCanonical(TreeEntries(entries));
    case _ =>
  }

  lemma {:induction false} TreeItemsCanonical(l: List<Value>)
    requires FrozenItems(l)
    ensures CanonicalItems(TreeItems(l))
  {
    if l.Cons? {
      TreeIsCanonical(l.head);
      TreeItemsCanonical(l.tail);
    }
  }

  lemma {:induction false} TreeEntriesCanonical(l: List<Pair<Value>>)
    requires FrozenEntries(l)
    ensures CanonicalFields(TreeEntries(l))
  {
    if l.Cons? {
      TreeIsCanonical(l.head.value);
      TreeEntriesCanonical(l.tail);
    }
  }

  lemma {:induction false} PartTreesCanonical(l: List<Part>)
    requires ValidParts(l)
    ensures CanonicalItems(PartTrees(l))
  {
    if l.Cons? {
      PartTreesCanonical(l.tail);
      PartTreeCanonical(l.head);
    }
  }

  lemma PartTreeCanonical(p: Part)
    requires ValidPart(p)
    ensures Canonical(JObj(Sort(PartFields(p))))
  {
    TreeIsCanonical(if p.Call? then p.arguments else p.value);
    PartFieldNames(p);
    hide Tree, Names, Get, Sort, Frozen;
    assert CanonicalFields(PartFields(p)) by {
      if p.Call? {
        CanonicalOne(Pair("arguments", Tree(p.arguments)), Nil);
        CanonicalOne(Pair("binding_id", JStr(p.binding)), Cons(Pair("arguments", Tree(p.arguments)), Nil));
      } else {
        CanonicalOne(Pair("value", Tree(p.value)), Nil);
      }
    }
    SortFacts(PartFields(p));
    SortedIsCanonical(PartFields(p));
  }

  lemma CanonicalOne(p: Pair<Json>, l: List<Pair<Json>>)
    requires Canonical(p.value) && CanonicalFields(l)
    ensures CanonicalFields(Cons(p, l))
  {
  }

  lemma CallTreeCanonical(message: string, index: int)
    ensures Canonical(JObj(Sort(CallFields(message, index))))
  {
    var l := CallFields(message, index);
    UniqueOf2(Pair("message_id", JStr(message)), Pair("part_index", JInt(index)));
    CanonicalOne(Pair("part_index", JInt(index)), Nil);
    CanonicalOne(Pair("message_id", JStr(message)), Cons(Pair("part_index", JInt(index)), Nil));
    hide Sort, Unique, CanonicalFields;
    SortFacts(l);
    SortedIsCanonical(l);
  }

  lemma BodyFieldsCanonical(b: Body)
    requires Valid(b)
    ensures CanonicalFields(BodyFields(b))
  {
    if !b.Control? {
      PartTreesCanonical(b.parts);
    }
    if b.ToolResult? {
      CallTreeCanonical(b.message, b.index);
    }
    var l := BodyFields(b);
    assert Canonical(l.head.value) && Canonical(l.tail.head.value);
    assert !b.Input? ==> Canonical(l.tail.tail.head.value);
    assert b.ToolResult? || b.Control? ==> Canonical(l.tail.tail.tail.head.value);
    hide Canonical, CanonicalFields, Sort, PartTrees, Valid;
    CanonicalNone();
    if b.ToolResult? || b.Control? {
      CanonicalOne(l.tail.tail.tail.head, Nil);
      CanonicalOne(l.tail.tail.head, l.tail.tail.tail);
    } else if b.Output? {
      CanonicalOne(l.tail.tail.head, Nil);
    }
    CanonicalOne(l.tail.head, l.tail.tail);
    CanonicalOne(l.head, l.tail);
  }

  lemma CanonicalNone()
    ensures CanonicalFields(Nil)
  {
  }

  /** Whatever is written is canonical. */
  lemma EncodedIsCanonical(b: Body)
    requires Valid(b)
    ensures Encode(b, true).Some? && Canonical(Encode(b, true).value)
  {
    EncodeIsFields(b);
    BodyFieldsCanonical(b);
    ReadNames(b);
    EmitKeepsUnique(BodyRow(b));
    hide BodyFields, BodyRow, ReadRow, Sort, CanonicalFields, Valid, Encode;
    SortFacts(BodyFields(b));
    SortedIsCanonical(BodyFields(b));
  }

  /** `==` of parts and bodies in Python; the legacy marker takes no part in it. */
  ghost predicate EqualPart(p: Part, q: Part) {
    match p
    case Content(kind, value) => q.Content? && q.kind == kind && Equal(value, q.value)
    case Call(binding, arguments) => q.Call? && q.binding == binding && Equal(arguments, q.arguments)
  }

  ghost predicate EqualParts(a: List<Part>, b: List<Part>) {
    if a.Nil? || b.Nil? then a.Nil? && b.Nil? else EqualPart(a.head, b.head) && EqualParts(a.tail, b.tail)
  }

  ghost predicate EqualBody(a: Body, b: Body) {
    match a
    case Input(parts) => b.Input? && EqualParts(parts, b.parts)
    case Output(parts, finish) => b.Output? && EqualParts(parts, b.parts) && b.finish == finish
    case ToolResult(_, message, index, outcome, parts) =>
      b.ToolResult? && b.message == message && b.index == index && b.outcome == outcome && EqualParts(parts, b.parts)
    case Control(_, _, _) => a == b
  }

  predicate Legacy(b: Body) {
    b.ToolResult? && b.legacy
  }

  function Payload(p: Part): Value {
    if p.Call? then p.arguments else p.value
  }

  ghost predicate AlikeParts(a: List<Part>, b: List<Part>) {
    a.Cons? && b.Cons? ==> Alike(Payload(a.head), Payload(b.head)) && AlikeParts(a.tail, b.tail)
  }

  /** Written alike: one legacy marker, and numbers of one kind in the parts. */
  ghost predicate AlikeBody(a: Body, b: Body) {
    Legacy(a) == Legacy(b) && (!a.Control? && !b.Control? ==> AlikeParts(a.parts, b.parts))
  }

  lemma {:induction false} SameNormIffEqualParts(a: List<Part>, b: List<Part>)
    requires ValidParts(a) && ValidParts(b)
    ensures NormParts(a) == NormParts(b) <==> EqualParts(a, b) && AlikeParts(a, b)
  {
    if a.Cons? && b.Cons? {
      SameNormIffEqualParts(a.tail, b.tail);
      SameNormIffEqual(Payload(a.head), Payload(b.head));
    }
  }

  /** Main result: two bodies have the same stored text exactly when Python calls them equal
      and they are written alike.  So comparing texts is comparing contents, except that
      true, 1 and 1.0, and 0.0 and -0.0, are kept apart. */
  lemma SameTextIffEqualAlike(a: Body, b: Body)
    requires Valid(a) && Valid(b)
    ensures Encode(a, true) == Encode(b, true) <==> EqualBody(a, b) && AlikeBody(a, b)
  {
    SameNormIffEqualBody(a, b);
    hide Encode, Decode, Valid, Canonical, EqualBody, AlikeBody;
    DecodeUndoesEncode(a);
    DecodeUndoesEncode(b);
    EncodedIsCanonical(a);
    EncodedIsCanonical(b);
    EncodeUndoesDecode(Encode(a, true).value);
    EncodeUndoesDecode(Encode(b, true).value);
  }

  lemma SameNormIffEqualBody(a: Body, b: Body)
    requires Valid(a) && Valid(b)
    ensures NormBody(a) == NormBody(b) <==> EqualBody(a, b) && AlikeBody(a, b)
  {
    if !a.Control? && !b.Control? {
      SameNormIffEqualParts(a.parts, b.parts);
    }
    hide ValidParts, NormParts, EqualParts, AlikeParts, HasCall;
  }

  /** Two inputs that Python calls equal and that are stored as different texts. */
  lemma EqualBodiesTwoTexts() returns (a: Body, b: Body)
    ensures Valid(a) && Valid(b) && EqualBody(a, b)
    ensures Encode(a, true) != Encode(b, true)
  {
    a := Input(Cons(Content("score", Int(1)), Nil));
    b := Input(Cons(Content("score", Bool(true)), Nil));
    assert Equal(Int(1), Bool(true)) && !Alike(Int(1), Bool(true));
    SameTextIffEqualAlike(a, b);
  }
}
