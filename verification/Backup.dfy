/** Rolling backup: copy sources into a snapshot, describe it in a manifest, verify it, and
    restore it.

    A file system is a map from relative paths to nodes; a directory source is the tree
    that a scan of it finds.  The sources keep still while they are copied.  A digest
    stands for the content it was made from. */
module Backup {
  import opened Wrappers

  type Path = seq<string>

  datatype Node = File(mode: int, data: seq<int>) | Dir(mode: int)

  type Fs = map<Path, Node>

  datatype Tree = FileTree(mode: int, data: seq<int>) | DirTree(mode: int, children: Forest)

  /** The children of a directory in name order. */
  datatype Forest = Nil | Child(name: string, tree: Tree, rest: Forest)

  datatype Digest = Digest(content: seq<int>)

  /** One line of a directory listing, with its path relative to the directory. */
  datatype Entry = Entry(path: Path, isDir: bool, mode: int, size: nat, digest: Option<Digest>)

  const PRIVATE := 0x1C0
  const MANIFEST := ["manifest.json"]

  // ---------------------------------------------------------------------------
  // Trees and their scans
  // ---------------------------------------------------------------------------

  function Names(f: Forest): set<string> {
    if f.Nil? then {} else {f.name} + Names(f.rest)
  }

  /** A directory holds each name once. */
  predicate ValidForest(f: Forest) {
    f.Child? ==>
      f.name !in Names(f.rest) && ValidForest(f.rest) && (f.tree.DirTree? ==> ValidForest(f.tree.children))
  }

  function NodeOf(t: Tree): Node {
    match t
    case FileTree(mode, data) => File(mode, data)
    case DirTree(mode, _) => Dir(mode)
  }

  /** What is found under a relative path. */
  function Lookup(f: Forest, p: Path): Option<Node>
    decreases f
  {
    if p == [] || f.Nil? then None
    else if f.name != p[0] then Lookup(f.rest, p)
    else if |p| == 1 then Some(NodeOf(f.tree))
    else if f.tree.DirTree? then Lookup(f.tree.children, p[1..])
    else None
  }

  function EntryOf(path: Path, t: Tree): Entry {
    match t
    case FileTree(mode, data) => Entry(path, false, mode, |data|, Some(Digest(data)))
    case DirTree(mode, _) => Entry(path, true, mode, 0, None)
  }

  /** The scan: a directory, then what is below it, then its next sibling. */
  function Scan(at: Path, f: Forest): seq<Entry>
    decreases f
  {
    if f.Nil? then []
    else
      var path := at + [f.name];
      [EntryOf(path, f.tree)] + (if f.tree.DirTree? then Scan(path, f.tree.children) else []) + Scan(at, f.rest)
  }

  /** How many entries a tree has. */
  function Size(t: Tree): nat
    decreases t
  {
    if t.DirTree? then 1 + ForestSize(t.children) else 1
  }

  function ForestSize(f: Forest): nat
    decreases f
  {
    if f.Nil? then 0 else Size(f.tree) + ForestSize(f.rest)
  }

  /** The place of a path in the scan. */
  function Pos(f: Forest, p: Path): nat
    decreases f
  {
    if p == [] || f.Nil? then 0
    else if f.name != p[0] then Size(f.tree) + Pos(f.rest, p)
    else if |p| > 1 && f.tree.DirTree? then 1 + Pos(f.tree.children, p[1..])
    else 0
  }

  lemma {:induction false} ScanSize(at: Path, f: Forest)
    ensures |Scan(at, f)| == ForestSize(f)
    decreases f
  {
    if f.Child? {
      ScanSize(at, f.rest);
      if f.tree.DirTree? {
        ScanSize(at + [f.name], f.tree.children);
      }
    }
  }

  /** The entry tells the path and what is found there. */
  predicate Tells(e: Entry, path: Path, n: Node) {
    && e.path == path && e.isDir == n.Dir? && e.mode == n.mode
    && (!e.isDir ==> e.size == |n.data| && e.digest == Some(Digest(n.data)))
  }

  /** Every path of the tree stands at its place in the scan. */
  lemma {:induction false} ScanLists(at: Path, f: Forest, p: Path)
    requires Lookup(f, p).Some?
    ensures Pos(f, p) < |Scan(at, f)| && Tells(Scan(at, f)[Pos(f, p)], at + p, Lookup(f, p).value)
    decreases f
  {
    var path := at + [f.name];
    var below := if f.tree.DirTree? then Scan(path, f.tree.children) else [];
    if f.tree.DirTree? {
      ScanSize(path, f.tree.children);
    }
    var own, rest := [EntryOf(path, f.tree)], Scan(at, f.rest);
    assert Scan(at, f) == own + below + rest && |own + below| == Size(f.tree);
    if f.name != p[0] {
      ScanLists(at, f.rest, p);
      assert Scan(at, f)[Pos(f, p)] == rest[Pos(f.rest, p)];
    } else if |p| > 1 {
      ScanLists(path, f.tree.children, p[1..]);
      assert Scan(at, f)[Pos(f, p)] == below[Pos(f.tree.children, p[1..])];
      assert path + p[1..] == at + p;
    } else {
      assert path == at + p;
    }
  }

  lemma Descend(at: Path, name: string, q: Path)
    requires |q| > |at| + 1 && q[..|at| + 1] == at + [name]
    ensures q[|at|..] == [name] + q[|at| + 1..] && q[..|at|] == at && q[|at|] == name
    ensures q[|at|..][1..] == q[|at| + 1..]
  {
    assert q[|at|] == q[..|at| + 1][|at|];
    assert q[..|at|] == q[..|at| + 1][..|at|];
  }

  /** The path of an entry leads to it from the directory that was scanned. */
  predicate Found(at: Path, f: Forest, path: Path, k: nat) {
    && |path| > |at| && path[..|at|] == at && path[|at|] in Names(f)
    && Lookup(f, path[|at|..]).Some? && Pos(f, path[|at|..]) == k
  }

  lemma FoundBelow(at: Path, f: Forest, q: Path, k: nat)
    requires f.Child? && f.tree.DirTree? && Found(at + [f.name], f.tree.children, q, k)
    ensures Found(at, f, q, k + 1)
  {
    Descend(at, f.name, q);
  }

  /** Every entry of the scan is a path of the tree, and stands at that path's place. */
  lemma {:induction false} ScanFinds(at: Path, f: Forest, k: nat)
    requires ValidForest(f) && k < |Scan(at, f)|
    ensures Found(at, f, Scan(at, f)[k].path, k)
    decreases f
  {
    var path := at + [f.name];
    var below := if f.tree.DirTree? then Scan(path, f.tree.children) else [];
    if f.tree.DirTree? {
      ScanSize(path, f.tree.children);
    }
    var own, rest := [EntryOf(path, f.tree)], Scan(at, f.rest);
    assert Scan(at, f) == own + below + rest && |own + below| == Size(f.tree);
    if k == 0 {
      assert path[|at|..] == [f.name];
    } else if k < Size(f.tree) {
      hide Found;
      ScanFinds(path, f.tree.children, k - 1);
      assert Scan(at, f)[k] == below[k - 1];
      FoundBelow(at, f, below[k - 1].path, k - 1);
    } else {
      ScanFinds(at, f.rest, k - Size(f.tree));
      assert Scan(at, f)[k] == rest[k - Size(f.tree)];
    }
  }

  /** Directories stand before what they hold. */
  lemma {:induction false} ParentsFirst(f: Forest, p: Path)
    requires |p| > 1 && Lookup(f, p).Some?
    ensures var up := p[..|p| - 1]; Lookup(f, up).Some? && Lookup(f, up).value.Dir? && Pos(f, up) < Pos(f, p)
    decreases f
  {
    var up := p[..|p| - 1];
    if f.name != p[0] {
      ParentsFirst(f.rest, p);
    } else if |p| > 2 {
      ParentsFirst(f.tree.children, p[1..]);
      assert p[1..][..|p[1..]| - 1] == up[1..];
    } else {
      assert up == [p[0]];
    }
  }

  /** The file system holds exactly this tree below `at`. */
  ghost predicate Holds(fs: Fs, at: Path, f: Forest) {
    forall p: Path :: p != [] ==>
      (at + p in fs <==> Lookup(f, p).Some?) && (Lookup(f, p).Some? ==> fs[at + p] == Lookup(f, p).value)
  }

  // ---------------------------------------------------------------------------
  // Copying
  // ---------------------------------------------------------------------------

  /** Directories get their mode only after everything below them is written. */
  function Early(n: Node): Node {
    if n.Dir? then Dir(PRIVATE) else n
  }

  function Stage(n: Node, final: bool): Node {
    if final then n else Early(n)
  }

  /** The first `i` entries of the scan are in place below `at`, nothing else is. */
  ghost predicate Placed(fs: Fs, base: Fs, at: Path, f: Forest, i: nat, final: bool) {
    && (forall p: Path :: p != [] ==>
          (at + p in fs <==> Lookup(f, p).Some? && Pos(f, p) < i) &&
          (Lookup(f, p).Some? && Pos(f, p) < i ==> fs[at + p] == Stage(Lookup(f, p).value, final)))
    && SameElsewhere(fs, base, at)
  }

  /** Paths that are not strictly below `at` are as before. */
  ghost predicate SameElsewhere(fs: Fs, base: Fs, at: Path) {
    forall q: Path :: !(at < q) ==> (q in fs <==> q in base) && (q in base ==> fs[q] == base[q])
  }

  /** Creates a directory that must be new, below one that must be there. */
  method MakeDirectory(fs: Fs, path: Path) returns (ok: bool, out: Fs)
    requires path != []
    ensures ok <==> path !in fs && (|path| == 1 || (path[..|path| - 1] in fs && fs[path[..|path| - 1]].Dir?))
    ensures out == if ok then fs[path := Dir(PRIVATE)] else fs
  {
    out := fs;
    ok := path !in fs && (|path| == 1 || (path[..|path| - 1] in fs && fs[path[..|path| - 1]].Dir?));
    if ok {
      out := fs[path := Dir(PRIVATE)];
    }
  }

  lemma JoinParent(at: Path, p: Path)
    requires p != []
    ensures (at + p)[..|at + p| - 1] == at + p[..|p| - 1]
    ensures |p| == 1 ==> (at + p)[..|at + p| - 1] == at
  {
  }

  lemma JoinInjective(at: Path, p: Path, q: Path)
    requires at + p == at + q
    ensures p == q
  {
    assert (at + p)[|at|..] == p && (at + q)[|at|..] == q;
  }

  lemma BelowIsJoin(at: Path, q: Path)
    ensures at < q <==> |q| > |at| && q == at + q[|at|..]
    ensures forall p: Path :: p != [] ==> at < at + p
  {
  }

  lemma PlaceOne(fs: Fs, base: Fs, at: Path, f: Forest, i: nat, p: Path, final: bool)
    requires Placed(fs, base, at, f, i, final) && ValidForest(f) && p != [] && Lookup(f, p).Some? && Pos(f, p) == i
    ensures Placed(fs[at + p := Stage(Lookup(f, p).value, final)], base, at, f, i + 1, final)
  {
    var out := fs[at + p := Stage(Lookup(f, p).value, final)];
    forall q: Path | q != []
      ensures at + q in out <==> Lookup(f, q).Some? && Pos(f, q) < i + 1
      ensures Lookup(f, q).Some? && Pos(f, q) < i + 1 ==> out[at + q] == Stage(Lookup(f, q).value, final)
    {
      if at + q == at + p {
        JoinInjective(at, q, p);
      } else if Lookup(f, q).Some? && Pos(f, q) == i {
        SamePlaceSamePath(f, p, q);
      }
    }
    BelowIsJoin(at, at + p);
  }

  lemma SamePlaceSamePath(f: Forest, p: Path, q: Path)
    requires Lookup(f, p).Some? && Lookup(f, q).Some? && Pos(f, p) == Pos(f, q)
    ensures p == q
  {
    ScanLists([], f, p);
    ScanLists([], f, q);
    assert [] + p == p && [] + q == q;
  }

  /** Copies the listed entries one after the other; contents come from `src` below `from`. */
  method PlaceEntries(base: Fs, at: Path, entries: seq<Entry>, src: Fs, from: Path, ghost f: Forest)
    returns (ok: bool, fs: Fs)
    requires ValidForest(f) && entries == Scan([], f) && Holds(src, from, f)
    requires at in base && base[at].Dir? && forall q: Path :: at < q ==> q !in base
    ensures ok && Placed(fs, base, at, f, |entries|, false)
  {
    fs := base;
    var i := 0;
    NothingPlaced(base, at, f, false);
    while i < |entries|
      invariant i <= |entries| && Placed(fs, base, at, f, i, false)
    {
      var e := entries[i];
      EntryIsPath(f, i);
      EntryFacts(fs, base, at, f, i, src, from, e.path);
      PlaceOne(fs, base, at, f, i, e.path, false);
      if e.isDir {
        var made;
        made, fs := MakeDirectory(fs, at + e.path);
        if !made {
          return false, fs;
        }
      } else {
        fs := fs[at + e.path := File(e.mode, src[from + e.path].data)];
      }
      i := i + 1;
    }
    ok := true;
  }

  lemma NothingPlaced(base: Fs, at: Path, f: Forest, final: bool)
    requires forall q: Path :: at < q ==> q !in base
    ensures Placed(base, base, at, f, 0, final)
  {
    BelowIsJoin(at, at);
  }

  /** What the copy loop relies on when it reaches an entry. */
  lemma EntryFacts(fs: Fs, base: Fs, at: Path, f: Forest, i: nat, src: Fs, from: Path, p: Path)
    requires Placed(fs, base, at, f, i, false) && p != [] && Lookup(f, p).Some? && Pos(f, p) == i
    requires at in base && base[at].Dir? && Holds(src, from, f)
    ensures at + p !in fs && from + p in src && src[from + p] == Lookup(f, p).value
    ensures var up := (at + p)[..|at + p| - 1]; up in fs && fs[up].Dir?
  {
    JoinParent(at, p);
    if |p| > 1 {
      ParentsFirst(f, p);
    } else {
      assert !(at < at);
    }
  }

  function MaxDepth(entries: seq<Entry>): (d: nat)
    ensures forall k :: 0 <= k < |entries| ==> |entries[k].path| <= d
  {
    if entries == [] then 0
    else
      var d := MaxDepth(entries[..|entries| - 1]);
      if |entries[|entries| - 1].path| > d then |entries[|entries| - 1].path| else d
  }

  /** Directories deeper than `depth`, and those at this depth among the first `i`
      entries, have their final mode. */
  predicate ModedAt(fs: Fs, at: Path, f: Forest, depth: nat, i: nat, p: Path) {
    var n := Lookup(f, p);
    (at + p in fs <==> n.Some?) &&
    (n.Some? ==> fs[at + p] == if |p| > depth || (|p| == depth && Pos(f, p) < i) then n.value else Early(n.value))
  }

  ghost predicate Moded(fs: Fs, base: Fs, at: Path, f: Forest, depth: nat, i: nat) {
    (forall p: Path :: p != [] ==> ModedAt(fs, at, f, depth, i, p)) && SameElsewhere(fs, base, at)
  }

  lemma ModeOthers(fs: Fs, at: Path, f: Forest, depth: nat, i: nat, p: Path, q: Path, n: Node)
    requires ModedAt(fs, at, f, depth, i, q) && q != [] && p != [] && Lookup(f, p).Some? && Pos(f, p) == i && q != p
    ensures ModedAt(fs[at + p := n], at, f, depth, i + 1, q)
  {
    if at + q == at + p {
      JoinInjective(at, q, p);
    }
    if Lookup(f, q).Some? && Pos(f, q) == i {
      SamePlaceSamePath(f, p, q);
    }
  }

  /** One turn of the loop over the entries. */
  lemma ModeOne(fs: Fs, base: Fs, at: Path, f: Forest, depth: nat, i: nat, p: Path)
    requires Moded(fs, base, at, f, depth, i) && p != [] && Lookup(f, p).Some? && Pos(f, p) == i
    ensures at + p in fs
    ensures var n := Lookup(f, p).value;
            var out := if n.Dir? && |p| == depth then fs[at + p := n] else fs;
            Moded(out, base, at, f, depth, i + 1)
  {
    assert ModedAt(fs, at, f, depth, i, p);
    var n := Lookup(f, p).value;
    var out := if n.Dir? && |p| == depth then fs[at + p := n] else fs;
    assert out == fs[at + p := out[at + p]];
    var next := i + 1;
    forall q: Path | q != []
      ensures ModedAt(out, at, f, depth, next, q)
    {
      if q != p {
        ModeOthers(fs, at, f, depth, i, p, q, out[at + p]);
      }
    }
    BelowIsJoin(at, at + p);
  }

  /** Deepest directories first. */
  method ApplyModes(start: Fs, ghost base: Fs, at: Path, entries: seq<Entry>, ghost f: Forest) returns (fs: Fs)
    requires ValidForest(f) && entries == Scan([], f) && Placed(start, base, at, f, |entries|, false)
    ensures Holds(fs, at, f) && SameElsewhere(fs, base, at)
  {
    hide Placed, Moded, Holds, SameElsewhere, Scan, MaxDepth;
    fs := start;
    var depth := MaxDepth(entries);
    ModesBegin(fs, base, at, f, depth);
    while depth > 0
      invariant Moded(fs, base, at, f, depth, 0)
    {
      var i := 0;
      while i < |entries|
        invariant i <= |entries| && Moded(fs, base, at, f, depth, i)
      {
        var e := entries[i];
        EntryIsPath(f, i);
        ModeOne(fs, base, at, f, depth, i, e.path);
        if e.isDir && |e.path| == depth {
          fs := fs[at + e.path := Dir(e.mode)];
        }
        i := i + 1;
      }
      ModesAtDepth(fs, base, at, f, depth);
      depth := depth - 1;
    }
    ModesEnd(fs, base, at, f);
  }

  /** An entry of a whole scan carries its path and what is found there. */
  lemma EntryIsPath(f: Forest, i: nat)
    requires ValidForest(f) && i < |Scan([], f)|
    ensures var e := Scan([], f)[i];
            && e.path != [] && Lookup(f, e.path).Some? && Pos(f, e.path) == i
            && var n := Lookup(f, e.path).value;
            && e.isDir == n.Dir? && e.mode == n.mode
            && (!e.isDir ==> e.size == |n.data| && e.digest == Some(Digest(n.data)))
  {
    ScanFinds([], f, i);
    var p := Scan([], f)[i].path;
    assert p[0..] == p;
    ScanLists([], f, p);
    assert [] + p == p;
  }

  lemma ModesBegin(fs: Fs, base: Fs, at: Path, f: Forest, depth: nat)
    requires Placed(fs, base, at, f, |Scan([], f)|, false) && depth == MaxDepth(Scan([], f))
    ensures Moded(fs, base, at, f, depth, 0)
  {
    forall p: Path | p != []
      ensures ModedAt(fs, at, f, depth, 0, p)
    {
      if Lookup(f, p).Some? {
        ScanLists([], f, p);
        assert [] + p == p;
      }
    }
  }

  lemma ModesAtDepth(fs: Fs, base: Fs, at: Path, f: Forest, depth: nat)
    requires Moded(fs, base, at, f, depth, |Scan([], f)|) && depth > 0
    ensures Moded(fs, base, at, f, depth - 1, 0)
  {
    var all, next := |Scan([], f)|, depth - 1;
    forall p: Path | p != []
      ensures ModedAt(fs, at, f, next, 0, p)
    {
      assert ModedAt(fs, at, f, depth, all, p);
      if Lookup(f, p).Some? {
        ScanLists([], f, p);
      }
    }
  }

  lemma ModesEnd(fs: Fs, base: Fs, at: Path, f: Forest)
    requires Moded(fs, base, at, f, 0, 0)
    ensures Holds(fs, at, f) && SameElsewhere(fs, base, at)
  {
    forall p: Path | p != []
      ensures at + p in fs <==> Lookup(f, p).Some?
      ensures Lookup(f, p).Some? ==> fs[at + p] == Lookup(f, p).value
    {
      assert ModedAt(fs, at, f, 0, 0, p);
    }
  }

  // ---------------------------------------------------------------------------
  // Sources and their names
  // ---------------------------------------------------------------------------

  /** A file, a database copy or a directory, with what its copy holds. */
  datatype Source =
    | FileSource(name: Path, mode: int, data: seq<int>)
    | DirSource(name: Path, mode: int, children: Forest)

  predicate Related(a: Path, b: Path) {
    a <= b || b <= a
  }

  /** Of two names neither is the other or lies below it. */
  ghost predicate Apart(names: set<Path>) {
    forall a, b :: a in names && b in names && a != b ==> !(a <= b)
  }

  predicate ProperName(name: Path) {
    name != [] && name[0] != MANIFEST[0]
  }

  function InsertByLength(p: Path, l: seq<Path>): (r: seq<Path>)
    ensures forall q :: q in r <==> q == p || q in l
  {
    if l == [] || |p| <= |l[0]| then [p] + l
    else
      assert l == [l[0]] + l[1..];
      [l[0]] + InsertByLength(p, l[1..])
  }

  function SortByLength(l: seq<Path>): (r: seq<Path>)
    ensures forall q :: q in r <==> q in l
  {
    if l == [] then []
    else
      assert l == [l[0]] + l[1..];
      InsertByLength(l[0], SortByLength(l[1..]))
  }

  predicate ByLength(l: seq<Path>) {
    forall i, j :: 0 <= i < j < |l| ==> |l[i]| <= |l[j]|
  }

  lemma {:induction false} InsertKeepsLength(p: Path, l: seq<Path>)
    requires ByLength(l)
    ensures ByLength(InsertByLength(p, l))
  {
    if l != [] && |p| > |l[0]| {
      InsertKeepsLength(p, l[1..]);
      var r := InsertByLength(p, l[1..]);
      forall j | 0 <= j < |r|
        ensures |l[0]| <= |r[j]|
      {
        assert r[j] in r;
      }
    }
  }

  lemma {:induction false} SortedByLength(l: seq<Path>)
    ensures ByLength(SortByLength(l))
  {
    if l != [] {
      SortedByLength(l[1..]);
      InsertKeepsLength(l[0], SortByLength(l[1..]));
    }
  }

  /** Main result: the pass over names sorted by length finds a clash exactly when some
      name lies below another one. */
  method NamesCollide(names: seq<Path>) returns (clash: bool)
    ensures clash <==> exists a, b :: a in names && b in names && a < b
  {
    var paths := SortByLength(names);
    SortedByLength(names);
    var i := 0;
    while i < |paths|
      invariant i <= |paths|
      invariant forall k, l :: 0 <= k < i && k < l < |paths| ==> !(paths[k] < paths[l])
    {
      var parent, j := paths[i], i + 1;
      while j < |paths|
        invariant i < j <= |paths|
        invariant forall l :: i < l < j ==> !(parent < paths[l])
      {
        var child := paths[j];
        if |child| > |parent| && child[..|parent|] == parent {
          assert parent < child && parent in paths && child in paths;
          return true;
        }
        j := j + 1;
      }
      i := i + 1;
    }
    clash := false;
    forall a, b | a in names && b in names
      ensures !(a < b)
    {
      assert a in paths && b in paths;
      var k :| 0 <= k < |paths| && paths[k] == a;
      var l :| 0 <= l < |paths| && paths[l] == b;
      assert l < k ==> |paths[l]| <= |paths[k]|;
    }
  }

  /** All checks on the names of a plan. */
  method ValidateNames(names: seq<Path>) returns (ok: bool)
    ensures ok <==> names != [] && (forall i :: 0 <= i < |names| ==> ProperName(names[i])) &&
                    (forall i, j :: 0 <= i < |names| && 0 <= j < |names| && i != j ==> !(names[i] <= names[j]))
  {
    var seen, i := {}, 0;
    while i < |names|
      invariant i <= |names| && (forall q :: q in seen <==> q in names[..i])
      invariant forall j, k :: 0 <= j < k < i ==> names[j] != names[k]
    {
      if names[i] in seen {
        var j :| 0 <= j < i && names[..i][j] == names[i];
        assert names[j] <= names[i];
        return false;
      }
      assert forall j :: 0 <= j < i ==> names[j] == names[..i][j];
      seen := seen + {names[i]};
      i := i + 1;
      assert names[..i] == names[..i - 1] + [names[i - 1]];
    }
    if names == [] {
      return false;
    }
    i := 0;
    while i < |names|
      invariant i <= |names| && forall j :: 0 <= j < i ==> ProperName(names[j])
    {
      if !ProperName(names[i]) {
        return false;
      }
      i := i + 1;
    }
    var clash := NamesCollide(names);
    ok := !clash;
    if clash {
      var a, b :| a in names && b in names && a < b;
      var j :| 0 <= j < |names| && names[j] == a;
      var k :| 0 <= k < |names| && names[k] == b;
    } else {
      forall j, k | 0 <= j < |names| && 0 <= k < |names| && j != k
        ensures !(names[j] <= names[k])
      {
        assert names[j] in names && names[k] in names;
        assert names[j] != names[k];
      }
    }
  }

  // ---------------------------------------------------------------------------
  // What a finished tree holds
  // ---------------------------------------------------------------------------

  /** The sources of a plan by name. */
  ghost predicate Named(plan: map<Path, Source>) {
    && (forall n :: n in plan ==> plan[n].name == n && ProperName(n) && GoodTree(plan[n]))
    && Apart(plan.Keys)
  }

  /** Modes are permission bits. */
  predicate ProperModes(f: Forest) {
    f.Child? ==> f.tree.mode >= 0 && ProperModes(f.rest) && (f.tree.DirTree? ==> ProperModes(f.tree.children))
  }

  predicate GoodTree(s: Source) {
    s.mode >= 0 && (s.DirSource? ==> ValidForest(s.children) && ProperModes(s.children))
  }

  /** The tree holds exactly this source under its name. */
  ghost predicate Present(fs: Fs, s: Source) {
    match s
    case FileSource(name, mode, data) =>
      name in fs && fs[name] == File(mode, data) && forall q: Path :: name < q ==> q !in fs
    case DirSource(name, mode, children) => name in fs && fs[name] == Dir(mode) && Holds(fs, name, children)
  }

  /** The directories above a source; their mode is not part of the backup. */
  ghost predicate Above(fs: Fs, name: Path, mode: int) {
    forall q: Path :: q != [] && q < name ==> q in fs && fs[q] == Dir(mode)
  }

  ghost predicate NothingElse(fs: Fs, names: set<Path>) {
    forall q :: q in fs ==> q != [] && exists n :: n in names && Related(q, n)
  }

  ghost predicate Built(fs: Fs, plan: map<Path, Source>, mode: int) {
    && (forall n :: n in plan ==> Present(fs, plan[n]) && Above(fs, n, mode))
    && NothingElse(fs, plan.Keys)
  }

  /** The two file systems differ at most above and below a name. */
  ghost predicate SameApartFrom(fs: Fs, base: Fs, name: Path) {
    forall q: Path :: !Related(q, name) ==> (q in fs <==> q in base) && (q in base ==> fs[q] == base[q])
  }

  lemma PrefixesCompare(a: Path, b: Path, t: Path)
    requires a <= t && b <= t
    ensures a <= b || b <= a
  {
    if |a| <= |b| {
      assert a == t[..|a|] == b[..|a|];
    } else {
      assert b == t[..|b|] == a[..|b|];
    }
  }

  lemma OthersUnrelated(a: Path, b: Path, t: Path)
    requires !Related(a, b) && a <= t
    ensures !Related(t, b)
  {
    if b <= t {
      PrefixesCompare(a, b, t);
    }
  }

  lemma PresentStays(fs: Fs, base: Fs, s: Source, name: Path)
    requires Present(base, s) && SameApartFrom(fs, base, name) && !Related(s.name, name)
    ensures Present(fs, s)
  {
    OthersUnrelated(s.name, name, s.name);
    if s.FileSource? {
      forall q: Path | s.name < q
        ensures q !in fs
      {
        OthersUnrelated(s.name, name, q);
      }
    } else {
      forall p: Path | p != []
        ensures !Related(s.name + p, name)
      {
        OthersUnrelated(s.name, name, s.name + p);
      }
    }
  }

  /** Nothing at or below a new name, and only fresh directories above it. */
  lemma NewNameIsFree(base: Fs, plan: map<Path, Source>, mode: int, name: Path, q: Path)
    requires Built(base, plan, mode) && name !in plan && Apart(plan.Keys + {name}) && q in base && Related(q, name)
    ensures q < name && base[q] == Dir(mode)
  {
    var n :| n in plan.Keys && Related(q, n);
    assert !(n <= name) && !(name <= n);
    if name <= q && n <= q {
      PrefixesCompare(n, name, q);
    }
  }

  lemma AboveStays(fs: Fs, base: Fs, n: Path, name: Path, mode: int)
    requires Above(base, n, mode) && SameApartFrom(fs, base, name) && Above(fs, name, mode) && !Related(n, name)
    ensures Above(fs, n, mode)
  {
    forall q: Path | q != [] && q < n
      ensures q in fs && fs[q] == Dir(mode)
    {
      if Related(q, name) {
        assert !(name <= q);
        assert q < name;
      }
    }
  }

  lemma NothingElseStays(fs: Fs, base: Fs, names: set<Path>, name: Path)
    requires NothingElse(base, names) && SameApartFrom(fs, base, name) && [] !in fs
    ensures NothingElse(fs, names + {name})
  {
    var next := names + {name};
    forall q | q in fs
      ensures q != [] && exists n :: n in next && Related(q, n)
    {
      if Related(q, name) {
        assert name in next;
      } else {
        var n :| n in names && Related(q, n);
        assert n in next;
      }
    }
  }

  /** Adding one source to a finished tree. */
  lemma AddKeepsBuilt(fs: Fs, base: Fs, plan: map<Path, Source>, s: Source, mode: int)
    requires Built(base, plan, mode) && s.name !in plan && Apart(plan.Keys + {s.name})
    requires forall n :: n in plan ==> plan[n].name == n
    requires SameApartFrom(fs, base, s.name) && Present(fs, s) && Above(fs, s.name, mode) && [] !in fs
    ensures Built(fs, plan[s.name := s], mode)
  {
    hide Present, Above, NothingElse, SameApartFrom;
    var next := plan[s.name := s];
    forall n | n in plan
      ensures Present(fs, plan[n]) && Above(fs, n, mode)
    {
      assert !Related(n, s.name);
      hide Related, Apart;
      PresentStays(fs, base, plan[n], s.name);
      AboveStays(fs, base, n, s.name, mode);
    }
    hide Related, Apart;
    NothingElseStays(fs, base, plan.Keys, s.name);
    assert next.Keys == plan.Keys + {s.name};
  }

  // ---------------------------------------------------------------------------
  // Installing one source
  // ---------------------------------------------------------------------------

  /** What the manifest says about a file or a directory. */
  datatype Record =
    | FileRecord(mode: int, size: nat, digest: Digest)
    | DirRecord(mode: int, entries: seq<Entry>)

  function RecordOf(s: Source): Record {
    match s
    case FileSource(_, mode, data) => FileRecord(mode, |data|, Digest(data))
    case DirSource(_, mode, children) => DirRecord(mode, Scan([], children))
  }

  /** `src` holds the source's contents at `from`. */
  ghost predicate Readable(src: Fs, from: Path, s: Source) {
    match s
    case FileSource(_, _, data) => from in src && src[from].File? && src[from].data == data
    case DirSource(_, _, children) => Holds(src, from, children)
  }

  /** The tree with its parents made is `base` and the directories above the name. */
  ghost predicate Parented(parents: Fs, base: Fs, name: Path, mode: int) {
    && (forall q: Path :: q in parents <==> q in base || (q != [] && q < name))
    && (forall q: Path :: q in parents ==> parents[q] == if q in base then base[q] else Dir(mode))
  }

  ghost predicate FreeIn(base: Fs, name: Path, mode: int) {
    [] !in base && forall q: Path :: q in base && Related(q, name) ==> q < name && base[q] == Dir(mode)
  }

  /** Creates the missing directories above a path. */
  method MakeParents(base: Fs, path: Path, mode: int) returns (ok: bool, fs: Fs)
    requires path != []
    ensures ok <==> forall q: Path :: q != [] && q < path && q in base ==> base[q].Dir?
    ensures ok ==> Parented(fs, base, path, mode)
  {
    fs := base;
    var k := 1;
    while k < |path|
      invariant 1 <= k <= |path|
      invariant forall q: Path :: q != [] && q < path && |q| < k && q in base ==> base[q].Dir?
      invariant forall q: Path :: q in fs <==> q in base || (q != [] && q < path && |q| < k)
      invariant forall q: Path :: q in fs ==> fs[q] == if q in base then base[q] else Dir(mode)
    {
      var up := path[..k];
      assert up < path && forall q: Path :: q < path && |q| == k ==> q == up;
      if up in fs {
        if fs[up].File? {
          return false, fs;
        }
      } else {
        fs := fs[up := Dir(mode)];
      }
      k := k + 1;
    }
    ok := true;
  }

  /** Puts one source into the tree, with the modes its record names. */
  method Install(base: Fs, name: Path, rec: Record, src: Fs, from: Path, mode: int, ghost plan: map<Path, Source>,
                 ghost s: Source)
    returns (ok: bool, fs: Fs)
    requires ProperName(name) && GoodTree(s) && name == s.name && rec == RecordOf(s) && Readable(src, from, s)
    requires Built(base, plan, mode) && name !in plan && Apart(plan.Keys + {name})
    requires forall n :: n in plan ==> plan[n].name == n
    ensures ok && Built(fs, plan[name := s], mode)
  {
    hide Holds, Scan, Built, Apart, Related, ValidForest, ProperModes, Parented, FreeIn, SameElsewhere, Placed;
    NewNameFacts(base, plan, mode, name);
    ParentsAreDirectories(base, name, mode);
    var made;
    made, fs := MakeParents(base, name, mode);
    if !made {
      return false, fs;
    }
    ghost var parents := fs;
    ok := true;
    if rec.FileRecord? {
      fs := fs[name := File(rec.mode, src[from].data)];
      FileIsBuilt(fs, parents, base, plan, s, mode);
    } else {
      fs := fs[name := Dir(PRIVATE)];
      ghost var rooted := fs;
      UpToName(parents, rooted, base, name, mode);
      var placed;
      placed, fs := PlaceEntries(fs, name, rec.entries, src, from, s.children);
      fs := ApplyModes(fs, rooted, name, rec.entries, s.children);
      ghost var moded := fs;
      RootedElsewhere(moded, rooted, name);
      fs := fs[name := Dir(rec.mode)];
      RootMode(fs, moded, name, s.children, rec.mode);
      DirIsBuilt(fs, rooted, parents, base, plan, s, mode);
    }
  }

  lemma ParentsAreDirectories(base: Fs, name: Path, mode: int)
    requires FreeIn(base, name, mode)
    ensures forall q: Path :: q != [] && q < name && q in base ==> base[q].Dir?
  {
  }

  lemma RootMode(fs: Fs, moded: Fs, name: Path, f: Forest, mode: int)
    requires Holds(moded, name, f) && fs == moded[name := Dir(mode)]
    ensures Holds(fs, name, f)
  {
    forall p: Path | p != []
      ensures name + p != name
    {
    }
  }

  lemma NewNameFacts(base: Fs, plan: map<Path, Source>, mode: int, name: Path)
    requires Built(base, plan, mode) && name != [] && name !in plan && Apart(plan.Keys + {name})
    ensures FreeIn(base, name, mode)
  {
    forall q: Path | q in base && Related(q, name)
      ensures q < name && base[q] == Dir(mode)
    {
      NewNameIsFree(base, plan, mode, name, q);
    }
  }

  lemma InstalledApart(fs: Fs, parents: Fs, base: Fs, name: Path, mode: int)
    requires name != [] && FreeIn(base, name, mode) && Parented(parents, base, name, mode)
    requires forall q: Path :: !(name <= q) ==> (q in fs <==> q in parents) && (q in parents ==> fs[q] == parents[q])
    ensures SameApartFrom(fs, base, name) && Above(fs, name, mode) && [] !in fs
  {
  }

  // ---------------------------------------------------------------------------
  // Creating a snapshot
  // ---------------------------------------------------------------------------

  datatype Manifest = Manifest(files: map<Path, Record>, dirs: map<Path, Record>)

  /** The manifest records exactly the sources of the plan. */
  ghost predicate Describes(m: Manifest, plan: map<Path, Source>) {
    && (forall n :: n in m.files <==> n in plan && plan[n].FileSource?)
    && (forall n :: n in m.dirs <==> n in plan && plan[n].DirSource?)
    && (forall n :: n in m.files ==> m.files[n] == RecordOf(plan[n]))
    && (forall n :: n in m.dirs ==> m.dirs[n] == RecordOf(plan[n]))
  }

  function PlanOf(sources: seq<Source>): map<Path, Source> {
    if sources == [] then map[] else PlanOf(sources[..|sources| - 1])[sources[|sources| - 1].name := sources[|sources| - 1]]
  }

  /** The names that the checks let through. */
  ghost predicate NamesAccepted(sources: seq<Source>) {
    && sources != []
    && (forall i :: 0 <= i < |sources| ==> ProperName(sources[i].name))
    && (forall i, j :: 0 <= i < |sources| && 0 <= j < |sources| && i != j ==> !(sources[i].name <= sources[j].name))
  }

  lemma {:induction false} PlanNames(sources: seq<Source>)
    ensures forall n :: n in PlanOf(sources) ==> PlanOf(sources)[n] in sources && PlanOf(sources)[n].name == n
    ensures forall s :: s in sources ==> s.name in PlanOf(sources)
  {
    if sources != [] {
      var rest := sources[..|sources| - 1];
      PlanNames(rest);
      assert sources == rest + [sources[|sources| - 1]];
    }
  }

  lemma TwoSources(sources: seq<Source>, a: Source, b: Source)
    requires NamesAccepted(sources) && a in sources && b in sources && a.name != b.name
    ensures !(a.name <= b.name)
  {
    var i :| 0 <= i < |sources| && sources[i] == a;
    var j :| 0 <= j < |sources| && sources[j] == b;
  }

  lemma PlanIsNamed(sources: seq<Source>)
    requires NamesAccepted(sources) && forall s :: s in sources ==> GoodTree(s)
    ensures Named(PlanOf(sources))
  {
    var plan := PlanOf(sources);
    PlanNames(sources);
    hide PlanOf;
    forall n | n in plan
      ensures ProperName(n)
    {
      var i :| 0 <= i < |sources| && sources[i] == plan[n];
    }
    forall a, b | a in plan && b in plan && a != b
      ensures !(a <= b)
    {
      TwoSources(sources, plan[a], plan[b]);
    }
  }

  ghost predicate OnDisk(disk: Fs, from: Path, s: Source) {
    from in disk && (if s.FileSource? then disk[from] == File(s.mode, s.data) else disk[from] == Dir(s.mode) && Holds(disk, from, s.children))
  }

  lemma {:induction false} EmptyIsBuilt(mode: int)
    ensures Built(map[], map[], mode) && Describes(Manifest(map[], map[]), map[])
  {
  }

  /** Main result: a plan is refused exactly when its names are not acceptable.  Otherwise
      the published tree holds each source exactly, with directories made for the names
      and nothing else, and the manifest describes it. */
  method CreateSnapshot(sources: seq<Source>, disk: Fs, from: seq<Path>, mode: int)
    returns (ok: bool, fs: Fs, m: Manifest)
    requires |from| == |sources| && forall i :: 0 <= i < |sources| ==> OnDisk(disk, from[i], sources[i]) && GoodTree(sources[i])
    ensures ok <==> NamesAccepted(sources)
    ensures ok ==> Named(PlanOf(sources)) && Built(fs, PlanOf(sources), mode) && Describes(m, PlanOf(sources))
  {
    hide Built, Describes, Holds, Named, PlanOf, Apart;
    var names := seq(|sources|, i requires 0 <= i < |sources| => sources[i].name);
    fs, m := map[], Manifest(map[], map[]);
    ok := ValidateNames(names);
    assert ok <==> NamesAccepted(sources) by { NamesOfSources(sources, names); }
    if !ok {
      return;
    }
    EmptyIsBuilt(mode);
    PlanIsNamed(sources);
    PlanBegins(sources);
    var i := 0;
    while i < |sources|
      invariant i <= |sources| && Built(fs, PlanOf(sources[..i]), mode) && Describes(m, PlanOf(sources[..i]))
    {
      ghost var plan := PlanOf(sources[..i]);
      PlanGrows(sources, i);
      NextIsNew(sources, i);
      var s, copied := sources[i], false;
      copied, fs := Install(fs, s.name, RecordOf(s), disk, from[i], mode, plan, s);
      DescribesOneMore(m, plan, s);
      m := if s.FileSource? then m.(files := m.files[s.name := RecordOf(s)]) else m.(dirs := m.dirs[s.name := RecordOf(s)]);
      i := i + 1;
    }
    assert sources[..i] == sources;
  }

  lemma PlanBegins(sources: seq<Source>)
    ensures PlanOf(sources[..0]) == map[]
  {
  }

  lemma PlanGrows(sources: seq<Source>, i: nat)
    requires i < |sources|
    ensures PlanOf(sources[..i + 1]) == PlanOf(sources[..i])[sources[i].name := sources[i]]
  {
    assert sources[..i + 1][..i] == sources[..i];
  }

  lemma NamesOfSources(sources: seq<Source>, names: seq<Path>)
    requires |names| == |sources| && forall i :: 0 <= i < |sources| ==> names[i] == sources[i].name
    ensures NamesAccepted(sources) <==>
              names != [] && (forall i :: 0 <= i < |names| ==> ProperName(names[i])) &&
              (forall i, j :: 0 <= i < |names| && 0 <= j < |names| && i != j ==> !(names[i] <= names[j]))
  {
  }

  lemma EarlierIsApart(sources: seq<Source>, i: nat, s: Source)
    requires NamesAccepted(sources) && i < |sources| && s in sources[..i]
    ensures !(s.name <= sources[i].name) && !(sources[i].name <= s.name) && s in sources
  {
    var j :| 0 <= j < i && sources[..i][j] == s;
    assert sources[j] == s;
  }

  lemma NextIsNew(sources: seq<Source>, i: nat)
    requires NamesAccepted(sources) && i < |sources|
    ensures var plan := PlanOf(sources[..i]);
            && sources[i].name !in plan && Apart(plan.Keys + {sources[i].name})
            && forall n :: n in plan ==> plan[n].name == n
  {
    var plan, name := PlanOf(sources[..i]), sources[i].name;
    PlanNames(sources[..i]);
    hide PlanOf, NamesAccepted;
    forall n | n in plan
      ensures plan[n] in sources && !(n <= name) && !(name <= n)
    {
      EarlierIsApart(sources, i, plan[n]);
    }
    forall a, b | a in plan && b in plan && a != b
      ensures !(a <= b)
    {
      TwoSources(sources, plan[a], plan[b]);
    }
  }

  lemma DescribesOneMore(m: Manifest, plan: map<Path, Source>, s: Source)
    requires Describes(m, plan) && s.name !in plan
    ensures Describes(if s.FileSource? then m.(files := m.files[s.name := RecordOf(s)])
                      else m.(dirs := m.dirs[s.name := RecordOf(s)]), plan[s.name := s])
  {
  }

  // ---------------------------------------------------------------------------
  // Verifying a tree
  // ---------------------------------------------------------------------------

  /** Everything a manifest can tell: the sources, and that the rest are directories. */
  ghost predicate Intact(fs: Fs, plan: map<Path, Source>) {
    && (forall n :: n in plan ==> Present(fs, plan[n]) && AboveAny(fs, n))
    && NothingElse(fs, plan.Keys)
  }

  ghost predicate AboveAny(fs: Fs, name: Path) {
    forall q: Path :: q != [] && q < name ==> q in fs && fs[q].Dir?
  }

  lemma BuiltIsIntact(fs: Fs, plan: map<Path, Source>, mode: int)
    requires Built(fs, plan, mode)
    ensures Intact(fs, plan)
  {
  }

  /** What is expected at a path: a directory or not, and its mode if it is known. */
  type Brief = (bool, Option<int>)

  function BriefOf(n: Node): Brief {
    (n.Dir?, if n.mode == -1 then None else Some(n.mode))
  }

  ghost predicate Briefs(expected: map<Path, Brief>, model: Fs) {
    expected.Keys == model.Keys && forall q :: q in expected ==> expected[q] == BriefOf(model[q])
  }

  /** Directories above a path, unless something is expected there already. */
  method AddAncestors(start: map<Path, Brief>, path: Path, ghost base: Fs) returns (expected: map<Path, Brief>, ghost model: Fs)
    requires path != [] && Briefs(start, base)
    ensures Briefs(expected, model) && Parented(model, base, path, -1)
  {
    expected, model := start, base;
    var k := 1;
    while k < |path|
      invariant 1 <= k <= |path| && Briefs(expected, model)
      invariant forall q: Path :: q in model <==> q in base || (q != [] && q < path && |q| < k)
      invariant forall q: Path :: q in model ==> model[q] == if q in base then base[q] else Dir(-1)
    {
      var up := path[..k];
      assert up < path && forall q: Path :: q < path && |q| == k ==> q == up;
      if up !in expected {
        expected := expected[up := (true, None)];
        model := model[up := Dir(-1)];
      }
      k := k + 1;
    }
  }

  lemma {:induction false} AncestorsFirst(f: Forest, p: Path, k: nat)
    requires 0 < k < |p| && Lookup(f, p).Some?
    ensures Lookup(f, p[..k]).Some? && Pos(f, p[..k]) < Pos(f, p)
    decreases |p|
  {
    ParentsFirst(f, p);
    var up := p[..|p| - 1];
    if k < |p| - 1 {
      AncestorsFirst(f, up, k);
      assert up[..k] == p[..k];
    }
  }

  /** Whatever is above a listed entry is expected already. */
  lemma AncestorsExpected(model: Fs, rooted: Fs, at: Path, f: Forest, i: nat, p: Path, q: Path)
    requires Placed(model, rooted, at, f, i, true) && p != [] && Lookup(f, p).Some? && Pos(f, p) == i
    requires forall u: Path :: u != [] && u <= at ==> u in rooted
    requires q != [] && q < at + p
    ensures q in model
  {
    if |q| <= |at| {
      assert q == (at + p)[..|q|] == at[..|q|];
      assert !(at < q);
    } else {
      var k := |q| - |at|;
      assert q == (at + p)[..|at| + k] == at + p[..k];
      AncestorsFirst(f, p, k);
    }
  }

  /** The expected tree below one directory source. */
  method ExpectEntries(start: map<Path, Brief>, at: Path, entries: seq<Entry>, ghost rooted: Fs, ghost f: Forest)
    returns (expected: map<Path, Brief>, ghost model: Fs)
    requires ValidForest(f) && ProperModes(f) && entries == Scan([], f) && Briefs(start, rooted) && at != []
    requires (forall u: Path :: u != [] && u <= at ==> u in rooted) && forall q: Path :: at < q ==> q !in rooted
    ensures Briefs(expected, model) && Holds(model, at, f) && SameElsewhere(model, rooted, at)
  {
    expected, model := start, rooted;
    NothingPlaced(rooted, at, f, true);
    var i := 0;
    while i < |entries|
      invariant i <= |entries| && Briefs(expected, model) && Placed(model, rooted, at, f, i, true)
    {
      var e := entries[i];
      EntryIsPath(f, i);
      ghost var before := model;
      expected, model := AddAncestors(expected, at + e.path, model);
      forall q: Path | q != [] && q < at + e.path
        ensures q in before
      {
        AncestorsExpected(before, rooted, at, f, i, e.path, q);
      }
      assert model == before;
      LookupMode(f, e.path);
      PlaceOne(model, rooted, at, f, i, e.path, true);
      ghost var n := Lookup(f, e.path).value;
      expected := expected[at + e.path := (e.isDir, Some(e.mode))];
      model := model[at + e.path := n];
      i := i + 1;
    }
    AllPlaced(model, rooted, at, f);
  }

  lemma {:induction false} LookupMode(f: Forest, p: Path)
    requires ProperModes(f) && Lookup(f, p).Some?
    ensures Lookup(f, p).value.mode >= 0
    decreases f
  {
    if f.name != p[0] {
      LookupMode(f.rest, p);
    } else if |p| > 1 {
      LookupMode(f.tree.children, p[1..]);
    }
  }

  lemma AllPlaced(model: Fs, rooted: Fs, at: Path, f: Forest)
    requires Placed(model, rooted, at, f, |Scan([], f)|, true)
    ensures Holds(model, at, f) && SameElsewhere(model, rooted, at)
  {
    forall p: Path | p != [] && Lookup(f, p).Some?
      ensures Pos(f, p) < |Scan([], f)|
    {
      ScanLists([], f, p);
    }
  }

  /** A name stays free while its parents are made. */
  lemma FreshAfterParents(parents: Fs, base: Fs, name: Path, mode: int)
    requires FreeIn(base, name, mode) && Parented(parents, base, name, mode)
    ensures name !in parents && forall q: Path :: name < q ==> q !in parents
  {
  }

  /** A file in place. */
  lemma FileIsBuilt(fs: Fs, parents: Fs, base: Fs, done: map<Path, Source>, s: Source, mode: int)
    requires FreeIn(base, s.name, mode) && Parented(parents, base, s.name, mode) && s.FileSource? && s.name != []
    requires Built(base, done, mode) && s.name !in done && Apart(done.Keys + {s.name})
    requires (forall n :: n in done ==> done[n].name == n) && fs == parents[s.name := File(s.mode, s.data)]
    ensures Built(fs, done[s.name := s], mode)
  {
    hide Built, Apart;
    FreshAfterParents(parents, base, s.name, mode);
    InstalledApart(fs, parents, base, s.name, mode);
    AddKeepsBuilt(fs, base, done, s, mode);
  }

  /** A directory in place, with everything below it. */
  lemma DirIsBuilt(fs: Fs, rooted: Fs, parents: Fs, base: Fs, done: map<Path, Source>, s: Source, mode: int)
    requires FreeIn(base, s.name, mode) && Parented(parents, base, s.name, mode) && s.DirSource? && s.name != []
    requires Built(base, done, mode) && s.name !in done && Apart(done.Keys + {s.name})
    requires forall n :: n in done ==> done[n].name == n
    requires s.name in rooted && rooted == parents[s.name := rooted[s.name]]
    requires Holds(fs, s.name, s.children) && s.name in fs && fs[s.name] == Dir(s.mode)
    requires forall q: Path :: !(s.name <= q) ==> (q in fs <==> q in rooted) && (q in rooted ==> fs[q] == rooted[q])
    ensures Built(fs, done[s.name := s], mode)
  {
    hide Built, Apart, Holds;
    InstalledApart(fs, parents, base, s.name, mode);
    AddKeepsBuilt(fs, base, done, s, mode);
  }

  lemma UpToName(parents: Fs, rooted: Fs, base: Fs, name: Path, mode: int)
    requires FreeIn(base, name, mode) && Parented(parents, base, name, mode) && parents.Keys + {name} == rooted.Keys
    ensures forall u: Path :: u != [] && u <= name ==> u in rooted
    ensures forall q: Path :: name < q ==> q !in rooted
  {
    forall u: Path | u != [] && u <= name
      ensures u in rooted
    {
      assert u < name || u == name;
    }
    FreshAfterParents(parents, base, name, mode);
  }

  lemma RootedElsewhere(model: Fs, rooted: Fs, name: Path)
    requires SameElsewhere(model, rooted, name) && name in rooted
    ensures name in model && model[name] == rooted[name]
    ensures forall q: Path :: !(name <= q) ==> (q in model <==> q in rooted) && (q in rooted ==> model[q] == rooted[q])
  {
    assert !(name < name);
  }

  /** The expected entries of one source. */
  method ExpectSource(start: map<Path, Brief>, name: Path, rec: Record, ghost base: Fs, ghost done: map<Path, Source>, ghost s: Source)
    returns (expected: map<Path, Brief>, ghost model: Fs)
    requires ProperName(name) && GoodTree(s) && name == s.name && rec == RecordOf(s)
    requires Briefs(start, base) && Built(base, done, -1) && name !in done && Apart(done.Keys + {name})
    requires forall n :: n in done ==> done[n].name == n
    ensures Briefs(expected, model) && Built(model, done[name := s], -1)
  {
    hide Holds, Scan, Built, Apart, Related, ValidForest, ProperModes, Parented, FreeIn, SameElsewhere;
    NewNameFacts(base, done, -1, name);
    expected, model := AddAncestors(start, name, base);
    ghost var parents := model;
    expected := expected[name := (rec.DirRecord?, Some(rec.mode))];
    if rec.FileRecord? {
      model := model[name := File(rec.mode, rec.digest.content)];
      FileIsBuilt(model, parents, base, done, s, -1);
    } else {
      model := model[name := Dir(rec.mode)];
      ghost var rooted := model;
      UpToName(parents, rooted, base, name, -1);
      expected, model := ExpectEntries(expected, name, rec.entries, rooted, s.children);
      RootedElsewhere(model, rooted, name);
      DirIsBuilt(model, rooted, parents, base, done, s, -1);
    }
  }

  // ---------------------------------------------------------------------------
  // The two passes over the manifest
  // ---------------------------------------------------------------------------

  /** A part of the plan. */
  ghost predicate Part(plan: map<Path, Source>, done: map<Path, Source>) {
    forall k :: k in done ==> k in plan && done[k] == plan[k]
  }

  /** Each record is that of a source. */
  ghost predicate Recorded(records: map<Path, Record>, plan: map<Path, Source>) {
    forall n :: n in records ==> n in plan && records[n] == RecordOf(plan[n])
  }

  lemma ApartPart(names: set<Path>, some: set<Path>)
    requires Apart(names) && some <= names
    ensures Apart(some)
  {
  }

  /** What the next source of a pass brings. */
  lemma NextSource(plan: map<Path, Source>, done: map<Path, Source>, n: Path)
    requires Named(plan) && Part(plan, done) && n in plan
    ensures Apart(done.Keys + {n}) && ProperName(n) && GoodTree(plan[n]) && plan[n].name == n
    ensures forall k :: k in done ==> done[k].name == k
    ensures Part(plan, done[n := plan[n]])
  {
    ApartPart(plan.Keys, done.Keys + {n});
    hide Apart, GoodTree;
  }

  lemma DescribedParts(m: Manifest, plan: map<Path, Source>)
    requires Describes(m, plan)
    ensures m.files.Keys !! m.dirs.Keys && m.files.Keys + m.dirs.Keys == plan.Keys
    ensures Recorded(m.files, plan) && Recorded(m.dirs, plan)
  {
    hide RecordOf;
  }

  lemma WholePart(plan: map<Path, Source>, done: map<Path, Source>)
    requires Part(plan, done) && done.Keys == plan.Keys
    ensures done == plan
  {
  }

  /** One pass over the records of a manifest. */
  method ExpectPass(records: map<Path, Record>, start: map<Path, Brief>, ghost base: Fs, ghost plan: map<Path, Source>,
                    ghost before: map<Path, Source>)
    returns (expected: map<Path, Brief>, ghost model: Fs, ghost done: map<Path, Source>)
    requires Named(plan) && Part(plan, before) && Recorded(records, plan) && records.Keys !! before.Keys
    requires Briefs(start, base) && Built(base, before, -1)
    ensures Part(plan, done) && done.Keys == before.Keys + records.Keys
    ensures Briefs(expected, model) && Built(model, done, -1)
  {
    hide Built, Named, Apart, Briefs, GoodTree, RecordOf, ProperName, Part;
    expected, model, done := start, base, before;
    var rest := records.Keys;
    while rest != {}
      invariant rest <= records.Keys && done.Keys !! rest && done.Keys + rest == before.Keys + records.Keys && Part(plan, done)
      invariant Briefs(expected, model) && Built(model, done, -1)
      decreases rest
    {
      var n :| n in rest;
      assert n in records && n !in done;
      NextSource(plan, done, n);
      expected, model := ExpectSource(expected, n, records[n], model, done, plan[n]);
      done, rest := done[n := plan[n]], rest - {n};
    }
  }

  lemma NothingExpected(plan: map<Path, Source>)
    ensures Part(plan, map[]) && Briefs(map[], map[]) && Built(map[], map[], -1)
  {
    EmptyIsBuilt(-1);
  }

  /** The exact paths, kinds and modes that the manifest describes. */
  method ExpectedTree(m: Manifest, ghost plan: map<Path, Source>) returns (expected: map<Path, Brief>, ghost model: Fs)
    requires Named(plan) && Describes(m, plan)
    ensures Briefs(expected, model) && Built(model, plan, -1)
  {
    hide Built, Named, Describes, Recorded, Part, Briefs, Apart, BriefOf;
    DescribedParts(m, plan);
    NothingExpected(plan);
    ghost var done: map<Path, Source> := map[];
    expected, model := map[], map[];
    assert done.Keys == {};
    expected, model, done := ExpectPass(m.files, expected, model, plan, done);
    expected, model, done := ExpectPass(m.dirs, expected, model, plan, done);
    WholePart(plan, done);
  }

  method RestorePass(records: map<Path, Record>, start: Fs, snapshot: Fs, mode: int, ghost plan: map<Path, Source>,
                     ghost before: map<Path, Source>)
    returns (fs: Fs, ghost done: map<Path, Source>)
    requires Named(plan) && Part(plan, before) && Recorded(records, plan) && records.Keys !! before.Keys
    requires Built(start, before, mode) && forall n :: n in plan ==> Readable(snapshot, n, plan[n])
    ensures Part(plan, done) && done.Keys == before.Keys + records.Keys && Built(fs, done, mode)
  {
    hide Built, Named, Apart, GoodTree, RecordOf, ProperName, Part, Readable;
    fs, done := start, before;
    var rest := records.Keys;
    while rest != {}
      invariant rest <= records.Keys && done.Keys !! rest && done.Keys + rest == before.Keys + records.Keys && Part(plan, done)
      invariant Built(fs, done, mode)
      decreases rest
    {
      var n :| n in rest;
      assert n in records && n !in done;
      NextSource(plan, done, n);
      var placed;
      placed, fs := Install(fs, n, records[n], snapshot, n, mode, done, plan[n]);
      done, rest := done[n := plan[n]], rest - {n};
    }
  }

  /** Restores every source from a snapshot, with or without the manifest file beside the
      sources, into an empty directory. */
  method RestoreSources(m: Manifest, snapshot: Fs, mode: int, ghost plan: map<Path, Source>) returns (fs: Fs)
    requires Named(plan) && Describes(m, plan) && Intact(snapshot - {MANIFEST}, plan)
    ensures Built(fs, plan, mode)
  {
    hide Built, Named, Intact, Readable, Describes, Recorded, Part, Briefs, Apart;
    DescribedParts(m, plan);
    EmptyIsBuilt(mode);
    NothingExpected(plan);
    IntactIsReadable(snapshot, plan);
    ghost var done: map<Path, Source> := map[];
    fs := map[];
    assert done.Keys == {};
    fs, done := RestorePass(m.files, fs, snapshot, mode, plan, done);
    fs, done := RestorePass(m.dirs, fs, snapshot, mode, plan, done);
    WholePart(plan, done);
  }

  lemma IntactIsReadable(snapshot: Fs, plan: map<Path, Source>)
    requires Named(plan) && Intact(snapshot - {MANIFEST}, plan)
    ensures forall n :: n in plan ==> Readable(snapshot, n, plan[n])
  {
    hide Apart, GoodTree, NothingElse;
    forall n | n in plan
      ensures Readable(snapshot, n, plan[n])
    {
      assert plan[n].name == n && ProperName(n) && Present(snapshot - {MANIFEST}, plan[n]);
      if plan[n].DirSource? {
        ManifestElsewhere(snapshot, n, plan[n].children);
      }
    }
  }

  lemma ManifestElsewhere(snapshot: Fs, n: Path, children: Forest)
    requires ProperName(n) && Holds(snapshot - {MANIFEST}, n, children)
    ensures Holds(snapshot, n, children)
  {
    forall p: Path | p != []
      ensures n + p in snapshot <==> n + p in snapshot - {MANIFEST}
      ensures n + p in snapshot ==> n + p in snapshot - {MANIFEST} && snapshot[n + p] == (snapshot - {MANIFEST})[n + p]
    {
      assert (n + p)[0] != MANIFEST[0];
    }
  }

  /** A node agrees with the expected one; the mode -1 stands for an unknown mode. */
  predicate Agrees(n: Node, e: Node) {
    n.Dir? == e.Dir? && (e.mode == -1 || n.mode == e.mode) && (n.File? ==> n.data == e.data)
  }

  ghost predicate Matches(fs: Fs, model: Fs) {
    fs.Keys == model.Keys && forall q :: q in fs ==> Agrees(fs[q], model[q])
  }

  lemma PresentMatches(fs: Fs, model: Fs, s: Source)
    requires Present(model, s) && GoodTree(s)
    requires forall q: Path :: s.name <= q ==> (q in fs <==> q in model) && (q in fs ==> Agrees(fs[q], model[q]))
    ensures Present(fs, s)
  {
    if s.DirSource? {
      forall p: Path | p != []
        ensures s.name + p in fs <==> Lookup(s.children, p).Some?
        ensures Lookup(s.children, p).Some? ==> fs[s.name + p] == Lookup(s.children, p).value
      {
        if Lookup(s.children, p).Some? {
          LookupMode(s.children, p);
        }
      }
    }
  }

  lemma PresentAgrees(fs: Fs, model: Fs, s: Source, q: Path)
    requires Present(model, s) && Present(fs, s) && s.name <= q
    ensures q in fs <==> q in model
    ensures q in fs ==> fs[q] == model[q]
  {
    if s.name != q {
      BelowIsJoin(s.name, q);
    }
  }

  /** A tree agrees with the expected one exactly when it is intact. */
  lemma MatchesIffIntact(fs: Fs, model: Fs, plan: map<Path, Source>)
    requires Named(plan) && Built(model, plan, -1)
    ensures Matches(fs, model) <==> Intact(fs, plan)
  {
    if Matches(fs, model) {
      MatchesIsIntact(fs, model, plan);
    }
    if Intact(fs, plan) {
      IntactMatches(fs, model, plan);
    }
  }

  lemma SameKeysNothingElse(fs: Fs, model: Fs, names: set<Path>)
    requires NothingElse(model, names) && fs.Keys == model.Keys
    ensures NothingElse(fs, names)
  {
    forall q | q in fs
      ensures q != [] && exists n :: n in names && Related(q, n)
    {
      assert q in model;
    }
  }

  lemma SourceIsIntact(fs: Fs, model: Fs, s: Source)
    requires Present(model, s) && Above(model, s.name, -1) && GoodTree(s) && Matches(fs, model)
    ensures Present(fs, s) && AboveAny(fs, s.name)
  {
    hide Holds;
    PresentMatches(fs, model, s);
  }

  lemma MatchesIsIntact(fs: Fs, model: Fs, plan: map<Path, Source>)
    requires Named(plan) && Built(model, plan, -1) && Matches(fs, model)
    ensures Intact(fs, plan)
  {
    forall n | n in plan
      ensures Present(fs, plan[n]) && AboveAny(fs, n)
    {
      assert plan[n].name == n && GoodTree(plan[n]);
      assert Present(model, plan[n]) && Above(model, n, -1);
      hide Present, Above, AboveAny, Matches, GoodTree, Named, Built;
      SourceIsIntact(fs, model, plan[n]);
    }
    hide Present, Above, AboveAny, NothingElse, Named;
    SameKeysNothingElse(fs, model, plan.Keys);
  }

  lemma IntactMatches(fs: Fs, model: Fs, plan: map<Path, Source>)
    requires Named(plan) && Built(model, plan, -1) && Intact(fs, plan)
    ensures Matches(fs, model)
  {
    hide Present;
    forall q | q in fs
      ensures q in model && Agrees(fs[q], model[q])
    {
      var n :| n in plan.Keys && Related(q, n);
      CompareAt(fs, model, plan, n, q);
    }
    forall q | q in model
      ensures q in fs
    {
      var n :| n in plan.Keys && Related(q, n);
      CompareAt(fs, model, plan, n, q);
    }
  }

  lemma CompareAt(fs: Fs, model: Fs, plan: map<Path, Source>, n: Path, q: Path)
    requires Named(plan) && Built(model, plan, -1) && Intact(fs, plan) && n in plan && Related(q, n) && q != []
    ensures q in fs <==> q in model
    ensures q in fs ==> Agrees(fs[q], model[q])
  {
    assert Present(fs, plan[n]) && Present(model, plan[n]) && AboveAny(fs, n) && Above(model, n, -1);
    hide Built, Intact, Present;
    if n <= q {
      PresentAgrees(fs, model, plan[n], q);
    } else {
      assert q < n;
    }
  }

  // ---------------------------------------------------------------------------
  // Verification
  // ---------------------------------------------------------------------------

  /** The files at and below a name have the content they should have. */
  ghost predicate DataOk(fs: Fs, model: Fs, n: Path) {
    forall q: Path :: n <= q && q in model && model[q].File? && q in fs && fs[q].File? ==> fs[q].data == model[q].data
  }

  /** Size first, then the digest. */
  method FileIsSound(n: Node, size: nat, digest: Digest) returns (ok: bool)
    requires n.File? && size == |digest.content|
    ensures ok <==> n.data == digest.content
  {
    if |n.data| != size {
      return false;
    }
    ok := Digest(n.data) == digest;
  }

  /** Checks the contents of one directory source, file by file. */
  method EntriesAreSound(fs: Fs, at: Path, entries: seq<Entry>, ghost model: Fs, ghost f: Forest) returns (ok: bool)
    requires ValidForest(f) && entries == Scan([], f) && Holds(model, at, f) && at in model && model[at].Dir?
    requires fs.Keys == model.Keys && forall q :: q in fs ==> fs[q].Dir? == model[q].Dir?
    ensures ok <==> DataOk(fs, model, at)
  {
    var i := 0;
    while i < |entries|
      invariant i <= |entries|
      invariant forall p: Path :: p != [] && Lookup(f, p).Some? && Lookup(f, p).value.File? && Pos(f, p) < i ==>
                  at + p in fs && fs[at + p].File? && fs[at + p].data == Lookup(f, p).value.data
    {
      var e := entries[i];
      EntryIsPath(f, i);
      assert at + e.path in model && model[at + e.path] == Lookup(f, e.path).value;
      if !e.isDir {
        var sound := FileIsSound(fs[at + e.path], e.size, e.digest.value);
        if !sound {
          assert at <= at + e.path;
          return false;
        }
      }
      forall p: Path | p != [] && Lookup(f, p).Some? && Pos(f, p) == i
        ensures p == e.path
      {
        SamePlaceSamePath(f, p, e.path);
      }
      i := i + 1;
    }
    ok := true;
    forall q: Path | at <= q && q in model && model[q].File? && q in fs && fs[q].File?
      ensures fs[q].data == model[q].data
    {
      assert q != at && at < q;
      BelowIsJoin(at, q);
      assert Lookup(f, q[|at|..]).Some?;
      ScanLists([], f, q[|at|..]);
    }
  }

  /** Main result: for a manifest made by the program, verification accepts a tree exactly
      when it holds every source as recorded, directories above them, and nothing else. */
  method VerifyTree(m: Manifest, fs: Fs, ghost plan: map<Path, Source>) returns (ok: bool)
    requires Named(plan) && Describes(m, plan)
    ensures ok <==> Intact(fs, plan)
  {
    ghost var model: Fs;
    var expected;
    expected, model := ExpectedTree(m, plan);
    MatchesIffIntact(fs, model, plan);
    hide Intact;
    if fs.Keys != expected.Keys {
      return false;
    }
    var rest := expected.Keys;
    while rest != {}
      invariant rest <= expected.Keys
      invariant forall q :: q in fs && q !in rest ==> fs[q].Dir? == model[q].Dir? && (model[q].mode == -1 || fs[q].mode == model[q].mode)
      decreases rest
    {
      var q :| q in rest;
      var (isDir, mode) := expected[q];
      if fs[q].Dir? != isDir || (mode != None && fs[q].mode != mode.value) {
        assert !Agrees(fs[q], model[q]);
        return false;
      }
      rest := rest - {q};
    }
    ok := ContentsAreSound(m, fs, model, plan);
    if ok {
      forall q | q in fs
        ensures Agrees(fs[q], model[q])
      {
        if model[q].File? {
          FileHasRecord(model, plan, q);
        }
      }
    }
  }

  /** Every expected file is at or below a source. */
  lemma FileHasRecord(model: Fs, plan: map<Path, Source>, q: Path)
    requires Built(model, plan, -1) && q in model && model[q].File?
    ensures exists n :: n in plan && n <= q
  {
    var n :| n in plan.Keys && Related(q, n);
    assert Above(model, n, -1);
    assert q != [] && (n <= q || q < n);
  }

  lemma FileRecordFacts(m: Manifest, model: Fs, plan: map<Path, Source>, n: Path)
    requires Named(plan) && Describes(m, plan) && Built(model, plan, -1) && n in m.files
    ensures var s := plan[n];
            && s.FileSource? && s.name == n && Present(model, s) && m.files[n] == FileRecord(s.mode, |s.data|, Digest(s.data))
            && n in model && model[n] == File(s.mode, s.data)
  {
    hide Apart, GoodTree, NothingElse, Above;
    assert Present(model, plan[n]);
  }

  lemma DirRecordFacts(m: Manifest, model: Fs, plan: map<Path, Source>, n: Path)
    requires Named(plan) && Describes(m, plan) && Built(model, plan, -1) && n in m.dirs
    ensures var s := plan[n];
            && s.DirSource? && ValidForest(s.children) && m.dirs[n] == DirRecord(s.mode, Scan([], s.children))
            && n in model && model[n].Dir? && Holds(model, n, s.children)
  {
    hide Apart, NothingElse, Above, Holds, Scan;
    assert plan[n].name == n && Present(model, plan[n]);
  }

  /** The pass over the file records. */
  method ContentsAreSound(m: Manifest, fs: Fs, ghost model: Fs, ghost plan: map<Path, Source>) returns (ok: bool)
    requires Named(plan) && Describes(m, plan) && Built(model, plan, -1)
    requires fs.Keys == model.Keys && forall q :: q in fs ==> fs[q].Dir? == model[q].Dir?
    ensures ok ==> forall n :: n in plan ==> DataOk(fs, model, n)
    ensures !ok ==> !Matches(fs, model)
  {
    hide Named, Describes, Built, Present, DataOk, Matches, Holds, Scan;
    DescribedParts(m, plan);
    var rest := m.files.Keys;
    while rest != {}
      invariant rest <= m.files.Keys && forall n :: n in m.files && n !in rest ==> DataOk(fs, model, n)
      decreases rest
    {
      var n :| n in rest;
      FileRecordFacts(m, model, plan, n);
      var rec := m.files[n];
      ok := FileIsSound(fs[n], rec.size, rec.digest);
      if !ok {
        DiffersAt(fs, model, n);
        return;
      }
      OnlyOneFile(fs, model, plan[n]);
      rest := rest - {n};
    }
    rest := m.dirs.Keys;
    while rest != {}
      invariant rest <= m.dirs.Keys && forall n :: n in m.dirs && n !in rest ==> DataOk(fs, model, n)
      decreases rest
    {
      var n :| n in rest;
      DirRecordFacts(m, model, plan, n);
      ok := EntriesAreSound(fs, n, m.dirs[n].entries, model, plan[n].children);
      if !ok {
        UnsoundDiffers(fs, model, n);
        return;
      }
      rest := rest - {n};
    }
    ok := true;
    assert forall n :: n in plan ==> n in m.files.Keys + m.dirs.Keys;
  }

  lemma DiffersAt(fs: Fs, model: Fs, n: Path)
    requires n in fs && n in model && fs[n].File? && model[n].File? && fs[n].data != model[n].data
    ensures !Matches(fs, model)
  {
    assert !Agrees(fs[n], model[n]);
  }

  lemma OnlyOneFile(fs: Fs, model: Fs, s: Source)
    requires s.FileSource? && Present(model, s) && s.name in fs && fs[s.name].File? && fs[s.name].data == s.data
    ensures DataOk(fs, model, s.name)
  {
    forall q: Path | s.name <= q && q in model
      ensures q == s.name
    {
      assert s.name == q || s.name < q;
    }
  }

  lemma UnsoundDiffers(fs: Fs, model: Fs, n: Path)
    requires !DataOk(fs, model, n)
    ensures !Matches(fs, model)
  {
    var q: Path :| n <= q && q in model && model[q].File? && q in fs && fs[q].File? && fs[q].data != model[q].data;
    assert !Agrees(fs[q], model[q]);
  }

  // ---------------------------------------------------------------------------
  // The round trip
  // ---------------------------------------------------------------------------

  /** The published tree also holds the manifest file. */
  method VerifySnapshot(m: Manifest, published: Fs, ghost plan: map<Path, Source>) returns (ok: bool)
    requires Named(plan) && Describes(m, plan)
    ensures ok <==> MANIFEST in published && published[MANIFEST].File? && Intact(published - {MANIFEST}, plan)
  {
    if MANIFEST !in published || published[MANIFEST].Dir? {
      return false;
    }
    ok := VerifyTree(m, published - {MANIFEST}, plan);
  }

  /** Adding the manifest file does not disturb what was copied. */
  lemma ManifestApart(fs: Fs, plan: map<Path, Source>, mode: int, text: Node)
    requires Named(plan) && Built(fs, plan, mode)
    ensures MANIFEST !in fs && fs[MANIFEST := text] - {MANIFEST} == fs
  {
    assert forall n :: n in plan.Keys ==> ProperName(n) && !Related(MANIFEST, n);
  }

  /** Restoring verifies the published snapshot first, and what it built afterwards. */
  method RestoreSnapshot(m: Manifest, published: Fs, mode: int, ghost plan: map<Path, Source>)
    returns (restored: bool, fs: Fs)
    requires Named(plan) && Describes(m, plan)
    ensures restored <==> MANIFEST in published && published[MANIFEST].File? && Intact(published - {MANIFEST}, plan)
    ensures restored ==> Built(fs, plan, mode) && Intact(fs, plan)
  {
    hide Intact, Built, Named, Describes;
    fs := map[];
    restored := VerifySnapshot(m, published, plan);
    if restored {
      fs := RestoreSources(m, published, mode, plan);
      BuiltIsIntact(fs, plan, mode);
      restored := VerifyTree(m, fs, plan);
    }
  }

  /** Main result: for sources with acceptable names, a created snapshot, published with its
      manifest file, passes verification, and restoring it succeeds and yields a tree that
      holds each source with the paths, kinds, bytes and modes it had. */
  method RoundTrip(sources: seq<Source>, disk: Fs, from: seq<Path>, text: Node, mode: int, later: int)
    returns (verified: bool, restored: bool, fs: Fs)
    requires |from| == |sources| && forall i :: 0 <= i < |sources| ==> OnDisk(disk, from[i], sources[i]) && GoodTree(sources[i])
    requires NamesAccepted(sources) && text.File?
    ensures verified && restored && Built(fs, PlanOf(sources), later) && Intact(fs, PlanOf(sources))
  {
    var created, snapshot, m := CreateSnapshot(sources, disk, from, mode);
    ghost var plan := PlanOf(sources);
    BuiltIsIntact(snapshot, plan, mode);
    ManifestApart(snapshot, plan, mode, text);
    hide Intact, Built, Named, Describes;
    verified := VerifySnapshot(m, snapshot[MANIFEST := text], plan);
    restored, fs := RestoreSnapshot(m, snapshot[MANIFEST := text], later, plan);
  }

  /** Two trees built from one plan agree on everything at and below the sources. */
  lemma BuiltTreesAgree(a: Fs, b: Fs, plan: map<Path, Source>, x: int, y: int, n: Path, q: Path)
    requires Built(a, plan, x) && Built(b, plan, y) && n in plan && plan[n].name == n && n <= q
    ensures q in a <==> q in b
    ensures q in a ==> a[q] == b[q]
  {
    assert Present(a, plan[n]) && Present(b, plan[n]);
    hide Built;
    PresentAgrees(a, b, plan[n], q);
  }
}
