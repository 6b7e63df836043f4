/**
  Private directory trees: a filesystem of inodes, the tree that candidate files are written
  into, its check against what was recorded, and its removal by recorded identity.

  Directories are indexed by folded names, so that the model covers filesystems on which two
  spellings of a name are one entry; an exact filesystem is the case where fold is the identity.
*/
module PrivateTrees {

  type Ino = nat
  type Name = string
  type Path = seq<Name>
  type Content = seq<nat>
  type Fold = Name -> Name

  /** A directory entry, with the spelling it was created under. */
  datatype Link = Link(display: Name, ino: Ino)

  datatype Node =
    | File(bytes: Content, mode: nat, nlink: nat)
    | Dir(entries: map<Name, Link>, mode: nat)
    | Other

  type Nodes = map<Ino, Node>

  const DIR_MODE := 0x1c0   // 0o700
  const FILE_MODE := 0x180  // 0o600
  const NAME_TRIES := 8

  datatype Code = Io | Exists | Changed | Conflict | WriteFailed | CleanupFailed | SourceBad

  datatype Result<+T> = Ok(value: T) | Err(code: Code) {
    predicate IsFailure() { Err? }
    function PropagateFailure<U>(): Result<U> requires Err? { Err(code) }
    function Extract(): T requires Ok? { value }
  }

  function Init(p: Path): Path requires p != [] { p[..|p| - 1] }
  function Last(p: Path): Name requires p != [] { p[|p| - 1] }

  predicate DirAt(nodes: Nodes, i: Ino) { i in nodes && nodes[i].Dir? }

  predicate FileAt(nodes: Nodes, i: Ino) { i in nodes && nodes[i].File? }

  /** Looking a name up gives this inode. */
  predicate Leads(fold: Fold, nodes: Nodes, d: Ino, n: Name, i: Ino) {
    DirAt(nodes, d) && fold(n) in nodes[d].entries && nodes[d].entries[fold(n)].ino == i
  }

  predicate Named(fold: Fold, nodes: Nodes, d: Ino, n: Name) {
    DirAt(nodes, d) && fold(n) in nodes[d].entries && nodes[d].entries[fold(n)].ino in nodes
  }

  function Linked(fold: Fold, nodes: Nodes, d: Ino, n: Name, i: Ino): Nodes
    requires DirAt(nodes, d)
  {
    nodes[d := nodes[d].(entries := nodes[d].entries[fold(n) := Link(n, i)])]
  }

  function Unlinked(fold: Fold, nodes: Nodes, d: Ino, n: Name): Nodes
    requires DirAt(nodes, d)
  {
    nodes[d := nodes[d].(entries := nodes[d].entries - {fold(n)})]
  }

  // ------------------------------------------------------------ what is really in the tree

  datatype Spot = Spot(ino: Ino, dir: bool)

  /** Everything that lies in the private tree, recorded or not. */
  type Tree = map<Path, Spot>

  /** The spot p is where the tree says, under its own spelling in its parent. */
  predicate SpotOk(fold: Fold, nodes: Nodes, T: Tree, p: Path) {
    && p in T
    && (if T[p].dir then DirAt(nodes, T[p].ino) else FileAt(nodes, T[p].ino) && nodes[T[p].ino].nlink == 1)
    && (p != [] ==>
          && Init(p) in T && T[Init(p)].dir && DirAt(nodes, T[Init(p)].ino)
          && var entries := nodes[T[Init(p)].ino].entries;
             fold(Last(p)) in entries && entries[fold(Last(p))] == Link(Last(p), T[p].ino))
  }

  /** An entry of a directory of the tree is itself in the tree. */
  predicate EntryOk(fold: Fold, nodes: Nodes, T: Tree, p: Path, k: Name) {
    p in T && DirAt(nodes, T[p].ino) && k in nodes[T[p].ino].entries ==>
      fold(nodes[T[p].ino].entries[k].display) == k && p + [nodes[T[p].ino].entries[k].display] in T
  }

  predicate Apart(T: Tree, p: Path, q: Path) {
    p in T && q in T && T[p].ino == T[q].ino ==> p == q
  }

  predicate Foreign(nodes: Nodes, base: Nodes, parent: Ino, i: Ino) {
    i in base && i != parent ==> i in nodes && nodes[i] == base[i]
  }

  predicate Owned(nodes: Nodes, base: Nodes, T: Tree, i: Ino) {
    i in nodes ==> i in base || exists p :: p in T && T[p].ino == i
  }

  predicate NewSpot(base: Nodes, T: Tree, p: Path) {
    p in T ==> T[p].ino !in base
  }

  predicate RootSpot(fold: Fold, nodes: Nodes, base: Nodes, parent: Ino, name: Name, T: Tree) {
    && [] in T && T[[]].dir && DirAt(base, parent) && DirAt(nodes, parent)
    && fold(name) !in base[parent].entries
    && nodes[parent] == base[parent].(entries := base[parent].entries[fold(name) := Link(name, T[[]].ino)])
  }

  /** The filesystem is base plus, under one new name of parent, exactly the tree T. */
  ghost predicate Rep(fold: Fold, nodes: Nodes, base: Nodes, parent: Ino, name: Name, T: Tree) {
    && RootSpot(fold, nodes, base, parent, name, T)
    && (forall p {:trigger SpotOk(fold, nodes, T, p)} | p in T :: SpotOk(fold, nodes, T, p))
    && (forall p, k {:trigger EntryOk(fold, nodes, T, p, k)} :: EntryOk(fold, nodes, T, p, k))
    && (forall p, q {:trigger Apart(T, p, q)} :: Apart(T, p, q))
    && (forall i {:trigger Foreign(nodes, base, parent, i)} :: Foreign(nodes, base, parent, i))
    && (forall i {:trigger Owned(nodes, base, T, i)} :: Owned(nodes, base, T, i))
    && (forall p {:trigger NewSpot(base, T, p)} :: NewSpot(base, T, p))
  }

  /** Adding a new node under a directory of the tree. */
  lemma RepAdd(fold: Fold, nodes: Nodes, base: Nodes, parent: Ino, name: Name, T: Tree, p: Path, n: Name, i: Ino, node: Node)
    requires Rep(fold, nodes, base, parent, name, T) && p in T && T[p].dir && i !in nodes
    requires SpotOk(fold, nodes, T, p) && fold(n) !in nodes[T[p].ino].entries
    requires (node.Dir? && node.entries == map[]) || (node.File? && node.nlink == 1)
    ensures p + [n] !in T
    ensures Rep(fold, Linked(fold, nodes, T[p].ino, n, i)[i := node], base, parent, name, T[p + [n] := Spot(i, node.Dir?)])
  {
    var d, q := T[p].ino, p + [n];
    var after, U := Linked(fold, nodes, d, n, i)[i := node], T[q := Spot(i, node.Dir?)];
    assert Init(q) == p && Last(q) == n;
    assert q in T ==> SpotOk(fold, nodes, T, q);
    assert NewSpot(base, T, p) && Foreign(nodes, base, parent, i);
    assert i !in base by { assert RootSpot(fold, nodes, base, parent, name, T); }
    forall s | s in U ensures SpotOk(fold, after, U, s) {
      if s != q {
        assert SpotOk(fold, nodes, T, s);
        if s != [] { assert SpotOk(fold, nodes, T, Init(s)); }
      }
    }
    forall s, k ensures EntryOk(fold, after, U, s, k) {
      if s in T && s != q { assert EntryOk(fold, nodes, T, s, k) && SpotOk(fold, nodes, T, s) && Apart(T, s, p); }
    }
    forall s, t ensures Apart(U, s, t) {
      assert Apart(T, s, t);
      if s in T { assert SpotOk(fold, nodes, T, s); }
      if t in T { assert SpotOk(fold, nodes, T, t); }
    }
    forall j ensures Foreign(after, base, parent, j) && Owned(after, base, U, j) {
      assert Foreign(nodes, base, parent, j) && Owned(nodes, base, T, j);
      if j == i {
        assert q in U && U[q].ino == j;
      } else if j in nodes && j !in base {
        var s :| s in T && T[s].ino == j;
        assert s in U && U[s].ino == j;
      }
    }
    forall s ensures NewSpot(base, U, s) { assert NewSpot(base, T, s); }
  }

  predicate Leaf(T: Tree, q: Path) {
    q in T && q != [] && forall s | s in T && s != [] :: Init(s) != q
  }

  /** The filesystem after the name n of d, its last link to i, is removed. */
  function Removed(fold: Fold, nodes: Nodes, d: Ino, n: Name, i: Ino): Nodes
    requires DirAt(nodes, d)
  {
    Unlinked(fold, nodes, d, n) - {i}
  }

  /** Removing a file or an empty directory of the tree. */
  lemma RepRemove(fold: Fold, nodes: Nodes, base: Nodes, parent: Ino, name: Name, T: Tree, q: Path)
    requires Rep(fold, nodes, base, parent, name, T) && Leaf(T, q)
    ensures SpotOk(fold, nodes, T, q)
    ensures Rep(fold, Removed(fold, nodes, T[Init(q)].ino, Last(q), T[q].ino), base, parent, name, T - {q})
  {
    assert SpotOk(fold, nodes, T, q);
    var p, n := Init(q), Last(q);
    var d, i := T[p].ino, T[q].ino;
    var after, U := Removed(fold, nodes, d, n, i), T - {q};
    assert p + [n] == q && Apart(T, p, q);
    assert NewSpot(base, T, p) && NewSpot(base, T, q);
    forall s | s in U ensures SpotOk(fold, after, U, s) {
      assert SpotOk(fold, nodes, T, s) && Apart(T, s, q);
      if s != [] {
        assert Init(s) != q && Apart(T, Init(s), q) && Apart(T, Init(s), p);
        if Init(s) == p { assert Init(s) + [Last(s)] == s; }
      }
    }
    forall s, k ensures EntryOk(fold, after, U, s, k) {
      assert EntryOk(fold, nodes, T, s, k);
      if s in U && DirAt(after, U[s].ino) && k in after[U[s].ino].entries {
        assert Apart(T, s, p) && Apart(T, s, q);
        var m := after[U[s].ino].entries[k].display;
        assert Init(s + [m]) == s && Last(s + [m]) == m;
        assert SpotOk(fold, nodes, T, s + [m]);
      }
    }
    forall s, t ensures Apart(U, s, t) { assert Apart(T, s, t); }
    forall j ensures Foreign(after, base, parent, j) && Owned(after, base, U, j) {
      assert Foreign(nodes, base, parent, j) && Owned(nodes, base, T, j);
      if j in after && j !in base {
        var s :| s in T && T[s].ino == j;
        assert s in U && U[s].ino == j;
      }
    }
    forall s ensures NewSpot(base, U, s) { assert NewSpot(base, T, s); }
  }

  /** A node keeps its place when only its bytes or mode change. */
  predicate SameShape(a: Node, b: Node) {
    (a.File? && b.File? && a.nlink == b.nlink) || (a.Dir? && b.Dir? && a.entries == b.entries)
  }

  lemma SpotTouched(fold: Fold, nodes: Nodes, T: Tree, i: Ino, node: Node, s: Path)
    requires SpotOk(fold, nodes, T, s) && i in nodes && SameShape(nodes[i], node)
    ensures SpotOk(fold, nodes[i := node], T, s)
  {
  }

  lemma EntryTouched(fold: Fold, nodes: Nodes, T: Tree, i: Ino, node: Node, s: Path, k: Name)
    requires EntryOk(fold, nodes, T, s, k) && i in nodes && SameShape(nodes[i], node)
    ensures EntryOk(fold, nodes[i := node], T, s, k)
  {
  }

  lemma RepTouch(fold: Fold, nodes: Nodes, base: Nodes, parent: Ino, name: Name, T: Tree, p: Path, node: Node)
    requires Rep(fold, nodes, base, parent, name, T) && p in T && SpotOk(fold, nodes, T, p)
    requires SameShape(nodes[T[p].ino], node)
    ensures Rep(fold, nodes[T[p].ino := node], base, parent, name, T)
  {
    var i := T[p].ino;
    var after := nodes[i := node];
    assert NewSpot(base, T, p);
    assert RootSpot(fold, after, base, parent, name, T);
    forall s | s in T ensures SpotOk(fold, after, T, s) {
      assert SpotOk(fold, nodes, T, s);
      SpotTouched(fold, nodes, T, i, node, s);
    }
    forall s, k ensures EntryOk(fold, after, T, s, k) {
      assert EntryOk(fold, nodes, T, s, k);
      EntryTouched(fold, nodes, T, i, node, s, k);
    }
    forall j ensures Foreign(after, base, parent, j) { assert Foreign(nodes, base, parent, j); }
    forall j ensures Owned(after, base, T, j) { assert Owned(nodes, base, T, j); }
  }

  /** The new root directory. */
  lemma RepRoot(fold: Fold, base: Nodes, parent: Ino, name: Name, i: Ino, mode: nat)
    requires DirAt(base, parent) && fold(name) !in base[parent].entries && i !in base
    ensures Rep(fold, Linked(fold, base, parent, name, i)[i := Dir(map[], mode)], base, parent, name, map[[] := Spot(i, true)])
  {
    var T: Tree := map[[] := Spot(i, true)];
    assert [] in T && T[[]].ino == i;
  }

  lemma {:induction false} FirstStep(fold: Fold, nodes: Nodes, base: Nodes, parent: Ino, name: Name, T: Tree, q: Path)
    requires Rep(fold, nodes, base, parent, name, T) && q in T && q != []
    ensures DirAt(nodes, T[[]].ino) && fold(q[0]) in nodes[T[[]].ino].entries
    decreases |q|
  {
    assert SpotOk(fold, nodes, T, q);
    if |q| == 1 {
      assert Init(q) == [] && Last(q) == q[0];
    } else {
      FirstStep(fold, nodes, base, parent, name, T, Init(q));
    }
  }

  /** Removing an empty root brings the filesystem back to what it was. */
  lemma RepUnroot(fold: Fold, nodes: Nodes, base: Nodes, parent: Ino, name: Name, T: Tree)
    requires Rep(fold, nodes, base, parent, name, T)
    requires DirAt(nodes, T[[]].ino) && nodes[T[[]].ino].entries == map[]
    ensures Removed(fold, nodes, parent, name, T[[]].ino) == base && T.Keys == {[]}
  {
    var i := T[[]].ino;
    forall q | q in T ensures q == [] {
      if q != [] { FirstStep(fold, nodes, base, parent, name, T, q); }
    }
    var after := Removed(fold, nodes, parent, name, i);
    assert NewSpot(base, T, []);
    forall j ensures j in after <==> j in base {
      assert Foreign(nodes, base, parent, j) && Owned(nodes, base, T, j);
    }
    forall j | j in base ensures after[j] == base[j] { assert Foreign(nodes, base, parent, j); }
  }

  /** An empty directory of the tree has nothing below it. */
  lemma EmptyIsLeaf(fold: Fold, nodes: Nodes, base: Nodes, parent: Ino, name: Name, T: Tree, q: Path)
    requires Rep(fold, nodes, base, parent, name, T) && q in T && q != []
    requires T[q].dir ==> DirAt(nodes, T[q].ino) && nodes[T[q].ino].entries == map[]
    ensures Leaf(T, q)
  {
    forall s | s in T && s != [] ensures Init(s) != q { assert SpotOk(fold, nodes, T, s); }
  }

  // ------------------------------------------------------------ the recorded tree

  type Idents = map<Path, Ino>

  /** Every recorded path has its directory recorded. */
  predicate RootedAt(D: Idents, F: Idents, p: Path) {
    && (p in D && p != [] ==> Init(p) in D)
    && (p in F ==> p != [] && Init(p) in D)
  }

  ghost predicate Rooted(D: Idents, F: Idents) {
    [] in D && forall p {:trigger RootedAt(D, F, p)} :: RootedAt(D, F, p)
  }

  predicate DirNoted(D: Idents, T: Tree, p: Path) { p in D ==> p in T && T[p] == Spot(D[p], true) }
  predicate FileNoted(F: Idents, T: Tree, p: Path) { p in F ==> p in T && T[p] == Spot(F[p], false) }

  /** The records describe part of the tree; what they miss are strays. */
  ghost predicate Noted(D: Idents, F: Idents, T: Tree) {
    && (forall p {:trigger DirNoted(D, T, p)} :: DirNoted(D, T, p))
    && (forall p {:trigger FileNoted(F, T, p)} :: FileNoted(F, T, p))
  }

  predicate NoStrays(D: Idents, F: Idents, T: Tree) { T.Keys == D.Keys + F.Keys }

  /** Step k of the way down path leads to the recorded directory. */
  predicate StepLeads(fold: Fold, nodes: Nodes, D: Idents, path: Path, k: nat)
    requires k < |path|
  {
    && path[..k] in D && path[..k + 1] in D
    && Leads(fold, nodes, D[path[..k]], path[k], D[path[..k + 1]]) && DirAt(nodes, D[path[..k + 1]])
  }

  predicate Reachable(fold: Fold, nodes: Nodes, D: Idents, path: Path) {
    forall k {:trigger StepLeads(fold, nodes, D, path, k)} | 0 <= k < |path| :: StepLeads(fold, nodes, D, path, k)
  }

  lemma {:induction false} PrefixIn(D: Idents, F: Idents, p: Path, k: nat)
    requires Rooted(D, F) && p in D && k <= |p|
    ensures p[..k] in D
    decreases |p|
  {
    if k < |p| {
      assert RootedAt(D, F, p);
      PrefixIn(D, F, Init(p), k);
      assert Init(p)[..k] == p[..k];
    } else {
      assert p[..k] == p;
    }
  }

  lemma {:induction false} SpotPrefix(fold: Fold, nodes: Nodes, base: Nodes, parent: Ino, name: Name, T: Tree, p: Path, k: nat)
    requires Rep(fold, nodes, base, parent, name, T) && p in T && k <= |p|
    ensures p[..k] in T && (k < |p| ==> T[p[..k]].dir)
    decreases |p|
  {
    if k < |p| {
      assert SpotOk(fold, nodes, T, p);
      SpotPrefix(fold, nodes, base, parent, name, T, Init(p), k);
      assert Init(p)[..k] == p[..k];
    } else {
      assert p[..k] == p;
    }
  }

  /** A recorded directory that is still in the tree is reached through recorded directories. */
  lemma RepReachable(fold: Fold, nodes: Nodes, base: Nodes, parent: Ino, name: Name, T: Tree, D: Idents, F: Idents, p: Path)
    requires Rep(fold, nodes, base, parent, name, T) && Rooted(D, F) && p in D && p in T
    requires forall q {:trigger DirAgrees(D, T, q)} :: DirAgrees(D, T, q)
    ensures Reachable(fold, nodes, D, p) && DirAt(nodes, D[p])
  {
    forall k | 0 <= k < |p| ensures StepLeads(fold, nodes, D, p, k) {
      PrefixIn(D, F, p, k);
      PrefixIn(D, F, p, k + 1);
      SpotPrefix(fold, nodes, base, parent, name, T, p, k + 1);
      assert SpotOk(fold, nodes, T, p[..k + 1]);
      assert Init(p[..k + 1]) == p[..k] && Last(p[..k + 1]) == p[k];
      assert DirAgrees(D, T, p[..k]) && DirAgrees(D, T, p[..k + 1]);
    }
    assert SpotOk(fold, nodes, T, p) && DirAgrees(D, T, p);
  }

  /** A directory with nothing below it in the tree is empty. */
  lemma LeafIsEmpty(fold: Fold, nodes: Nodes, base: Nodes, parent: Ino, name: Name, T: Tree, q: Path)
    requires Rep(fold, nodes, base, parent, name, T) && Leaf(T, q) && T[q].dir
    ensures DirAt(nodes, T[q].ino) && nodes[T[q].ino].entries == map[]
  {
    assert SpotOk(fold, nodes, T, q);
    var entries := nodes[T[q].ino].entries;
    assert forall k | k in entries :: EntryOk(fold, nodes, T, q, k);
    assert forall n: Name :: Init(q + [n]) == q;
    assert forall k :: k !in entries;
  }

  predicate DirAgrees(D: Idents, T: Tree, p: Path) { p in D && p in T ==> T[p] == Spot(D[p], true) }

  predicate FileAgrees(F: Idents, T: Tree, p: Path) { p in F && p in T ==> T[p] == Spot(F[p], false) }

  /** Whatever of the records is still in the tree is there under its recorded identity. */
  ghost predicate Agrees(D: Idents, F: Idents, T: Tree) {
    && (forall p {:trigger DirAgrees(D, T, p)} :: DirAgrees(D, T, p))
    && (forall p {:trigger FileAgrees(F, T, p)} :: FileAgrees(F, T, p))
  }

  lemma AgreesLess(D: Idents, F: Idents, T: Tree, q: Path)
    requires Agrees(D, F, T)
    ensures Agrees(D, F, T - {q})
  {
    forall p ensures DirAgrees(D, T - {q}, p) && FileAgrees(F, T - {q}, p) {
      assert DirAgrees(D, T, p) && FileAgrees(F, T, p);
    }
  }

  lemma NotedAgrees(D: Idents, F: Idents, T: Tree)
    requires Noted(D, F, T)
    ensures Agrees(D, F, T)
    ensures D.Keys <= T.Keys && F.Keys <= T.Keys && D.Keys !! F.Keys
  {
    forall p ensures DirAgrees(D, T, p) && FileAgrees(F, T, p) && (p in D ==> p in T && p !in F) && (p in F ==> p in T) {
      assert DirNoted(D, T, p) && FileNoted(F, T, p);
    }
  }

  lemma {:induction false} Longest(paths: set<Path>)
    requires paths != {}
    ensures exists p :: p in paths && forall q | q in paths :: |q| <= |p|
    decreases |paths|
  {
    var x :| x in paths;
    if paths != {x} {
      Longest(paths - {x});
      var p :| p in paths - {x} && forall q | q in paths - {x} :: |q| <= |p|;
      var best := if |x| <= |p| then p else x;
      assert best in paths && forall q | q in paths :: |q| <= |best|;
    }
  }

  predicate Bounded(nodes: Nodes, n: nat) {
    forall i | i in nodes :: i < n
  }

  predicate Distinct(order: seq<Path>) {
    forall i, j | 0 <= i < j < |order| :: order[i] != order[j]
  }

  /** The set of the elements of order from index i on. */
  function Later(order: seq<Path>, i: nat): (s: set<Path>)
    requires i <= |order|
    decreases |order| - i
  {
    if i == |order| then {} else {order[i]} + Later(order, i + 1)
  }

  lemma {:induction false} LaterIs(order: seq<Path>, i: nat, p: Path)
    requires i <= |order|
    ensures p in Later(order, i) <==> exists k :: i <= k < |order| && order[k] == p
    decreases |order| - i
  {
    if i < |order| { LaterIs(order, i + 1, p); }
  }

  predicate Ordered(order: seq<Path>, F: Idents) {
    Distinct(order) && Later(order, 0) == F.Keys
  }

  lemma OrderedAt(order: seq<Path>, F: Idents, i: nat)
    requires Ordered(order, F) && i < |order|
    ensures order[i] in F && order[i] !in Later(order, i + 1)
    ensures Later(order, i) == Later(order, i + 1) + {order[i]}
  {
    LaterIs(order, 0, order[i]);
    LaterIs(order, i + 1, order[i]);
  }

  /** The nodes with a recorded identity. */
  predicate Recorded(D: Idents, F: Idents, i: Ino) {
    i in D.Values || i in F.Values
  }

  /**
    Each record names a node that the tree created, unless it is of a directory whose name led to a node of
    others when it was recorded.
  */
  predicate OwnAt(D: Idents, F: Idents, made: set<Ino>, swapped: set<Path>, p: Path) {
    && (p in D && p !in swapped ==> D[p] in made)
    && (p in F ==> F[p] in made)
    && (p in swapped ==> p in D && D[p] !in made)
  }

  /** And only recorded nodes are removed. */
  ghost predicate OwnOnly(D: Idents, F: Idents, made: set<Ino>, swapped: set<Path>, removed: set<Ino>) {
    && (forall p {:trigger OwnAt(D, F, made, swapped, p)} :: OwnAt(D, F, made, swapped, p))
    && (forall i | i in removed :: Recorded(D, F, i))
  }

  predicate BelowAt(D: Idents, n: nat, p: Path) { p in D ==> D[p] < n }

  ghost predicate Below(D: Idents, n: nat) { forall p {:trigger BelowAt(D, n, p)} :: BelowAt(D, n, p) }

  lemma BelowMore(D: Idents, n: nat, m: nat)
    requires Below(D, n) && n <= m
    ensures Below(D, m)
  {
    forall p ensures BelowAt(D, m, p) { assert BelowAt(D, n, p); }
  }

  lemma FreshMade(D: Idents, F: Idents, made: set<Ino>, swapped: set<Path>, removed: set<Ino>, i: Ino)
    requires OwnOnly(D, F, made, swapped, removed) && Below(D, i)
    ensures OwnOnly(D, F, made + {i}, swapped, removed) && Below(D, i + 1)
  {
    OwnMade(D, F, made, swapped, removed, i);
    BelowMore(D, i, i + 1);
  }

  lemma BelowRecorded(D: Idents, n: nat, q: Path, i: Ino)
    requires Below(D, n) && i < n
    ensures Below(D[q := i], n)
  {
    var E := D[q := i];
    forall p ensures BelowAt(E, n, p) { assert BelowAt(D, n, p); }
  }

  lemma OwnMade(D: Idents, F: Idents, made: set<Ino>, swapped: set<Path>, removed: set<Ino>, i: Ino)
    requires OwnOnly(D, F, made, swapped, removed) && Below(D, i)
    ensures OwnOnly(D, F, made + {i}, swapped, removed)
  {
    forall p ensures OwnAt(D, F, made + {i}, swapped, p) { assert OwnAt(D, F, made, swapped, p) && BelowAt(D, i, p); }
  }

  /** A directory is recorded under what its name led to. */
  lemma OwnDirectory(D: Idents, F: Idents, made: set<Ino>, swapped: set<Path>, q: Path, i: Ino)
    requires OwnOnly(D, F, made, swapped, {}) && q !in D
    ensures OwnOnly(D[q := i], F, made, if i in made then swapped else swapped + {q}, {})
  {
    var E, more := D[q := i], if i in made then swapped else swapped + {q};
    forall p ensures OwnAt(E, F, made, more, p) { assert OwnAt(D, F, made, swapped, p); }
  }

  lemma OwnFile(D: Idents, F: Idents, made: set<Ino>, swapped: set<Path>, q: Path, i: Ino)
    requires OwnOnly(D, F, made, swapped, {}) && i in made
    ensures OwnOnly(D, F[q := i], made, swapped, {})
  {
    var G := F[q := i];
    forall p ensures OwnAt(D, G, made, swapped, p) { assert OwnAt(D, F, made, swapped, p); }
  }

  /** If no name led to a node of others when it was recorded, only created nodes are removed. */
  lemma RemovesOnlyMade(D: Idents, F: Idents, made: set<Ino>, swapped: set<Path>, removed: set<Ino>)
    requires OwnOnly(D, F, made, swapped, removed) && swapped == {}
    ensures removed <= made
  {
    forall i | i in removed ensures i in made {
      assert Recorded(D, F, i);
      if i in D.Values {
        var p :| p in D && D[p] == i;
        assert OwnAt(D, F, made, swapped, p);
      } else {
        var p :| p in F && F[p] == i;
        assert OwnAt(D, F, made, swapped, p);
      }
    }
  }

  // ------------------------------------------------------------ one removal

  /** The filesystem, what is left of the tree in it, and the records agree. */
  ghost predicate Left(fold: Fold, nodes: Nodes, base: Nodes, parent: Ino, name: Name, T: Tree, D: Idents, F: Idents) {
    Rep(fold, nodes, base, parent, name, T) && Agrees(D, F, T)
  }

  predicate Removable(fold: Fold, nodes: Nodes, d: Ino, n: Name, i: Ino, dir: bool) {
    Leads(fold, nodes, d, n, i) && if dir then DirAt(nodes, i) && nodes[i].entries == map[] else FileAt(nodes, i)
  }

  /** In the filesystem seen, the removal of the recorded directory q goes through: its name leads to it, and it is empty. */
  ghost predicate Removes(fold: Fold, seen: Nodes, parent: Ino, name: Name, D: Idents, q: Path) {
    q in D && if q == [] then Removable(fold, seen, parent, name, D[q], true)
              else Init(q) in D && Removable(fold, seen, D[Init(q)], Last(q), D[q], true)
  }

  /**
    Whatever the others make of the filesystem before a removal, it takes only directories that the tree made,
    if and only if no name led to a node of others when its directory was recorded.
  */
  lemma SwapDecides(fold: Fold, parent: Ino, name: Name, D: Idents, F: Idents, made: set<Ino>, swapped: set<Path>, removed: set<Ino>)
    requires OwnOnly(D, F, made, swapped, removed) && Rooted(D, F) && D[[]] != parent
    requires forall q | q in D && q != [] && Init(q) in D :: D[q] != D[Init(q)]
    ensures (forall seen, q {:trigger Removes(fold, seen, parent, name, D, q)} | Removes(fold, seen, parent, name, D, q) :: D[q] in made)
            <==> swapped == {}
  {
    if swapped == {} {
      forall seen, q | Removes(fold, seen, parent, name, D, q) ensures D[q] in made { assert OwnAt(D, F, made, swapped, q); }
    } else {
      var q :| q in swapped;
      assert OwnAt(D, F, made, swapped, q) && RootedAt(D, F, q);
      var d, n := if q == [] then parent else D[Init(q)], if q == [] then name else Last(q);
      var seen: Nodes := map[d := Dir(map[fold(n) := Link(n, D[q])], DIR_MODE), D[q] := Dir(map[], DIR_MODE)];
      assert Removes(fold, seen, parent, name, D, q);
    }
  }

  /** The new root t is moved to u, and others put a directory of their own in its place, before its stat. */
  function SwappedRoot(): Nodes {
    map[0 := Dir(map["t" := Link("t", 2), "u" := Link("u", 1)], DIR_MODE), 1 := Dir(map[], DIR_MODE), 2 := Dir(map[], DIR_MODE)]
  }

  /** The stat records the others' directory, and the removal takes it away and leaves the tree's own. */
  lemma SwapTaken()
    ensures var fold: Fold := n => n;
            var D: Idents := map[[] := 2];
            && Leads(fold, SwappedRoot(), 0, "t", 2) && OwnOnly(D, map[], {1}, {[]}, {})
            && Removes(fold, SwappedRoot(), 0, "t", D, [])
            && var after := Removed(fold, SwappedRoot(), 0, "t", 2);
               2 !in after && 1 in after
    ensures OwnOnly(map[[] := 2], map[], {1}, {[]}, {2})
  {
    var D: Idents := map[[] := 2];
    assert D[[]] == 2 && 2 in D.Values;
  }

  lemma ReadyToRemove(fold: Fold, nodes: Nodes, base: Nodes, parent: Ino, name: Name, T: Tree, D: Idents, F: Idents, q: Path, dir: bool)
    requires Left(fold, nodes, base, parent, name, T, D, F) && Rooted(D, F)
    requires q != [] && q in T && (if dir then q in D else q in F)
    ensures Init(q) in D && Init(q) in T && DirAt(nodes, D[Init(q)]) && Reachable(fold, nodes, D, Init(q))
    ensures T[q].dir == dir && T[q].ino == (if dir then D[q] else F[q]) && T[Init(q)].ino == D[Init(q)]
    ensures !dir ==> FileAt(nodes, T[q].ino) && nodes[T[q].ino].nlink == 1
    ensures Leaf(T, q) ==> Removable(fold, nodes, D[Init(q)], Last(q), T[q].ino, dir)
  {
    assert RootedAt(D, F, q) && DirAgrees(D, T, q) && FileAgrees(F, T, q);
    assert SpotOk(fold, nodes, T, q) && DirAgrees(D, T, Init(q));
    RepReachable(fold, nodes, base, parent, name, T, D, F, Init(q));
    if dir && Leaf(T, q) { LeafIsEmpty(fold, nodes, base, parent, name, T, q); }
  }

  lemma AfterRemoval(fold: Fold, nodes: Nodes, base: Nodes, parent: Ino, name: Name, T: Tree, D: Idents, F: Idents, q: Path, dir: bool)
    requires Left(fold, nodes, base, parent, name, T, D, F) && Rooted(D, F)
    requires q != [] && q in T && T[q].dir == dir && Init(q) in D && Init(q) in T && T[Init(q)].ino == D[Init(q)]
    requires Removable(fold, nodes, D[Init(q)], Last(q), T[q].ino, dir)
    ensures var after := Removed(fold, nodes, D[Init(q)], Last(q), T[q].ino);
            Left(fold, after, base, parent, name, T - {q}, D, F) && Reachable(fold, after, D, Init(q))
  {
    EmptyIsLeaf(fold, nodes, base, parent, name, T, q);
    RepRemove(fold, nodes, base, parent, name, T, q);
    AgreesLess(D, F, T, q);
    RepReachable(fold, Removed(fold, nodes, D[Init(q)], Last(q), T[q].ino), base, parent, name, T - {q}, D, F, Init(q));
  }

  // ------------------------------------------------------------ creating nodes

  /** What a tree of successful writes looks like: private modes, single links, the written bytes. */
  predicate TidyAt(nodes: Nodes, D: Idents, F: Idents, contents: map<Path, Content>, p: Path) {
    && (p in D ==> DirAt(nodes, D[p]) && nodes[D[p]].mode == DIR_MODE)
    && (p in F ==> p in contents && F[p] in nodes && nodes[F[p]] == File(contents[p], FILE_MODE, 1))
  }

  ghost predicate Tidy(nodes: Nodes, D: Idents, F: Idents, T: Tree, contents: map<Path, Content>) {
    NoStrays(D, F, T) && forall p {:trigger TidyAt(nodes, D, F, contents, p)} :: TidyAt(nodes, D, F, contents, p)
  }

  /** Nothing in the tree stands in the way of path, not even under a name that folds alike. */
  predicate RoomAt(fold: Fold, T: Tree, path: Path, q: Path) {
    q in T && 0 < |q| <= |path| && Init(q) == path[..|q| - 1] && fold(Last(q)) == fold(path[|q| - 1]) ==>
      q == path[..|q|] && |q| < |path| && T[q].dir
  }

  ghost predicate Room(fold: Fold, T: Tree, path: Path) {
    forall q {:trigger RoomAt(fold, T, path, q)} :: RoomAt(fold, T, path, q)
  }

  lemma NotedMore(D: Idents, F: Idents, T: Tree, q: Path, s: Spot)
    requires Noted(D, F, T) && q !in T
    ensures Noted(D, F, T[q := s])
    ensures s.dir ==> Noted(D[q := s.ino], F, T[q := s])
    ensures !s.dir ==> Noted(D, F[q := s.ino], T[q := s])
    ensures q !in D && q !in F
  {
    forall p ensures DirNoted(D, T, p) && FileNoted(F, T, p) { assert DirNoted(D, T, p) && FileNoted(F, T, p); }
    assert DirNoted(D, T, q) && FileNoted(F, T, q);
    var U := T[q := s];
    forall p ensures DirNoted(D, U, p) && FileNoted(F, U, p) { assert DirNoted(D, T, p) && FileNoted(F, T, p); }
    var E, G := D[q := s.ino], F[q := s.ino];
    forall p ensures s.dir ==> DirNoted(E, U, p) { assert DirNoted(D, T, p); }
    forall p ensures !s.dir ==> FileNoted(G, U, p) { assert FileNoted(F, T, p); }
  }

  lemma RootedMore(D: Idents, F: Idents, q: Path, i: Ino)
    requires Rooted(D, F) && q != [] && Init(q) in D
    ensures Rooted(D[q := i], F) && Rooted(D, F[q := i])
  {
    var E, G := D[q := i], F[q := i];
    forall p ensures RootedAt(E, F, p) && RootedAt(D, G, p) { assert RootedAt(D, F, p); }
  }

  /** With room for path, the next name on its way is either a recorded directory or free. */
  lemma RoomFree(fold: Fold, nodes: Nodes, base: Nodes, parent: Ino, name: Name, T: Tree, D: Idents, F: Idents, path: Path, k: nat)
    requires Rep(fold, nodes, base, parent, name, T) && Noted(D, F, T) && NoStrays(D, F, T) && Room(fold, T, path)
    requires k < |path| && path[..k] in D
    ensures DirAt(nodes, D[path[..k]])
    ensures (k + 1 < |path| && path[..k + 1] in D) || fold(path[k]) !in nodes[D[path[..k]]].entries
  {
    var p := path[..k];
    assert DirNoted(D, T, p) && SpotOk(fold, nodes, T, p);
    var entries := nodes[D[p]].entries;
    if fold(path[k]) in entries {
      assert EntryOk(fold, nodes, T, p, fold(path[k]));
      var m := entries[fold(path[k])].display;
      var q := p + [m];
      assert Init(q) == p && Last(q) == m;
      assert RoomAt(fold, T, path, q);
      assert FileNoted(F, T, q) && DirNoted(D, T, q);
    }
  }

  lemma CreatedNoted(fold: Fold, nodes: Nodes, base: Nodes, parent: Ino, name: Name, T: Tree, D: Idents, F: Idents,
                     p: Path, n: Name, i: Ino, node: Node)
    requires Rep(fold, nodes, base, parent, name, T) && Noted(D, F, T) && p in D
    requires DirAt(nodes, D[p]) && fold(n) !in nodes[D[p]].entries && i !in nodes
    requires (node.Dir? && node.entries == map[]) || (node.File? && node.nlink == 1)
    ensures p + [n] !in T
    ensures Rep(fold, Linked(fold, nodes, D[p], n, i)[i := node], base, parent, name, T[p + [n] := Spot(i, node.Dir?)])
    ensures Noted(D, F, T[p + [n] := Spot(i, node.Dir?)])
  {
    assert DirNoted(D, T, p) && SpotOk(fold, nodes, T, p);
    RepAdd(fold, nodes, base, parent, name, T, p, n, i, node);
    NotedMore(D, F, T, p + [n], Spot(i, node.Dir?));
  }

  /** A creation whose recording fails leaves a state that the records cannot tell from the one before. */
  lemma LostCreation(fold: Fold, nodes: Nodes, base: Nodes, parent: Ino, name: Name, T: Tree, D: Idents, F: Idents,
                     p: Path, n: Name, i: Ino, node: Node)
    requires Rep(fold, nodes, base, parent, name, T) && Noted(D, F, T) && p in D
    requires DirAt(nodes, D[p]) && fold(n) !in nodes[D[p]].entries && i !in nodes
    requires (node.Dir? && node.entries == map[]) || (node.File? && node.nlink == 1)
    ensures var after, U := Linked(fold, nodes, D[p], n, i)[i := node], T[p + [n] := Spot(i, node.Dir?)];
            Rep(fold, after, base, parent, name, U) && Noted(D, F, U) && !NoStrays(D, F, U)
  {
    var q := p + [n];
    var U := T[q := Spot(i, node.Dir?)];
    CreatedNoted(fold, nodes, base, parent, name, T, D, F, p, n, i, node);
    assert DirNoted(D, T, q) && FileNoted(F, T, q);
    assert q in U.Keys && q !in D.Keys + F.Keys;
  }

  /** A recorded directory of the tree is what its name leads to. */
  lemma OpenNoted(fold: Fold, nodes: Nodes, base: Nodes, parent: Ino, name: Name, T: Tree, D: Idents, F: Idents, q: Path)
    requires Rep(fold, nodes, base, parent, name, T) && Noted(D, F, T) && q in D && q != [] && Init(q) in D
    ensures Leads(fold, nodes, D[Init(q)], Last(q), D[q]) && DirAt(nodes, D[q])
  {
    assert DirNoted(D, T, q) && DirNoted(D, T, Init(q)) && SpotOk(fold, nodes, T, q);
  }

  /** Everything but the mode of the directory q is tidy already. */
  ghost predicate TidyBut(nodes: Nodes, D: Idents, F: Idents, T: Tree, contents: map<Path, Content>, q: Path) {
    NoStrays(D, F, T) && forall p {:trigger TidyAt(nodes, D, F, contents, p)} | p != q :: TidyAt(nodes, D, F, contents, p)
  }

  lemma TidyGrows(fold: Fold, nodes: Nodes, base: Nodes, parent: Ino, name: Name, T: Tree, D: Idents, F: Idents,
                  contents: map<Path, Content>, p: Path, n: Name, i: Ino, node: Node)
    requires Rep(fold, nodes, base, parent, name, T) && Noted(D, F, T) && Tidy(nodes, D, F, T, contents) && p in D
    requires DirAt(nodes, D[p]) && i !in nodes && p + [n] !in T
    ensures var q, after := p + [n], Linked(fold, nodes, D[p], n, i)[i := node];
            && TidyBut(after, D[q := i], F, T[q := Spot(i, true)], contents, q)
            && TidyBut(after, D, F[q := i], T[q := Spot(i, false)], contents, q)
  {
    var q, after := p + [n], Linked(fold, nodes, D[p], n, i)[i := node];
    var E, G := D[q := i], F[q := i];
    forall s | s != q ensures TidyAt(after, E, F, contents, s) && TidyAt(after, D, G, contents, s) {
      assert TidyAt(nodes, D, F, contents, s);
    }
    assert DirNoted(D, T, q) && FileNoted(F, T, q);
  }

  lemma ChmodNeat(fold: Fold, nodes: Nodes, base: Nodes, parent: Ino, name: Name, T: Tree, D: Idents, F: Idents,
                  contents: map<Path, Content>, q: Path)
    requires Rep(fold, nodes, base, parent, name, T) && Noted(D, F, T) && q in D && DirAt(nodes, D[q])
    requires TidyBut(nodes, D, F, T, contents, q)
    ensures var after := nodes[D[q] := Dir(nodes[D[q]].entries, DIR_MODE)];
            Rep(fold, after, base, parent, name, T) && Tidy(after, D, F, T, contents)
  {
    assert DirNoted(D, T, q) && FileNoted(F, T, q) && SpotOk(fold, nodes, T, q);
    var after := nodes[D[q] := Dir(nodes[D[q]].entries, DIR_MODE)];
    RepTouch(fold, nodes, base, parent, name, T, q, after[D[q]]);
    forall p ensures TidyAt(after, D, F, contents, p) {
      assert DirNoted(D, T, p) && FileNoted(F, T, p) && Apart(T, p, q);
      if p != q { assert TidyAt(nodes, D, F, contents, p); }
    }
  }

  lemma FileTouched(fold: Fold, nodes: Nodes, base: Nodes, parent: Ino, name: Name, T: Tree, D: Idents, F: Idents,
                    contents: map<Path, Content>, q: Path, bytes: Content, mode: nat)
    requires Rep(fold, nodes, base, parent, name, T) && Noted(D, F, T) && q in F
    requires TidyBut(nodes, D, F, T, contents, q)
    ensures FileAt(nodes, F[q]) && nodes[F[q]].nlink == 1
    ensures var after := nodes[F[q] := File(bytes, mode, 1)];
            Rep(fold, after, base, parent, name, T) && TidyBut(after, D, F, T, contents, q)
  {
    assert FileNoted(F, T, q) && SpotOk(fold, nodes, T, q);
    var after := nodes[F[q] := File(bytes, mode, 1)];
    RepTouch(fold, nodes, base, parent, name, T, q, after[F[q]]);
    forall p | p != q ensures TidyAt(after, D, F, contents, p) {
      assert DirNoted(D, T, p) && FileNoted(F, T, p) && Apart(T, p, q);
      assert TidyAt(nodes, D, F, contents, p);
    }
  }

  lemma FileFinished(nodes: Nodes, D: Idents, F: Idents, T: Tree, contents: map<Path, Content>, q: Path, content: Content)
    requires Noted(D, F, T) && TidyBut(nodes, D, F, T, contents, q)
    requires q in F && F[q] in nodes && nodes[F[q]] == File(content, FILE_MODE, 1)
    ensures Tidy(nodes, D, F, T, contents[q := content])
  {
    var more := contents[q := content];
    assert DirNoted(D, T, q) && FileNoted(F, T, q);
    forall p ensures TidyAt(nodes, D, F, more, p) {
      if p != q { assert TidyAt(nodes, D, F, contents, p); }
    }
  }

  lemma FileNamed(fold: Fold, nodes: Nodes, base: Nodes, parent: Ino, name: Name, T: Tree, D: Idents, F: Idents, q: Path)
    requires Rep(fold, nodes, base, parent, name, T) && Noted(D, F, T) && q in F && q != [] && Init(q) in D
    ensures Leads(fold, nodes, D[Init(q)], Last(q), F[q])
  {
    assert FileNoted(F, T, q) && DirNoted(D, T, Init(q)) && SpotOk(fold, nodes, T, q);
  }

  lemma OrderedMore(order: seq<Path>, F: Idents, q: Path, i: Ino)
    requires Ordered(order, F)
    ensures Ordered(if q in F then order else order + [q], F[q := i])
  {
    if q !in F {
      forall k | 0 <= k < |order| ensures order[k] != q { OrderedAt(order, F, k); }
      LaterMore(order, q, 0);
    }
  }

  lemma {:induction false} LaterMore(order: seq<Path>, q: Path, i: nat)
    requires i <= |order|
    ensures Later(order + [q], i) == Later(order, i) + {q}
    decreases |order| - i
  {
    if i < |order| { LaterMore(order, q, i + 1); }
  }

  predicate Stepped(T: Tree, U: Tree, D: Idents, q: Path) {
    (q in T && U == T) || (q in D && U == T[q := Spot(D[q], true)])
  }

  lemma RoomForFile(fold: Fold, nodes: Nodes, base: Nodes, parent: Ino, name: Name, T: Tree, D: Idents, F: Idents, path: Path)
    requires Rep(fold, nodes, base, parent, name, T) && Noted(D, F, T) && NoStrays(D, F, T) && Room(fold, T, path)
    requires path != [] && Init(path) in D
    ensures DirAt(nodes, D[Init(path)]) && fold(Last(path)) !in nodes[D[Init(path)]].entries
  {
    RoomFree(fold, nodes, base, parent, name, T, D, F, path, |path| - 1);
  }

  lemma NotedReachable(fold: Fold, nodes: Nodes, base: Nodes, parent: Ino, name: Name, T: Tree, D: Idents, F: Idents, p: Path)
    requires Rep(fold, nodes, base, parent, name, T) && Noted(D, F, T) && Rooted(D, F) && p in D
    ensures Reachable(fold, nodes, D, p) && DirAt(nodes, D[p])
  {
    assert DirNoted(D, T, p);
    NotedAgrees(D, F, T);
    RepReachable(fold, nodes, base, parent, name, T, D, F, p);
  }

  predicate ExtendedAt(D: Idents, E: Idents, path: Path, p: Path) {
    && (p in D ==> p in E && E[p] == D[p])
    && (p in E && p !in D ==> 0 < |p| < |path| && p == path[..|p|])
  }

  /** E adds to D only directories on the way down path. */
  ghost predicate Extended(D: Idents, E: Idents, path: Path) {
    forall p {:trigger ExtendedAt(D, E, path, p)} :: ExtendedAt(D, E, path, p)
  }

  lemma ExtendedMore(C: Idents, D: Idents, E: Idents, path: Path, k: nat)
    requires Extended(C, D, path) && 0 < k < |path|
    requires D == E || (path[..k] in E && E == D[path[..k] := E[path[..k]]])
    requires path[..k] in D ==> E.Keys == D.Keys && D == E
    ensures Extended(C, E, path)
  {
    forall p ensures ExtendedAt(C, E, path, p) { assert ExtendedAt(C, D, path, p); }
  }

  lemma RoomMore(fold: Fold, T: Tree, path: Path, k: nat, i: Ino)
    requires Room(fold, T, path) && k + 1 < |path|
    ensures Room(fold, T[path[..k + 1] := Spot(i, true)], path)
  {
    var U := T[path[..k + 1] := Spot(i, true)];
    forall q ensures RoomAt(fold, U, path, q) { assert RoomAt(fold, T, path, q); }
  }

  // ------------------------------------------------------------ the recorded tree and the real one

  datatype Option<+T> = None | Some(value: T)

  /** What really lies under root at path, by the spelling that a listing shows. */
  function Find(fold: Fold, nodes: Nodes, root: Ino, path: Path): Option<Ino>
    decreases |path|
  {
    if path == [] then Some(root) else
    match Find(fold, nodes, root, Init(path))
    case None => None
    case Some(d) => Child(fold, nodes, d, Last(path))
  }

  function Child(fold: Fold, nodes: Nodes, d: Ino, n: Name): Option<Ino> {
    if DirAt(nodes, d) && fold(n) in nodes[d].entries && nodes[d].entries[fold(n)].display == n
    then Some(nodes[d].entries[fold(n)].ino) else None
  }

  function Expected(D: Idents, F: Idents, p: Path): Option<Ino> {
    if p in D then Some(D[p]) else if p in F then Some(F[p]) else None
  }

  predicate PrivateDir(nodes: Nodes, i: Ino) { DirAt(nodes, i) && nodes[i].mode == DIR_MODE }

  predicate PrivateFile(nodes: Nodes, i: Ino) { FileAt(nodes, i) && nodes[i].mode == FILE_MODE && nodes[i].nlink == 1 }

  predicate RootNamed(fold: Fold, nodes: Nodes, parent: Ino, name: Name, D: Idents) {
    [] in D && Leads(fold, nodes, parent, name, D[[]]) && DirAt(nodes, D[[]])
  }

  predicate MirrorsAt(fold: Fold, nodes: Nodes, D: Idents, F: Idents, p: Path)
    requires [] in D
  {
    && Find(fold, nodes, D[[]], p) == Expected(D, F, p)
    && (p in D ==> DirAt(nodes, D[p]) && nodes[D[p]].mode == 0x1c0)
    && (p in F ==> FileAt(nodes, F[p]) && nodes[F[p]].mode == 0x180 && nodes[F[p]].nlink == 1)
  }

  /** Whatever others did: the name now leads to the recorded file, singly linked and of this size. */
  predicate Placed(fold: Fold, nodes: Nodes, D: Idents, F: Idents, path: Path, size: nat) {
    && path != [] && Init(path) in D && path in F && Leads(fold, nodes, D[Init(path)], Last(path), F[path])
    && FileAt(nodes, F[path]) && nodes[F[path]].nlink == 1 && |nodes[F[path]].bytes| == size
  }

  /** The whole subtree is the recorded one: same names at every depth, identities, kinds, modes, links. */
  ghost predicate Mirrors(fold: Fold, nodes: Nodes, parent: Ino, name: Name, D: Idents, F: Idents) {
    && RootNamed(fold, nodes, parent, name, D)
    && forall p {:trigger MirrorsAt(fold, nodes, D, F, p)} :: MirrorsAt(fold, nodes, D, F, p)
  }

  /** The filesystem indexes a directory by the folded forms of the names it shows. */
  predicate FoldedAt(fold: Fold, nodes: Nodes, D: Idents, p: Path) {
    p in D && DirAt(nodes, D[p]) ==>
      forall k | k in nodes[D[p]].entries :: fold(nodes[D[p]].entries[k].display) == k
  }

  ghost predicate AllFolded(fold: Fold, nodes: Nodes, D: Idents) {
    forall p {:trigger FoldedAt(fold, nodes, D, p)} :: FoldedAt(fold, nodes, D, p)
  }

  /** A listing shows no name twice. */
  lemma SeenOnce(fold: Fold, entries: map<Name, Link>, rest: set<Name>, k: Name)
    requires k in rest && k in entries && forall j | j in entries :: fold(entries[j].display) == j
    ensures forall j | j in entries && j !in rest :: entries[j].display != entries[k].display
  {
  }

  lemma AllShown(fold: Fold, nodes: Nodes, d: Ino, expected: set<Name>, seen: set<Name>)
    requires DirAt(nodes, d)
    requires forall k | k in nodes[d].entries :: fold(nodes[d].entries[k].display) == k
    requires forall n :: n in seen <==> exists k :: k in nodes[d].entries && nodes[d].entries[k].display == n
    requires forall n | n in seen :: n in expected
    ensures seen == expected <==> forall n | n in expected :: Child(fold, nodes, d, n).Some?
  {
    forall n ensures n in seen <==> Child(fold, nodes, d, n).Some? {
      if Child(fold, nodes, d, n).Some? { assert nodes[d].entries[fold(n)].display == n; }
    }
  }

  /** One entry of the recorded directory p passes. */
  predicate EntryPasses(nodes: Nodes, D: Idents, F: Idents, p: Path, link: Link) {
    var q := p + [link.display];
    if q in F then link.ino == F[q] && PrivateFile(nodes, link.ino)
    else q in D && link.ino == D[q] && PrivateDir(nodes, link.ino)
  }

  /** The listing of the recorded directory p passes. */
  predicate LevelOk(fold: Fold, nodes: Nodes, D: Idents, F: Idents, p: Path) {
    && p in D && PrivateDir(nodes, D[p])
    && (forall k | k in nodes[D[p]].entries :: EntryPasses(nodes, D, F, p, nodes[D[p]].entries[k]))
    && (forall n | n in ChildNames(D, F, p) :: Child(fold, nodes, D[p], n).Some?)
  }

  /** The names that the records place directly below p. */
  function ChildNames(D: Idents, F: Idents, p: Path): set<Name> {
    set q | q in D.Keys + F.Keys && q != [] && Init(q) == p :: Last(q)
  }

  lemma ChildName(D: Idents, F: Idents, p: Path, n: Name)
    ensures n in ChildNames(D, F, p) <==> p + [n] in D || p + [n] in F
  {
    var q := p + [n];
    assert Init(q) == p && Last(q) == n;
    if n in ChildNames(D, F, p) {
      var s :| s in D.Keys + F.Keys && s != [] && Init(s) == p && Last(s) == n;
      assert s == Init(s) + [Last(s)];
    }
  }

  /** If every recorded directory passes on its own listing, the whole subtree is the recorded one. */
  lemma {:induction false} LevelsMirror(fold: Fold, nodes: Nodes, D: Idents, F: Idents, p: Path)
    requires Rooted(D, F) && D.Keys !! F.Keys
    requires forall q {:trigger LevelOk(fold, nodes, D, F, q)} | q in D :: LevelOk(fold, nodes, D, F, q)
    ensures MirrorsAt(fold, nodes, D, F, p)
    decreases |p|
  {
    assert RootedAt(D, F, p);
    if p in D { assert LevelOk(fold, nodes, D, F, p); }
    if p != [] {
      var q, n := Init(p), Last(p);
      assert q + [n] == p;
      LevelsMirror(fold, nodes, D, F, q);
      ChildName(D, F, q, n);
      if q in D {
        assert LevelOk(fold, nodes, D, F, q);
        var k := fold(n);
        if Child(fold, nodes, D[q], n).Some? {
          assert EntryPasses(nodes, D, F, q, nodes[D[q]].entries[k]);
        }
      }
    }
  }

  /** In a subtree that is the recorded one, every recorded directory is reached and its listing passes. */
  lemma MirrorLevel(fold: Fold, nodes: Nodes, parent: Ino, name: Name, D: Idents, F: Idents, p: Path)
    requires Rooted(D, F) && D.Keys !! F.Keys && Mirrors(fold, nodes, parent, name, D, F) && p in D
    requires FoldedAt(fold, nodes, D, p)
    ensures LevelOk(fold, nodes, D, F, p) && Reachable(fold, nodes, D, p)
  {
    assert MirrorsAt(fold, nodes, D, F, p);
    forall k | k in nodes[D[p]].entries ensures EntryPasses(nodes, D, F, p, nodes[D[p]].entries[k]) {
      var q := p + [nodes[D[p]].entries[k].display];
      assert Init(q) == p && Last(q) == nodes[D[p]].entries[k].display;
      assert MirrorsAt(fold, nodes, D, F, q);
    }
    forall n | n in ChildNames(D, F, p) ensures Child(fold, nodes, D[p], n).Some? {
      ChildName(D, F, p, n);
      var q := p + [n];
      assert Init(q) == p && Last(q) == n;
      assert MirrorsAt(fold, nodes, D, F, q);
    }
    forall k | 0 <= k < |p| ensures StepLeads(fold, nodes, D, p, k) {
      PrefixIn(D, F, p, k);
      PrefixIn(D, F, p, k + 1);
      var q := p[..k + 1];
      assert Init(q) == p[..k] && Last(q) == p[k];
      assert MirrorsAt(fold, nodes, D, F, p[..k]) && MirrorsAt(fold, nodes, D, F, q);
    }
  }

  /** A tree of successful writes is its own record. */
  lemma TidyMirrors(fold: Fold, nodes: Nodes, base: Nodes, parent: Ino, name: Name, T: Tree, D: Idents, F: Idents, contents: map<Path, Content>)
    requires Rep(fold, nodes, base, parent, name, T) && Noted(D, F, T) && Rooted(D, F) && Tidy(nodes, D, F, T, contents)
    ensures Mirrors(fold, nodes, parent, name, D, F) && D.Keys !! F.Keys
    ensures AllFolded(fold, nodes, D)
  {
    NotedAgrees(D, F, T);
    assert DirNoted(D, T, []) && SpotOk(fold, nodes, T, []);
    forall p ensures FoldedAt(fold, nodes, D, p) {
      assert DirNoted(D, T, p);
      if p in D && DirAt(nodes, D[p]) {
        forall k | k in nodes[D[p]].entries ensures fold(nodes[D[p]].entries[k].display) == k {
          assert EntryOk(fold, nodes, T, p, k);
        }
      }
    }
    forall p | p in D ensures LevelOk(fold, nodes, D, F, p) {
      TidyLevel(fold, nodes, base, parent, name, T, D, F, contents, p);
    }
    forall p ensures MirrorsAt(fold, nodes, D, F, p) { LevelsMirror(fold, nodes, D, F, p); }
  }

  lemma RootFound(fold: Fold, nodes: Nodes, base: Nodes, parent: Ino, name: Name, T: Tree, D: Idents)
    requires Rep(fold, nodes, base, parent, name, T) && [] in D && DirNoted(D, T, [])
    ensures RootNamed(fold, nodes, parent, name, D)
  {
    assert SpotOk(fold, nodes, T, []);
  }

  lemma RootRecorded(made: set<Ino>, held: Ino, i: Ino, bound: nat)
    requires made == {i} && held < bound
    ensures var D: Idents := map[[] := held];
            && Noted(D, map[], map[[] := Spot(held, true)]) && Rooted(D, map[]) && Ordered([], map[])
            && OwnOnly(D, map[], made, if held == i then {} else {[]}, {}) && Below(D, bound)
  {
    OwnDirectory(map[], map[], made, {}, [], held);
  }

  lemma TidyLevel(fold: Fold, nodes: Nodes, base: Nodes, parent: Ino, name: Name, T: Tree, D: Idents, F: Idents,
                  contents: map<Path, Content>, p: Path)
    requires Rep(fold, nodes, base, parent, name, T) && Noted(D, F, T) && Tidy(nodes, D, F, T, contents) && p in D
    ensures LevelOk(fold, nodes, D, F, p)
  {
    assert TidyAt(nodes, D, F, contents, p) && DirNoted(D, T, p);
    forall k | k in nodes[D[p]].entries ensures EntryPasses(nodes, D, F, p, nodes[D[p]].entries[k]) {
      assert EntryOk(fold, nodes, T, p, k);
      var q := p + [nodes[D[p]].entries[k].display];
      assert Init(q) == p && Last(q) == nodes[D[p]].entries[k].display;
      assert SpotOk(fold, nodes, T, q) && DirNoted(D, T, q) && FileNoted(F, T, q) && TidyAt(nodes, D, F, contents, q);
    }
    forall n | n in ChildNames(D, F, p) ensures Child(fold, nodes, D[p], n).Some? {
      ChildName(D, F, p, n);
      var q := p + [n];
      assert Init(q) == p && Last(q) == n;
      assert DirNoted(D, T, q) && FileNoted(F, T, q) && SpotOk(fold, nodes, T, q);
    }
  }

  // ------------------------------------------------------------ the tree object

  class PrivateTree {
    const fold: Fold
    const parent: Ino          // the directory behind the parent chain
    const quiet: bool          // nobody else changes the filesystem
    var faulty: bool           // from now on, system calls may fail for reasons of their own
    var nodes: Nodes           // the filesystem
    var nextIno: nat
    var name: Name
    var directories: Idents
    var files: Idents
    var order: seq<Path>       // the files in the order they were recorded
    ghost var base: Nodes      // the filesystem before the tree existed
    ghost var tree: Tree       // everything that lies in the tree, recorded or not
    ghost var made: set<Ino>   // the nodes that the tree created
    ghost var removed: set<Ino>
    ghost var swapped: set<Path>   // the directories whose names led to a node of others when they were recorded

    constructor (fold: Fold, parent: Ino, quiet: bool, faulty: bool, nodes: Nodes, nextIno: nat)
      requires Bounded(nodes, nextIno)
      ensures this.fold == fold && this.parent == parent && this.quiet == quiet && this.faulty == faulty
      ensures this.nodes == nodes && this.nextIno == nextIno && base == nodes
      ensures directories == map[] && files == map[] && order == [] && tree == map[] && made == {} && removed == {} && swapped == {}
    {
      this.fold, this.parent, this.quiet, this.faulty := fold, parent, quiet, faulty;
      this.nodes, this.nextIno, name := nodes, nextIno, "";
      directories, files, order := map[], map[], [];
      base, tree, made, removed, swapped := nodes, map[], {}, {}, {};
    }

    /** What holds whatever the others do. */
    ghost predicate Valid()
      reads this
    {
      && Bounded(nodes, nextIno) && Rooted(directories, files) && Ordered(order, files)
      && OwnOnly(directories, files, made, swapped, removed) && Below(directories, nextIno)
    }

    /** What holds when nobody else interferes. */
    ghost predicate Intact()
      reads this
    {
      quiet ==> Rep(fold, nodes, base, parent, name, tree) && Noted(directories, files, tree) && swapped == {}
    }

    /** One system call is about to happen: the others may have run, and the call may fail. */
    method Step() returns (fault: bool)
      requires Bounded(nodes, nextIno)
      modifies `nodes
      ensures Bounded(nodes, nextIno) && (quiet ==> nodes == old(nodes)) && (!faulty ==> !fault)
    {
      if !quiet {
        var havoc: Nodes :| Bounded(havoc, nextIno);
        nodes := havoc;
      }
      fault := *;
      fault := fault && faulty;
    }

    method StatAt(d: Ino, n: Name) returns (r: Result<Ino>)
      requires Bounded(nodes, nextIno)
      modifies `nodes
      ensures r.Err? ==> r.code != CleanupFailed
      ensures Bounded(nodes, nextIno) && (quiet ==> nodes == old(nodes))
      ensures r.Ok? ==> Leads(fold, nodes, d, n, r.value) && r.value < nextIno
      ensures quiet && !faulty ==> (r.Ok? <==> Named(fold, nodes, d, n))
    {
      var fault := Step();
      if fault || !Named(fold, nodes, d, n) { return Err(Io); }
      return Ok(nodes[d].entries[fold(n)].ino);
    }

    /** directory(parts): open the recorded directories one below the other, checking each identity. */
    method EnterDirectory(parts: Path) returns (r: Result<Ino>)
      requires Valid() && parts in directories
      modifies `nodes
      ensures r.Err? ==> r.code != CleanupFailed
      ensures Valid() && (quiet ==> nodes == old(nodes))
      ensures r.Ok? ==> r.value == directories[parts]
      ensures quiet && r.Ok? ==> Reachable(fold, nodes, directories, parts)
      ensures quiet && !faulty ==> (r.Ok? <==> Reachable(fold, nodes, directories, parts))
    {
      var descriptor, depth := directories[[]], 0;
      assert parts[..0] == [];
      while depth < |parts|
        invariant 0 <= depth <= |parts| && Valid() && (quiet ==> nodes == old(nodes))
        invariant parts[..depth] in directories && descriptor == directories[parts[..depth]]
        invariant quiet ==> forall k {:trigger StepLeads(fold, nodes, directories, parts, k)} | 0 <= k < depth :: StepLeads(fold, nodes, directories, parts, k)
      {
        PrefixIn(directories, files, parts, depth + 1);
        var child := StatAt(descriptor, parts[depth]);
        assert quiet && !faulty && child.Err? ==> !StepLeads(fold, nodes, directories, parts, depth);
        if child.Err? { return child; }
        if !DirAt(nodes, child.value) || child.value != directories[parts[..depth + 1]] {
          assert quiet ==> !StepLeads(fold, nodes, directories, parts, depth);
          return Err(Changed);
        }
        assert quiet ==> StepLeads(fold, nodes, directories, parts, depth);
        descriptor, depth := child.value, depth + 1;
      }
      assert parts[..depth] == parts;
      return Ok(descriptor);
    }

    /** The end of directory(parts): every name on the way must still lead to the open directory. */
    method LeaveDirectory(parts: Path) returns (r: Result<()>)
      requires Valid() && parts in directories
      modifies `nodes
      ensures r.Err? ==> r.code != CleanupFailed
      ensures Valid() && (quiet ==> nodes == old(nodes))
      ensures quiet && r.Ok? ==> Reachable(fold, nodes, directories, parts)
      ensures quiet && !faulty && Reachable(fold, nodes, directories, parts) ==> r.Ok?
    {
      var depth := |parts|;
      while depth > 0
        invariant 0 <= depth <= |parts| && Valid() && (quiet ==> nodes == old(nodes))
        invariant quiet ==> forall k {:trigger StepLeads(fold, nodes, directories, parts, k)} | depth <= k < |parts| :: StepLeads(fold, nodes, directories, parts, k)
      {
        PrefixIn(directories, files, parts, depth);
        PrefixIn(directories, files, parts, depth - 1);
        assert quiet && Reachable(fold, nodes, directories, parts) ==> StepLeads(fold, nodes, directories, parts, depth - 1);
        var child :- StatAt(directories[parts[..depth - 1]], parts[depth - 1]);
        if !DirAt(nodes, child) || child != directories[parts[..depth]] { return Err(Changed); }
        assert quiet ==> StepLeads(fold, nodes, directories, parts, depth - 1);
        depth := depth - 1;
      }
      return Ok(());
    }

    // ---------------------------------------------------------- beginning

    ghost predicate Untouched()
      reads this
    {
      && Bounded(nodes, nextIno) && base == nodes && directories == map[] && files == map[] && order == []
      && tree == map[] && made == {} && removed == {} && swapped == {}
    }

    /** The mkdir loop: at most eight random names; Some is the new root's inode. */
    method MakeRoot(tries: seq<Name>) returns (r: Result<Ino>)
      requires Untouched()
      modifies `nodes, `nextIno, `name, `made
      ensures Bounded(nodes, nextIno)
      ensures r.Err? ==> r.code != CleanupFailed
      ensures r.Err? ==> quiet ==> nodes == old(nodes)
      ensures r.Ok? ==> made == {r.value}
      ensures r.Ok? && quiet ==>
        && DirAt(base, parent) && fold(name) !in base[parent].entries && r.value !in base
        && exists mode :: nodes == Linked(fold, base, parent, name, r.value)[r.value := Dir(map[], mode)]
      ensures quiet && !faulty && DirAt(base, parent) ==>
        (r.Ok? <==> exists k :: 0 <= k < |tries| && fold(tries[k]) !in base[parent].entries)
      ensures quiet && !faulty && DirAt(base, parent) && r.Err? ==> r.code == Conflict
    {
      var k := 0;
      while k < |tries|
        invariant 0 <= k <= |tries| && Bounded(nodes, nextIno) && (quiet ==> nodes == old(nodes)) && made == {}
        invariant nextIno == old(nextIno)
        invariant quiet && !faulty && DirAt(base, parent) ==>
          forall j | 0 <= j < k :: fold(tries[j]) in base[parent].entries
      {
        name := tries[k];
        var fault := Step();
        if fault || !DirAt(nodes, parent) { return Err(Io); }
        if fold(name) !in nodes[parent].entries {
          var i := nextIno;
          var mode: int := *;
          nodes := Linked(fold, nodes, parent, name, i)[i := Dir(map[], if mode < 0 then 0 else mode)];
          nextIno := nextIno + 1;
          made := {i};
          return Ok(i);
        }
        k := k + 1;
      }
      return Err(Conflict);
    }

    /** The rest of initialization, once the open root's identity is recorded. */
    method OpenRoot(contents: map<Path, Content>) returns (r: Result<()>)
      requires Valid() && Intact() && directories.Keys == {[]} && files == map[]
      requires quiet ==> NoStrays(directories, files, tree)
      modifies `nodes
      ensures Valid() && Intact()
      ensures r.Err? ==> r.code != CleanupFailed
      ensures r.Ok? ==> Neat(contents)
      ensures quiet && !faulty ==> r.Ok?
    {
      var fault := Step();
      if fault { return Err(WriteFailed); }
      if quiet {
        assert DirNoted(directories, tree, []) && SpotOk(fold, nodes, tree, []);
        ChmodNeat(fold, nodes, base, parent, name, tree, directories, files, contents, []);
        RootFound(fold, nodes[directories[[]] := Dir(nodes[directories[[]]].entries, DIR_MODE)], base, parent, name, tree, directories);
      }
      if DirAt(nodes, directories[[]]) {
        nodes := nodes[directories[[]] := Dir(nodes[directories[[]]].entries, DIR_MODE)];
      }
      r := CheckRoot();
      if r.Err? && r.code == Io { r := Err(WriteFailed); }
    }

    /**
      The constructor: a new private root, or nothing left behind, or an explicit cleanup failure. calm says that
      nothing fails by itself while an initialization is rolled back; lost, that the root was made but not recorded.
    */
    method Begin(tries: seq<Name>, calm: bool) returns (r: Result<()>, ghost lost: bool)
      requires Untouched() && |tries| == NAME_TRIES
      modifies this
      ensures OwnOnly(directories, files, made, swapped, removed) && base == old(base)
      ensures r.Ok? ==> Valid() && Intact() && Neat(map[]) && directories.Keys == {[]} && files == map[] && removed == {}
      ensures r.Ok? ==> faulty == old(faulty) && !lost
      ensures quiet && r.Err? && r.code != CleanupFailed ==> nodes == base
      ensures quiet && calm ==> (r.Err? && r.code == CleanupFailed <==> lost)
      ensures quiet && !old(faulty) && DirAt(base, parent) ==>
        !lost && (r.Ok? || (r.code == Conflict && forall k | 0 <= k < |tries| :: fold(tries[k]) in base[parent].entries))
    {
      lost := false;
      var root := MakeRoot(tries);
      if root.Err? { return Err(root.code), false; }
      var i := root.value;
      if quiet {
        ghost var mode :| nodes == Linked(fold, base, parent, name, i)[i := Dir(map[], mode)];
        RepRoot(fold, base, parent, name, i, mode);
      }
      var recorded := RecordRoot(i);
      if recorded.Err? { return Err(CleanupFailed), true; }
      r := FinishRoot(calm);
    }

    /** The rest of initialization, and its rollback. */
    method FinishRoot(calm: bool) returns (r: Result<()>)
      requires Valid() && Intact() && directories.Keys == {[]} && files == map[] && removed == {}
      requires quiet ==> NoStrays(directories, files, tree)
      modifies `nodes, `faulty, `removed, `tree
      ensures Valid()
      ensures r.Ok? ==> Intact() && Neat(map[]) && removed == {} && faulty == old(faulty)
      ensures quiet && r.Err? && r.code != CleanupFailed ==> nodes == base
      ensures quiet && calm && r.Err? ==> r.code != CleanupFailed
      ensures quiet && !old(faulty) ==> r.Ok?
    {
      r := OpenRoot(map[]);
      if r.Err? {
        faulty := faulty && !calm;
        var cleaned := Cleanup();
        var close: bool := *;
        if cleaned.Err? || (close && faulty) { r := Err(CleanupFailed); }
      }
    }

    /** stat, open and fstat of the new root: what they agree on is recorded as the tree's own. */
    method RecordRoot(i: Ino) returns (r: Result<()>)
      requires Bounded(nodes, nextIno) && directories == map[] && files == map[] && order == [] && removed == {} && swapped == {} && made == {i}
      requires quiet ==> Rep(fold, nodes, base, parent, name, map[[] := Spot(i, true)])
      modifies `nodes, `directories, `tree, `swapped
      ensures Bounded(nodes, nextIno) && (quiet ==> nodes == old(nodes))
      ensures r.Err? ==> directories == map[] && swapped == {}
      ensures r.Ok? ==> Valid() && Intact() && directories.Keys == {[]} && swapped == (if directories[[]] == i then {} else {[]})
      ensures quiet && r.Ok? ==> NoStrays(directories, files, tree)
      ensures r.Ok? ==> RootNamed(fold, nodes, parent, name, directories)
      ensures quiet && !faulty ==> r.Ok?
    {
      if quiet { assert SpotOk(fold, nodes, map[[] := Spot(i, true)], []); }
      var before :- StatAt(parent, name);
      var held :- StatAt(parent, name);
      if !DirAt(nodes, held) || held != before { return Err(Changed); }
      RootRecorded(made, held, i, nextIno);
      directories := map[[] := held];
      swapped := if held == i then {} else {[]};
      tree := map[[] := Spot(held, true)];
      return Ok(());
    }

    // ---------------------------------------------------------- writing

    ghost predicate Neat(contents: map<Path, Content>)
      reads this
    {
      quiet ==> Tidy(nodes, directories, files, tree, contents)
    }

    /** mkdir or an exclusive create of the name n in the recorded directory p. */
    method CreateAt(p: Path, n: Name, dir: bool) returns (r: Result<Ino>, ghost node: Node)
      requires Valid() && Intact() && p in directories && removed == {}
      modifies `nodes, `nextIno, `tree, `made
      ensures r.Err? ==> r.code != CleanupFailed
      ensures Valid() && Intact()
      ensures quiet && r.Err? ==> nodes == old(nodes) && tree == old(tree)
      ensures if dir then node.Dir? && node.entries == map[] else node.File? && node.bytes == [] && node.nlink == 1
      ensures r.Ok? ==> made == old(made) + {r.value}
      ensures r.Ok? && quiet ==>
        && p + [n] !in old(tree) && tree == old(tree)[p + [n] := Spot(r.value, dir)]
        && r.value !in old(nodes) && DirAt(old(nodes), directories[p])
        && nodes == Linked(fold, old(nodes), directories[p], n, r.value)[r.value := node]
      ensures quiet && !faulty && DirAt(old(nodes), directories[p]) && fold(n) !in old(nodes)[directories[p]].entries ==> r.Ok?
    {
      var mode: int := *;
      var blank := if dir then Dir(map[], if mode < 0 then 0 else mode) else File([], if mode < 0 then 0 else mode, 1);
      node := blank;
      var d := directories[p];
      var fault := Step();
      if fault || !DirAt(nodes, d) { return Err(Io), node; }
      if fold(n) in nodes[d].entries { return Err(Exists), node; }
      var i := AddNode(p, n, blank);
      return Ok(i), node;
    }

    /** A new node appears under the free name n of the recorded directory p. */
    method AddNode(p: Path, n: Name, blank: Node) returns (i: Ino)
      requires Valid() && Intact() && p in directories
      requires DirAt(nodes, directories[p]) && fold(n) !in nodes[directories[p]].entries
      requires (blank.Dir? && blank.entries == map[]) || (blank.File? && blank.nlink == 1)
      modifies `nodes, `nextIno, `tree, `made
      ensures Valid() && Intact()
      ensures made == old(made) + {i} && i !in old(nodes)
      ensures nodes == Linked(fold, old(nodes), directories[p], n, i)[i := blank]
      ensures tree == old(tree)[p + [n] := Spot(i, blank.Dir?)] && (quiet ==> p + [n] !in old(tree))
    {
      i := nextIno;
      if quiet { CreatedNoted(fold, nodes, base, parent, name, tree, directories, files, p, n, i, blank); }
      FreshMade(directories, files, made, swapped, removed, i);
      nodes := Linked(fold, nodes, directories[p], n, i)[i := blank];
      nextIno := nextIno + 1;
      made := made + {i};
      tree := tree[p + [n] := Spot(i, blank.Dir?)];
    }

    /**
      Make the new directory n of p and record what its name leads to then; its mode is still what the creation
      left. lost: it was made, and the stat that records it failed.
    */
    method MakeDirectory(p: Path, n: Name, ghost contents: map<Path, Content>) returns (r: Result<()>, ghost lost: bool)
      requires Valid() && Intact() && Neat(contents) && p in directories && p + [n] !in directories && removed == {}
      modifies `nodes, `nextIno, `tree, `made, `directories, `swapped
      ensures Valid() && Intact()
      ensures quiet ==> (lost <==> !NoStrays(directories, files, tree))
      ensures lost ==> r.Err?
      ensures quiet && r.Err? ==> if lost then tree.Keys == old(tree).Keys + {p + [n]} else tree == old(tree) && nodes == old(nodes)
      ensures quiet && !faulty ==> !lost
      ensures r.Err? ==> r.code != CleanupFailed
      ensures r.Err? ==> directories == old(directories)
      ensures r.Ok? ==> p + [n] in directories && directories == old(directories)[p + [n] := directories[p + [n]]]
      ensures r.Ok? ==> swapped == old(swapped) + if directories[p + [n]] in made then {} else {p + [n]}
      ensures quiet && r.Ok? ==>
        && TidyBut(nodes, directories, files, tree, contents, p + [n])
        && tree == old(tree)[p + [n] := Spot(directories[p + [n]], true)]
      ensures quiet && !faulty && DirAt(old(nodes), directories[p]) && fold(n) !in old(nodes)[directories[p]].entries ==> r.Ok?
    {
      lost := false;
      var q := p + [n];
      var i, node := CreateAt(p, n, true);
      if i.Err? { return Err(i.code), false; }
      r := RecordDirectory(p, n);
      if r.Err? { return r, true; }
      if quiet {
        NotedMore(old(directories), files, old(tree), q, Spot(i.value, true));
        TidyGrows(fold, old(nodes), base, parent, name, old(tree), old(directories), files, contents, p, n, i.value, node);
      }
    }

    /** The stat after mkdir: whatever the name leads to now is recorded as the tree's directory. */
    method RecordDirectory(p: Path, n: Name) returns (r: Result<()>)
      requires Valid() && p in directories && p + [n] !in directories && removed == {}
      modifies `nodes, `directories, `swapped
      ensures Valid() && (quiet ==> nodes == old(nodes))
      ensures r.Err? ==> r.code != CleanupFailed && directories == old(directories) && swapped == old(swapped)
      ensures r.Ok? ==>
        && p + [n] in directories && directories == old(directories)[p + [n] := directories[p + [n]]]
        && swapped == old(swapped) + if directories[p + [n]] in made then {} else {p + [n]}
      ensures quiet && r.Ok? ==> Leads(fold, nodes, old(directories)[p], n, directories[p + [n]])
      ensures quiet && !faulty ==> (r.Ok? <==> Named(fold, nodes, old(directories)[p], n))
    {
      var q := p + [n];
      var found :- StatAt(directories[p], n);
      assert Init(q) == p;
      RootedMore(directories, files, q, found);
      OwnDirectory(directories, files, made, swapped, q, found);
      BelowRecorded(directories, nextIno, q, found);
      directories := directories[q := found];
      if found !in made { swapped := swapped + {q}; }
      return Ok(());
    }

    /** Open the recorded directory q by name, check its identity and make it private. */
    method OpenPrivate(q: Path, ghost contents: map<Path, Content>) returns (r: Result<()>)
      requires Valid() && Intact() && q in directories && q != []
      requires quiet ==> TidyBut(nodes, directories, files, tree, contents, q)
      modifies `nodes
      ensures r.Err? ==> r.code != CleanupFailed
      ensures Valid() && Intact()
      ensures r.Ok? ==> Neat(contents)
      ensures quiet && !faulty ==> r.Ok?
    {
      assert RootedAt(directories, files, q);
      if quiet { OpenNoted(fold, nodes, base, parent, name, tree, directories, files, q); }
      var child :- StatAt(directories[Init(q)], Last(q));
      if !DirAt(nodes, child) || child != directories[q] { return Err(Changed); }
      var fault: bool := *;
      if fault && faulty { return Err(Io); }
      if quiet { ChmodNeat(fold, nodes, base, parent, name, tree, directories, files, contents, q); }
      nodes := nodes[child := Dir(nodes[child].entries, DIR_MODE)];
      return Ok(());
    }

    /** One name of directory(parts, create=True): make and record it if it is new, then open it. */
    method StepInto(p: Path, n: Name, ghost contents: map<Path, Content>) returns (r: Result<()>, ghost lost: bool)
      requires Valid() && Intact() && Neat(contents) && p in directories && removed == {}
      modifies `nodes, `nextIno, `tree, `made, `directories, `swapped
      ensures Valid() && Intact()
      ensures quiet ==> (lost <==> !NoStrays(directories, files, tree))
      ensures lost ==> r.Err?
      ensures quiet && !faulty ==> !lost
      ensures r.Err? ==> r.code != CleanupFailed
      ensures r.Ok? ==> Neat(contents)
      ensures directories == old(directories)
        || (p + [n] !in old(directories) && p + [n] in directories && directories == old(directories)[p + [n] := directories[p + [n]]])
      ensures r.Ok? ==> p + [n] in directories
      ensures quiet && r.Ok? ==> Stepped(old(tree), tree, directories, p + [n])
      ensures (quiet && !faulty && DirAt(old(nodes), old(directories)[p])
        && (p + [n] in old(directories) || fold(n) !in old(nodes)[old(directories)[p]].entries)) ==> r.Ok?
    {
      if p + [n] !in directories {
        r, lost := MakeDirectory(p, n, contents);
        if r.Err? { return; }
      } else if quiet {
        assert DirNoted(directories, tree, p + [n]);
      }
      lost := false;
      r := OpenPrivate(p + [n], contents);
    }

    /** The same for the next name of path, on top of the directories C. */
    method StepAlong(path: Path, depth: nat, ghost contents: map<Path, Content>, ghost C: Idents) returns (r: Result<()>, ghost lost: bool)
      requires Valid() && Intact() && Neat(contents) && removed == {}
      requires depth + 1 < |path| && path[..depth] in directories && Extended(C, directories, path)
      modifies `nodes, `nextIno, `tree, `made, `directories, `swapped
      ensures Valid() && Intact()
      ensures quiet ==> (lost <==> !NoStrays(directories, files, tree))
      ensures lost ==> r.Err?
      ensures quiet && !faulty ==> !lost
      ensures r.Err? ==> r.code != CleanupFailed
      ensures r.Ok? ==> Neat(contents) && path[..depth + 1] in directories && Extended(C, directories, path)
      ensures quiet && !faulty && Room(fold, old(tree), path) ==> r.Ok? && Room(fold, tree, path)
    {
      ghost var D, T := directories, tree;
      assert path[..depth] + [path[depth]] == path[..depth + 1];
      if quiet && !faulty && Room(fold, T, path) {
        RoomFree(fold, nodes, base, parent, name, T, D, files, path, depth);
      }
      r, lost := StepInto(path[..depth], path[depth], contents);
      if r.Err? { return; }
      if quiet && Room(fold, T, path) { RoomMore(fold, T, path, depth, directories[path[..depth + 1]]); }
      ExtendedMore(C, D, directories, path, depth + 1);
    }

    /** directory(parts, create=True): every directory above the last name of path, made where it is missing. */
    method MakeDirectories(path: Path, ghost contents: map<Path, Content>) returns (r: Result<()>, ghost lost: bool)
      requires Valid() && Intact() && Neat(contents) && path != [] && removed == {}
      modifies `nodes, `nextIno, `tree, `made, `directories, `swapped
      ensures Valid() && Intact()
      ensures quiet ==> (lost <==> !NoStrays(directories, files, tree))
      ensures lost ==> r.Err?
      ensures quiet && !faulty ==> !lost
      ensures r.Err? ==> r.code != CleanupFailed
      ensures r.Ok? ==> Neat(contents) && Init(path) in directories
      ensures r.Ok? ==> Extended(old(directories), directories, path)
      ensures quiet && !faulty && Room(fold, old(tree), path) ==> r.Ok? && Room(fold, tree, path)
    {
      var depth := 0;
      assert path[..0] == [];
      while depth < |path| - 1
        invariant 0 <= depth <= |path| - 1 && Valid() && Intact() && Neat(contents) && path[..depth] in directories
        invariant Extended(old(directories), directories, path)
        invariant quiet && !faulty && Room(fold, old(tree), path) ==> Room(fold, tree, path)
      {
        r, lost := StepAlong(path, depth, contents, old(directories));
        if r.Err? { return; }
        depth := depth + 1;
      }
      return Ok(()), false;
    }

    /** Create the file n of p exclusively and record what fstat says of it; lost: the fstat failed. */
    method CreateFile(p: Path, n: Name, ghost contents: map<Path, Content>) returns (r: Result<Ino>, ghost lost: bool)
      requires Valid() && Intact() && Neat(contents) && p in directories && removed == {}
      modifies `nodes, `nextIno, `tree, `made, `files, `order
      ensures Valid() && Intact()
      ensures quiet ==> (lost <==> !NoStrays(directories, files, tree))
      ensures lost ==> r.Err? && faulty
      ensures quiet && r.Err? ==> if lost then tree.Keys == old(tree).Keys + {p + [n]} else tree == old(tree) && nodes == old(nodes)
      ensures r.Err? ==> r.code != CleanupFailed
      ensures r.Ok? ==> p + [n] in files && r.value == files[p + [n]] && files == old(files)[p + [n] := r.value]
      ensures quiet && r.Ok? ==>
        && TidyBut(nodes, directories, files, tree, contents, p + [n])
        && FileAt(nodes, r.value) && nodes[r.value].bytes == []
      ensures quiet && !faulty && DirAt(old(nodes), directories[p]) && fold(n) !in old(nodes)[directories[p]].entries ==> r.Ok?
    {
      lost := false;
      var q := p + [n];
      var i, node := CreateAt(p, n, false);
      if i.Err? { return Err(i.code), false; }
      var fault: bool := *;
      if fault && faulty { return Err(Io), true; }
      if quiet {
        NotedMore(directories, files, old(tree), q, Spot(i.value, false));
        TidyGrows(fold, old(nodes), base, parent, name, old(tree), directories, files, contents, p, n, i.value, node);
      }
      assert Init(q) == p;
      RootedMore(directories, files, q, i.value);
      OwnFile(directories, files, made, swapped, q, i.value);
      OrderedMore(order, files, q, i.value);
      if q !in files { order := order + [q]; }
      files := files[q := i.value];
      return Ok(i.value), false;
    }

    /** Change the open file behind path, if it is still there. */
    method Touch(path: Path, bytes: Content, mode: nat, ghost contents: map<Path, Content>)
      requires Valid() && Intact() && path in files
      requires quiet ==> TidyBut(nodes, directories, files, tree, contents, path)
      modifies `nodes
      ensures Valid() && Intact()
      ensures quiet ==>
        && TidyBut(nodes, directories, files, tree, contents, path)
        && files[path] in nodes && nodes[files[path]] == File(bytes, mode, 1)
    {
      var i := files[path];
      if quiet { FileTouched(fold, nodes, base, parent, name, tree, directories, files, contents, path, bytes, mode); }
      if FileAt(nodes, i) { nodes := nodes[i := File(bytes, mode, nodes[i].nlink)]; }
    }

    /** The new file gets its mode and its bytes, piece by piece, and is looked at again by name. */
    method FillFile(path: Path, content: Content, ghost contents: map<Path, Content>) returns (r: Result<()>)
      requires Valid() && Intact() && path in files
      requires quiet ==> TidyBut(nodes, directories, files, tree, contents, path)
      modifies `nodes
      ensures r.Err? ==> r.code != CleanupFailed
      ensures Valid() && Intact()
      ensures r.Ok? ==> Neat(contents[path := content]) && Placed(fold, nodes, directories, files, path, |content|)
      ensures quiet && !faulty ==> r.Ok?
    {
      assert RootedAt(directories, files, path);
      var fault := Step();
      if fault { return Err(Io); }
      Touch(path, [], FILE_MODE, contents);
      var done := 0;
      assert content[..0] == [];
      while done < |content|
        invariant 0 <= done <= |content| && Valid() && Intact()
        invariant quiet ==> TidyBut(nodes, directories, files, tree, contents, path)
        invariant quiet ==> files[path] in nodes && nodes[files[path]] == File(content[..done], FILE_MODE, 1)
      {
        fault := Step();
        if fault { return Err(Io); }
        var count: int := *;
        if count <= 0 && faulty { return Err(WriteFailed); }
        if count <= 0 || done + count > |content| { count := 1; }
        Touch(path, content[..done + count], FILE_MODE, contents);
        done := done + count;
      }
      assert content[..done] == content;
      fault := Step();
      if fault { return Err(Io); }
      if quiet { FileNamed(fold, nodes, base, parent, name, tree, directories, files, path); }
      var i :- StatAt(directories[Init(path)], Last(path));
      if i != files[path] || !FileAt(nodes, i) || nodes[i].nlink != 1 || |nodes[i].bytes| != |content| {
        return Err(Changed);
      }
      if quiet { FileFinished(nodes, directories, files, tree, contents, path, content); }
      return Ok(());
    }

    /** Create the file behind path in its recorded directory and fill it. */
    method PutFile(path: Path, content: Content, ghost contents: map<Path, Content>) returns (r: Result<()>, ghost lost: bool)
      requires Valid() && Intact() && Neat(contents) && path != [] && Init(path) in directories && removed == {}
      modifies `nodes, `nextIno, `tree, `made, `files, `order
      ensures Valid() && Intact()
      ensures quiet ==> (lost <==> !NoStrays(directories, files, tree))
      ensures lost ==> r.Err? && faulty
      ensures r.Err? ==> r.code != CleanupFailed
      ensures r.Ok? ==> Neat(contents[path := content]) && files.Keys == old(files).Keys + {path}
      ensures r.Ok? ==> Placed(fold, nodes, directories, files, path, |content|)
      ensures quiet && !faulty && Room(fold, old(tree), path) ==> r.Ok?
    {
      assert Init(path) + [Last(path)] == path;
      if quiet && Room(fold, tree, path) { RoomForFile(fold, nodes, base, parent, name, tree, directories, files, path); }
      var i;
      i, lost := CreateFile(Init(path), Last(path), contents);
      if i.Err? { return Err(i.code), lost; }
      r := FillFile(path, content, contents);
    }

    /**
      write: make the directories, put the file into the last of them, and look back along the way. Something
      unrecorded is left exactly when the stat or fstat that records a creation failed (lost).
    */
    method Write(path: Path, content: Content, ghost contents: map<Path, Content>) returns (r: Result<()>, ghost lost: bool)
      requires Valid() && Intact() && Neat(contents) && path != [] && removed == {}
      modifies `nodes, `nextIno, `tree, `made, `directories, `files, `order, `swapped
      ensures Valid() && Intact()
      ensures quiet ==> (lost <==> !NoStrays(directories, files, tree))
      ensures lost ==> r.Err?
      ensures quiet && !faulty ==> !lost
      ensures r.Err? ==> r.code != CleanupFailed
      ensures r.Ok? ==> Neat(contents[path := content])
      ensures r.Ok? ==> Extended(old(directories), directories, path) && files.Keys == old(files).Keys + {path}
      ensures quiet && !faulty && Room(fold, old(tree), path) ==> r.Ok?
    {
      r, lost := MakeDirectories(path, contents);
      if r.Err? { return; }
      r, lost := PutFile(path, content, contents);
      if r.Err? { return; }
      if quiet { NotedReachable(fold, nodes, base, parent, name, tree, directories, files, Init(path)); }
      r := LeaveDirectory(Init(path));
    }

    // ---------------------------------------------------------- checking

    method CheckRoot() returns (r: Result<()>)
      requires Valid()
      modifies `nodes
      ensures r.Err? ==> r.code != CleanupFailed
      ensures Valid() && (quiet ==> nodes == old(nodes))
      ensures r.Ok? ==> RootNamed(fold, nodes, parent, name, directories)
      ensures quiet && !faulty ==> (r.Ok? <==> RootNamed(fold, nodes, parent, name, directories))
    {
      var i :- StatAt(parent, name);
      if !DirAt(nodes, i) || i != directories[[]] { return Err(Changed); }
      return Ok(());
    }

    /** The body of sync_and_check for one directory: its listing against the records. */
    method CheckLevel(p: Path) returns (r: Result<()>)
      requires Valid() && p in directories
      modifies `nodes
      ensures r.Err? ==> r.code != CleanupFailed
      ensures Valid() && (quiet ==> nodes == old(nodes))
      ensures quiet && r.Ok? && FoldedAt(fold, nodes, directories, p) ==> LevelOk(fold, nodes, directories, files, p)
      ensures quiet && !faulty && LevelOk(fold, nodes, directories, files, p) && FoldedAt(fold, nodes, directories, p) ==> r.Ok?
    {
      var d, expected := directories[p], ChildNames(directories, files, p);
      var fault := Step();
      if fault || !DirAt(nodes, d) { return Err(Io); }
      var entries := nodes[d].entries;
      var rest, seen: set<Name> := entries.Keys, {};
      while rest != {}
        invariant rest <= entries.Keys && Valid() && (quiet ==> nodes == old(nodes))
        invariant forall n | n in seen :: n in expected
        invariant forall n :: n in seen <==> exists k :: k in entries && k !in rest && entries[k].display == n
        invariant quiet ==> forall k | k in entries && k !in rest :: EntryPasses(nodes, directories, files, p, entries[k])
      {
        var k :| k in rest;
        var link := entries[k];
        r := CheckEntry(p, link, expected, seen);
        if r.Err? {
          if quiet && FoldedAt(fold, nodes, directories, p) { SeenOnce(fold, entries, rest, k); }
          return;
        }
        rest, seen := rest - {k}, seen + {link.display};
      }
      if quiet && FoldedAt(fold, nodes, directories, p) { AllShown(fold, nodes, d, expected, seen); }
      if seen != expected { return Err(Changed); }
      fault := Step();
      if fault || !PrivateDir(nodes, d) { return Err(Changed); }
      return Ok(());
    }

    /** One listed entry: an expected name, not seen before, with its recorded identity, kind and mode. */
    method CheckEntry(p: Path, link: Link, expected: set<Name>, seen: set<Name>) returns (r: Result<()>)
      requires Valid() && expected == ChildNames(directories, files, p)
      modifies `nodes
      ensures r.Err? ==> r.code != CleanupFailed
      ensures Valid() && (quiet ==> nodes == old(nodes))
      ensures r.Ok? ==> link.display in expected && link.display !in seen
      ensures quiet && r.Ok? ==> EntryPasses(nodes, directories, files, p, link)
      ensures quiet && !faulty && link.display !in seen && EntryPasses(nodes, directories, files, p, link) ==> r.Ok?
    {
      var q := p + [link.display];
      ChildName(directories, files, p, link.display);
      if link.display !in expected || link.display in seen { return Err(Changed); }
      var fault := Step();
      if fault { return Err(Io); }
      if q in files {
        if link.ino != files[q] || !PrivateFile(nodes, link.ino) { return Err(Changed); }
      } else {
        if link.ino != directories[q] || !PrivateDir(nodes, link.ino) { return Err(Changed); }
      }
      return Ok(());
    }

    /** sync_and_check: every recorded directory, deepest first, then the root's own name. */
    method SyncAndCheck() returns (r: Result<()>)
      requires Valid()
      modifies `nodes
      ensures r.Err? ==> r.code != CleanupFailed
      ensures Valid() && (quiet ==> nodes == old(nodes))
      ensures r.Ok? ==> RootNamed(fold, nodes, parent, name, directories)
      ensures quiet && directories.Keys !! files.Keys && AllFolded(fold, nodes, directories) ==>
        && (r.Ok? ==> Mirrors(fold, nodes, parent, name, directories, files))
        && (!faulty && Mirrors(fold, nodes, parent, name, directories, files) ==> r.Ok?)
    {
      ghost var plain := quiet && directories.Keys !! files.Keys && AllFolded(fold, nodes, directories);
      var rest := directories.Keys;
      while rest != {}
        invariant rest <= directories.Keys && Valid() && (quiet ==> nodes == old(nodes))
        invariant plain ==> forall q {:trigger LevelOk(fold, nodes, directories, files, q)} | q in directories && q !in rest ::
          LevelOk(fold, nodes, directories, files, q)
      {
        Longest(rest);
        var p :| p in rest && forall q | q in rest :: |q| <= |p|;
        assert plain ==> FoldedAt(fold, nodes, directories, p);
        if plain && Mirrors(fold, nodes, parent, name, directories, files) {
          MirrorLevel(fold, nodes, parent, name, directories, files, p);
        }
        var d :- EnterDirectory(p);
        var level :- CheckLevel(p);
        var left :- LeaveDirectory(p);
        rest := rest - {p};
      }
      var fault := Step();
      if fault { return Err(Io); }
      r := CheckRoot();
      if plain && r.Ok? {
        forall p ensures MirrorsAt(fold, nodes, directories, files, p) { LevelsMirror(fold, nodes, directories, files, p); }
      }
    }

    // ---------------------------------------------------------- cleanup

    /** The identity check and the removal of one name, taken as one step. */
    method RemoveChecked(d: Ino, n: Name, wanted: Ino, dir: bool) returns (r: Result<()>)
      requires Bounded(nodes, nextIno)
      modifies `nodes, `removed
      ensures Bounded(nodes, nextIno)
      ensures r.Err? ==> removed == old(removed) && (quiet ==> nodes == old(nodes))
      ensures r.Ok? ==> removed == old(removed) + {wanted}
      ensures r.Ok? && quiet ==> Removable(fold, old(nodes), d, n, wanted, dir)
      ensures r.Ok? && quiet && (dir || old(nodes)[wanted].nlink <= 1) ==> nodes == Removed(fold, old(nodes), d, n, wanted)
      ensures r.Ok? && quiet && !dir && old(nodes)[wanted].nlink > 1 ==>      // another name keeps the file
        && nodes.Keys == old(nodes).Keys && FileAt(nodes, wanted) && nodes[wanted].bytes == old(nodes)[wanted].bytes
        && nodes[wanted].nlink == old(nodes)[wanted].nlink - 1 && !Named(fold, nodes, d, n)
      ensures quiet && !faulty && Removable(fold, old(nodes), d, n, wanted, dir) ==> r.Ok?
    {
      var found :- StatAt(d, n);
      if found != wanted || found !in nodes || (if dir then !nodes[found].Dir? else !nodes[found].File?) {
        return Err(CleanupFailed);
      }
      var fault: bool := *;
      if (fault && faulty) || (dir && nodes[found].entries != map[]) { return Err(Io); }
      var after := Unlinked(fold, nodes, d, n);
      if !dir && nodes[found].nlink > 1 {
        nodes := if after[found].File? then after[found := after[found].(nlink := nodes[found].nlink - 1)] else after;
      } else {
        nodes := after - {found};
      }
      removed := removed + {found};
      return Ok(());
    }

    /** One recorded name of cleanup: open its directory, remove it by identity, look back. */
    method RemoveRecorded(q: Path, dir: bool) returns (r: Result<()>)
      requires Valid() && q != [] && (if dir then q in directories else q in files)
      requires quiet ==> Left(fold, nodes, base, parent, name, tree, directories, files) && q in tree
      modifies `nodes, `removed, `tree
      ensures Valid()
      ensures r.Ok? && quiet ==>
        Left(fold, nodes, base, parent, name, tree, directories, files) && tree == old(tree) - {q}
      ensures quiet && !faulty && Leaf(old(tree), q) ==> r.Ok?
    {
      assert RootedAt(directories, files, q);
      var p, wanted := Init(q), if dir then directories[q] else files[q];
      ghost var T, before := tree, nodes;
      if quiet { ReadyToRemove(fold, before, base, parent, name, T, directories, files, q, dir); }
      var d :- EnterDirectory(p);
      var gone :- RemoveChecked(d, Last(q), wanted, dir);
      if quiet {
        AfterRemoval(fold, before, base, parent, name, T, directories, files, q, dir);
        tree := T - {q};
      }
      var left :- LeaveDirectory(p);
      return Ok(());
    }

    method RemoveFiles() returns (r: Result<()>)
      requires Valid()
      requires quiet ==> Left(fold, nodes, base, parent, name, tree, directories, files) && files.Keys <= tree.Keys
      modifies `nodes, `removed, `tree
      ensures Valid()
      ensures quiet && r.Ok? ==>
        Left(fold, nodes, base, parent, name, tree, directories, files) && tree == old(tree) - files.Keys
      ensures quiet && !faulty ==> r.Ok?
    {
      var i := |order|;
      while i > 0
        invariant 0 <= i <= |order| && Valid()
        invariant quiet ==> Left(fold, nodes, base, parent, name, tree, directories, files)
        invariant quiet ==> tree == old(tree) - Later(order, i)
      {
        i := i - 1;
        OrderedAt(order, files, i);
        if quiet {
          assert order[i] in tree && FileAgrees(files, tree, order[i]);
          EmptyIsLeaf(fold, nodes, base, parent, name, tree, order[i]);
        }
        assert RootedAt(directories, files, order[i]);
        var gone :- RemoveRecorded(order[i], false);
      }
      return Ok(());
    }

    method RemoveDirectories() returns (r: Result<()>)
      requires Valid()
      requires quiet ==> Left(fold, nodes, base, parent, name, tree, directories, files) && directories.Keys <= tree.Keys
      modifies `nodes, `removed, `tree
      ensures Valid()
      ensures quiet && r.Ok? ==>
        && Left(fold, nodes, base, parent, name, tree, directories, files)
        && tree.Keys == old(tree).Keys - (directories.Keys - {[]})
      ensures quiet && !faulty && old(tree).Keys == directories.Keys ==> r.Ok?
    {
      var rest := directories.Keys - {[]};
      ghost var others := tree.Keys - rest;
      while rest != {}
        invariant rest <= directories.Keys && [] !in rest && rest !! others
        invariant Valid() && (quiet ==> Left(fold, nodes, base, parent, name, tree, directories, files))
        invariant quiet ==> tree.Keys == rest + others
      {
        Longest(rest);
        var p :| p in rest && forall q | q in rest :: |q| <= |p|;
        if quiet && others == {[]} { DeepestIsLeaf(tree, rest, p); }
        var gone :- RemoveRecorded(p, true);
        rest := rest - {p};
      }
      return Ok(());
    }

    /**
      cleanup: remove what was recorded, files newest first, then directories deepest first, then the root. It
      brings the former filesystem back, or fails; with nothing in the tree unrecorded it succeeds unless a
      call fails by itself, and with something unrecorded it never does.
    */
    method Cleanup() returns (r: Result<()>)
      requires Valid() && Intact()
      modifies `nodes, `removed, `tree
      ensures Valid()
      ensures quiet && r.Ok? ==> nodes == base && NoStrays(directories, files, old(tree))
      ensures quiet && !faulty ==> (r.Ok? <==> NoStrays(directories, files, old(tree)))
      ensures swapped == {} ==> removed <= made
    {
      if quiet {
        NotedAgrees(directories, files, tree);
        StraysLeft(tree.Keys, directories.Keys, files.Keys);
      }
      r := RemoveFiles();
      if r.Ok? { r := RemoveDirectories(); }
      if r.Ok? { r := RemoveRoot(); }
      if swapped == {} { RemovesOnlyMade(directories, files, made, swapped, removed); }
    }

    method RemoveRoot() returns (r: Result<()>)
      requires Valid()
      requires quiet ==> Left(fold, nodes, base, parent, name, tree, directories, files)
      modifies `nodes, `removed
      ensures Valid()
      ensures quiet && r.Ok? ==> nodes == base && tree.Keys == {[]}
      ensures quiet && !faulty && tree.Keys == {[]} ==> r.Ok?
    {
      ghost var before := nodes;
      if quiet { RootLeft(fold, before, base, parent, name, tree, directories, files); }
      var gone :- RemoveChecked(parent, name, directories[[]], true);
      if quiet { RepUnroot(fold, before, base, parent, name, tree); }
      var fault := Step();
      if fault { return Err(Io); }
      return Ok(());
    }
  }

  /** Whether taking the records away leaves the root alone. */
  lemma StraysLeft(all: set<Path>, D: set<Path>, F: set<Path>)
    requires D <= all && F <= all && D !! F && [] in D
    ensures all - F == D <==> all == D + F
    ensures all - F - (D - {[]}) == {[]} <==> all == D + F
  {
    assert all - F == D ==> all == D + F;
    assert all == D + F ==> all - F - (D - {[]}) == {[]};
    forall p | p in all && all - F - (D - {[]}) == {[]} ensures p in D + F {
      assert p in all - F - (D - {[]}) <==> p == [];
    }
  }

  lemma DeepestIsLeaf(T: Tree, rest: set<Path>, p: Path)
    requires T.Keys == rest + {[]} && p in rest && p != [] && forall q | q in rest :: |q| <= |p|
    ensures Leaf(T, p)
  {
  }

  lemma RootLeft(fold: Fold, nodes: Nodes, base: Nodes, parent: Ino, name: Name, T: Tree, D: Idents, F: Idents)
    requires Left(fold, nodes, base, parent, name, T, D, F) && [] in D
    ensures D[[]] == T[[]].ino
    ensures T.Keys == {[]} ==> Removable(fold, nodes, parent, name, D[[]], true)
  {
    assert SpotOk(fold, nodes, T, []) && DirAgrees(D, T, []);
    if T.Keys == {[]} {
      var entries := nodes[T[[]].ino].entries;
      assert forall k | k in entries :: EntryOk(fold, nodes, T, [], k);
      assert forall k :: k !in entries;
    }
  }
}
