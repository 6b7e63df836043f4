/**
  The path-collision rule of candidate source bundles.

  A path is the sequence of its names; folding (case folding, then normalization) is kept
  abstract and acts name by name.
*/
module PathCollisions {

  type Name = string
  type Path = seq<Name>
  type Fold = Name -> Name

  function Folded(fold: Fold, p: Path): (r: Path)
    ensures |r| == |p| && forall i | 0 <= i < |p| :: r[i] == fold(p[i])
  {
    seq(|p|, i requires 0 <= i < |p| => fold(p[i]))
  }

  datatype Spelling = Spelling(prefix: Path, isFile: bool)

  predicate Distinct(files: seq<Path>) {
    forall i, j | 0 <= i < j < |files| :: files[i] != files[j]
  }

  /** The first k names of a and the first l of b may live in one tree. */
  predicate Coexist(fold: Fold, a: Path, k: nat, b: Path, l: nat)
    requires k <= |a| && l <= |b|
  {
    Folded(fold, a[..k]) == Folded(fold, b[..l]) ==> a[..k] == b[..l] && (k == |a| <==> l == |b|)
  }

  predicate Compatible(fold: Fold, a: Path, b: Path) {
    forall k, l | 0 < k <= |a| && 0 < l <= |b| :: Coexist(fold, a, k, b, l)
  }

  /** No two files share a folded prefix, unless both spell it alike and use it as a directory. */
  predicate Accepted(fold: Fold, files: seq<Path>) {
    Distinct(files) && forall a, b {:trigger Compatible(fold, a, b)} | a in files && b in files :: Compatible(fold, a, b)
  }

  /** nodes holds the prefixes of the first i files and the first d prefixes of the next one. */
  predicate Seen(files: seq<Path>, i: nat, d: nat, a: int, k: int) {
    0 <= a < |files| && 0 < k <= |files[a]| && (a < i || (a == i && k <= d))
  }

  predicate Stored(fold: Fold, nodes: map<Path, Spelling>, files: seq<Path>, a: int, k: int)
    requires 0 <= a < |files| && 0 <= k <= |files[a]|
  {
    && Folded(fold, files[a][..k]) in nodes
    && nodes[Folded(fold, files[a][..k])] == Spelling(files[a][..k], k == |files[a]|)
  }

  ghost predicate AllStored(fold: Fold, nodes: map<Path, Spelling>, files: seq<Path>, i: nat, d: nat) {
    && (forall a, k {:trigger Stored(fold, nodes, files, a, k)} | Seen(files, i, d, a, k) :: Stored(fold, nodes, files, a, k))
    && (forall f | f in nodes :: exists a, k :: Seen(files, i, d, a, k) && f == Folded(fold, files[a][..k]))
  }

  /** A prefix that meets a stored one it cannot coexist with refutes the whole list. */
  lemma Refuted(fold: Fold, nodes: map<Path, Spelling>, files: seq<Path>, i: nat, d: nat)
    requires AllStored(fold, nodes, files, i, d) && i < |files| && d < |files[i]|
    requires Folded(fold, files[i][..d + 1]) in nodes
    requires var s := nodes[Folded(fold, files[i][..d + 1])];
             files[i][..d + 1] != s.prefix || d + 1 == |files[i]| || s.isFile
    ensures !Accepted(fold, files)
  {
    var f := Folded(fold, files[i][..d + 1]);
    var a, k :| Seen(files, i, d, a, k) && f == Folded(fold, files[a][..k]);
    assert Stored(fold, nodes, files, a, k);
    var x, y := files[a], files[i];
    assert a < i && x in files && y in files;
    if Coexist(fold, x, k, y, d + 1) {
      assert x == x[..k] && y == y[..d + 1];
    } else {
      assert !Compatible(fold, x, y);
    }
  }

  lemma StoreOne(fold: Fold, nodes: map<Path, Spelling>, files: seq<Path>, i: nat, d: nat)
    requires AllStored(fold, nodes, files, i, d) && i < |files| && d < |files[i]|
    requires var f, prefix := Folded(fold, files[i][..d + 1]), files[i][..d + 1];
             f in nodes ==> nodes[f] == Spelling(prefix, false) && d + 1 < |files[i]|
    ensures var f, prefix := Folded(fold, files[i][..d + 1]), files[i][..d + 1];
            AllStored(fold, nodes[f := Spelling(prefix, d + 1 == |files[i]|)], files, i, d + 1)
  {
    var f, prefix := Folded(fold, files[i][..d + 1]), files[i][..d + 1];
    var after := nodes[f := Spelling(prefix, d + 1 == |files[i]|)];
    forall a, k | Seen(files, i, d + 1, a, k) ensures Stored(fold, after, files, a, k) {
      if Seen(files, i, d, a, k) { assert Stored(fold, nodes, files, a, k); }
    }
    forall g | g in after ensures exists a, k :: Seen(files, i, d + 1, a, k) && g == Folded(fold, files[a][..k]) {
      if g == f {
        assert Seen(files, i, d + 1, i, d + 1);
      } else {
        var a, k :| Seen(files, i, d, a, k) && g == Folded(fold, files[a][..k]);
        assert Seen(files, i, d + 1, a, k);
      }
    }
  }

  lemma StoredFile(fold: Fold, nodes: map<Path, Spelling>, files: seq<Path>, i: nat)
    requires i < |files| && files[i] != []
    requires AllStored(fold, nodes, files, i, |files[i]|)
    ensures AllStored(fold, nodes, files, i + 1, 0)
  {
    forall a, k ensures Seen(files, i + 1, 0, a, k) <==> Seen(files, i, |files[i]|, a, k) { }
    forall f | f in nodes ensures exists a, k :: Seen(files, i + 1, 0, a, k) && f == Folded(fold, files[a][..k]) {
      var a, k :| Seen(files, i, |files[i]|, a, k) && f == Folded(fold, files[a][..k]);
      assert Seen(files, i + 1, 0, a, k);
    }
  }

  lemma StoredAccepted(fold: Fold, nodes: map<Path, Spelling>, files: seq<Path>)
    requires AllStored(fold, nodes, files, |files|, 0) && Distinct(files)
    ensures Accepted(fold, files)
  {
    forall a, b | a in files && b in files ensures Compatible(fold, a, b) {
      var i :| 0 <= i < |files| && files[i] == a;
      var j :| 0 <= j < |files| && files[j] == b;
      forall k, l | 0 < k <= |a| && 0 < l <= |b| ensures Coexist(fold, a, k, b, l) {
        assert Seen(files, |files|, 0, i, k) && Seen(files, |files|, 0, j, l);
        assert Stored(fold, nodes, files, i, k) && Stored(fold, nodes, files, j, l);
      }
    }
  }

  /** _check_path_collisions: one pass with one table accepts exactly the lists that may coexist. */
  method CheckPathCollisions(fold: Fold, files: seq<Path>) returns (ok: bool)
    requires forall i | 0 <= i < |files| :: files[i] != []
    ensures ok <==> Accepted(fold, files)
  {
    var nodes: map<Path, Spelling> := map[];
    var i := 0;
    while i < |files|
      invariant 0 <= i <= |files| && AllStored(fold, nodes, files, i, 0)
      invariant Distinct(files[..i])
    {
      var parts, depth := files[i], 0;
      while depth < |parts|
        invariant 0 <= depth <= |parts| && AllStored(fold, nodes, files, i, depth)
        invariant depth == |parts| ==> forall j | 0 <= j < i :: files[j] != parts
      {
        var prefix := parts[..depth + 1];
        var folded, isFile := Folded(fold, prefix), depth + 1 == |parts|;
        if folded in nodes && (prefix != nodes[folded].prefix || isFile || nodes[folded].isFile) {
          Refuted(fold, nodes, files, i, depth);
          return false;
        }
        if isFile { NotBefore(fold, nodes, files, i, depth); }
        StoreOne(fold, nodes, files, i, depth);
        nodes := nodes[folded := Spelling(prefix, isFile)];
        depth := depth + 1;
      }
      StoredFile(fold, nodes, files, i);
      i := i + 1;
    }
    assert files[..i] == files;
    StoredAccepted(fold, nodes, files);
    return true;
  }

  lemma NotBefore(fold: Fold, nodes: map<Path, Spelling>, files: seq<Path>, i: nat, d: nat)
    requires AllStored(fold, nodes, files, i, d) && i < |files| && d + 1 == |files[i]|
    requires Folded(fold, files[i][..d + 1]) !in nodes
    ensures forall j | 0 <= j < i :: files[j] != files[i]
  {
    forall j | 0 <= j < i ensures files[j] != files[i] {
      if |files[j]| == d + 1 {
        assert Seen(files, i, d, j, d + 1) && Stored(fold, nodes, files, j, d + 1);
        assert files[j][..d + 1] == files[j] && files[i][..d + 1] == files[i];
      }
    }
  }

  lemma DistinctLast(files: seq<Path>)
    requires files != []
    ensures var n := |files| - 1;
            Distinct(files) <==> Distinct(files[..n]) && files[n] !in files[..n]
  {
    var n := |files| - 1;
    var init := files[..n];
    if Distinct(init) && files[n] !in init {
      forall i, j | 0 <= i < j < |files| ensures files[i] != files[j] {
        assert init[i] == files[i] && init[i] in init;
        if j < n { assert init[j] == files[j]; }
      }
    }
  }

  lemma {:induction false} DistinctCounts(files: seq<Path>)
    ensures Distinct(files) <==> forall x :: multiset(files)[x] <= 1
  {
    if files != [] {
      var n := |files| - 1;
      DistinctCounts(files[..n]);
      DistinctLast(files);
      assert files == files[..n] + [files[n]];
      var init := multiset(files[..n]);
      assert multiset(files) == init + multiset{files[n]};
      assert files[n] in files[..n] <==> init[files[n]] > 0;
      forall x ensures multiset(files)[x] == init[x] + if x == files[n] then 1 else 0 { }
    }
  }

  /** Whatever the order of the files. */
  lemma OrderIrrelevant(fold: Fold, a: seq<Path>, b: seq<Path>)
    requires multiset(a) == multiset(b)
    ensures Accepted(fold, a) <==> Accepted(fold, b)
  {
    DistinctCounts(a);
    DistinctCounts(b);
    forall x ensures x in a <==> x in b { assert x in multiset(a) <==> x in multiset(b); }
  }
}

/** Writing an accepted bundle into a private tree: all of it, or nothing, or an explicit cleanup failure. */
module CandidateWorkspaces {
  import C = PathCollisions
  import opened PrivateTrees

  /** A file of the bundle with what reading its source gave; None when the source was unsafe or changed. */
  datatype Item = Item(path: Path, source: Option<Content>)

  function Paths(items: seq<Item>): (r: seq<Path>)
    ensures |r| == |items| && forall i | 0 <= i < |items| :: r[i] == items[i].path
  {
    seq(|items|, i requires 0 <= i < |items| => items[i].path)
  }

  /** p is the path of one of the first i items, cut after k names. */
  predicate Cut(items: seq<Item>, i: nat, p: Path, j: int) {
    0 <= j < i <= |items| && |p| <= |items[j].path| && p == items[j].path[..|p|]
  }

  ghost predicate DirFrom(items: seq<Item>, i: nat, p: Path) {
    p == [] || exists j :: Cut(items, i, p, j) && |p| < |items[j].path|
  }

  ghost predicate FileFrom(items: seq<Item>, i: nat, p: Path) {
    exists j :: Cut(items, i, p, j) && p == items[j].path
  }

  ghost predicate WrittenAt(D: Idents, F: Idents, items: seq<Item>, i: nat, p: Path) {
    && (p in D <==> DirFrom(items, i, p))
    && (p in F <==> FileFrom(items, i, p))
  }

  /** The records name the first i files and exactly the directories above them. */
  ghost predicate Written(D: Idents, F: Idents, items: seq<Item>, i: nat) {
    forall p {:trigger WrittenAt(D, F, items, i, p)} :: WrittenAt(D, F, items, i, p)
  }

  lemma WrittenMore(D: Idents, F: Idents, E: Idents, G: Idents, items: seq<Item>, i: nat)
    requires i < |items| && items[i].path != [] && Written(D, F, items, i)
    requires Extended(D, E, items[i].path) && G.Keys == F.Keys + {items[i].path} && Rooted(E, G)
    ensures Written(E, G, items, i + 1)
  {
    var path := items[i].path;
    var n := i + 1;
    forall p ensures WrittenAt(E, G, items, n, p) {
      assert WrittenAt(D, F, items, i, p) && ExtendedAt(D, E, path, p);
      forall j ensures Cut(items, n, p, j) <==> Cut(items, i, p, j) || (j == i && |p| <= |path| && p == path[..|p|]) { }
      if |p| < |path| && p == path[..|p|] {
        assert RootedAt(E, G, path);
        PrefixIn(E, G, Init(path), |p|);
        assert Init(path)[..|p|] == p;
        assert Cut(items, n, p, i);
      }
      if p == path { assert path == path[..|path|] && Cut(items, n, p, i); }
      if DirFrom(items, i, p) && p != [] {
        var j :| Cut(items, i, p, j) && |p| < |items[j].path|;
        assert Cut(items, n, p, j);
      }
      if FileFrom(items, i, p) {
        var j :| Cut(items, i, p, j) && p == items[j].path;
        assert Cut(items, n, p, j);
      }
    }
  }

  /** The collision folding identifies at least the names that the filesystem identifies. */
  ghost predicate Covers(cfold: C.Fold, fold: Fold) {
    forall a, b {:trigger cfold(a), cfold(b)} {:trigger fold(a), fold(b)} :: fold(a) == fold(b) ==> cfold(a) == cfold(b)
  }

  /** After any part of an accepted bundle, nothing in the tree stands in the way of the next file. */
  lemma AcceptedRoom(cfold: C.Fold, fold: Fold, T: Tree, D: Idents, F: Idents, items: seq<Item>, i: nat)
    requires Covers(cfold, fold) && C.Accepted(cfold, Paths(items)) && i < |items|
    requires Noted(D, F, T) && NoStrays(D, F, T) && Written(D, F, items, i)
    ensures Room(fold, T, items[i].path)
  {
    var path := items[i].path;
    forall q ensures RoomAt(fold, T, path, q) {
      if q in T && 0 < |q| <= |path| && Init(q) == path[..|q| - 1] && fold(Last(q)) == fold(path[|q| - 1]) {
        assert WrittenAt(D, F, items, i, q) && DirNoted(D, T, q) && FileNoted(F, T, q);
        var j :| Cut(items, i, q, j);
        var a, k := items[j].path, |q|;
        assert Paths(items)[j] == a && Paths(items)[i] == path;
        assert q == Init(q) + [Last(q)] && path[..k] == path[..k - 1] + [path[k - 1]];
        assert C.Folded(cfold, a[..k]) == C.Folded(cfold, path[..k]);
        assert C.Compatible(cfold, a, path) && C.Coexist(cfold, a, k, path, k);
        assert path[..|path|] == path && a[..|a|] == a;
        if q in F { FileCut(cfold, items, i, q); }
      }
    }
  }

  /** In an accepted bundle the path of a file is not also a prefix of another file's path. */
  lemma FileCut(cfold: C.Fold, items: seq<Item>, i: nat, q: Path)
    requires C.Accepted(cfold, Paths(items)) && i < |items| && q != [] && FileFrom(items, i, q)
    ensures !(|q| <= |items[i].path| && q == items[i].path[..|q|])
  {
    var j :| Cut(items, i, q, j) && q == items[j].path;
    var path := items[i].path;
    assert Paths(items)[j] == q && Paths(items)[i] == path;
    assert q[..|q|] == q;
    assert path[..|path|] == path;
    if |q| <= |path| {
      assert C.Compatible(cfold, q, path) && C.Coexist(cfold, q, |q|, path, |q|);
    }
  }

  /** The tree under root holds exactly the files of the bundle, with their bytes, and the directories above them. */
  ghost predicate Holds(fold: Fold, nodes: Nodes, root: Ino, items: seq<Item>) {
    && (forall p :: Find(fold, nodes, root, p).Some? <==> DirFrom(items, |items|, p) || FileFrom(items, |items|, p))
    && (forall i {:trigger items[i]} | 0 <= i < |items| ::
          && items[i].source.Some? && Find(fold, nodes, root, items[i].path).Some?
          && Find(fold, nodes, root, items[i].path).value in nodes
          && nodes[Find(fold, nodes, root, items[i].path).value] == File(items[i].source.value, FILE_MODE, 1))
  }

  /** What each written file should hold. */
  ghost predicate Planned(contents: map<Path, Content>, items: seq<Item>, i: nat) {
    i <= |items| && forall j | 0 <= j < i ::
      items[j].path in contents && items[j].source == Some(contents[items[j].path])
  }

  lemma AllHeld(fold: Fold, nodes: Nodes, parent: Ino, name: Name, T: Tree, D: Idents, F: Idents,
                contents: map<Path, Content>, items: seq<Item>)
    requires Mirrors(fold, nodes, parent, name, D, F) && Tidy(nodes, D, F, T, contents) && D.Keys !! F.Keys
    requires Written(D, F, items, |items|) && Planned(contents, items, |items|)
    ensures Holds(fold, nodes, D[[]], items)
  {
    forall p ensures Find(fold, nodes, D[[]], p).Some? <==> DirFrom(items, |items|, p) || FileFrom(items, |items|, p) {
      assert MirrorsAt(fold, nodes, D, F, p) && WrittenAt(D, F, items, |items|, p);
    }
    forall i | 0 <= i < |items|
      ensures items[i].path in F && items[i].path in contents
      ensures Find(fold, nodes, D[[]], items[i].path) == Some(F[items[i].path])
      ensures F[items[i].path] in nodes && nodes[F[items[i].path]] == File(contents[items[i].path], FILE_MODE, 1)
    {
      var p := items[i].path;
      assert p == p[..|p|] && Cut(items, |items|, p, i);
      assert MirrorsAt(fold, nodes, D, F, p) && WrittenAt(D, F, items, |items|, p) && TidyAt(nodes, D, F, contents, p);
    }
  }

  method WriteAll(tree: PrivateTree, cfold: C.Fold, items: seq<Item>) returns (r: Result<()>, ghost contents: map<Path, Content>, ghost lost: bool)
    requires tree.Valid() && tree.Intact() && tree.Neat(map[]) && tree.removed == {}
    requires tree.directories.Keys == {[]} && tree.files == map[]
    requires forall i | 0 <= i < |items| :: items[i].path != []
    requires C.Distinct(Paths(items))
    modifies tree
    ensures tree.Valid() && tree.Intact() && tree.base == old(tree.base) && tree.faulty == old(tree.faulty)
    ensures r.Ok? ==> tree.Neat(contents) && Written(tree.directories, tree.files, items, |items|) && Planned(contents, items, |items|)
    ensures r.Err? ==> r.code != CleanupFailed
    ensures tree.quiet ==> (lost <==> !NoStrays(tree.directories, tree.files, tree.tree))
    ensures (lost ==> r.Err?) && (tree.quiet && !tree.faulty ==> !lost)
    ensures (tree.quiet && !tree.faulty && Covers(cfold, tree.fold) && C.Accepted(cfold, Paths(items))
      && forall i | 0 <= i < |items| :: items[i].source.Some?) ==> r.Ok?
  {
    contents, lost := map[], false;
    var i := 0;
    BeginWritten(tree.directories, tree.files, items);
    while i < |items|
      invariant 0 <= i <= |items| && tree.Valid() && tree.Intact() && tree.Neat(contents) && tree.removed == {}
      invariant tree.base == old(tree.base) && tree.faulty == old(tree.faulty) && !lost
      invariant Written(tree.directories, tree.files, items, i) && Planned(contents, items, i)
    {
      ghost var D, F, T := tree.directories, tree.files, tree.tree;
      r, lost := WriteItem(tree, cfold, items, i, contents);
      if r.Err? { return; }
      WrittenMore(D, F, tree.directories, tree.files, items, i);
      PlannedMore(contents, items, i);
      contents := contents[items[i].path := items[i].source.value];
      i := i + 1;
    }
    r := Ok(());
  }

  lemma BeginWritten(D: Idents, F: Idents, items: seq<Item>)
    requires D.Keys == {[]} && F == map[]
    ensures Written(D, F, items, 0)
  {
  }

  lemma PlannedMore(contents: map<Path, Content>, items: seq<Item>, i: nat)
    requires i < |items| && Planned(contents, items, i) && items[i].source.Some? && C.Distinct(Paths(items))
    ensures Planned(contents[items[i].path := items[i].source.value], items, i + 1)
  {
    assert forall j | 0 <= j < i :: Paths(items)[j] != Paths(items)[i];
  }

  /** One round of the materialization loop. */
  method WriteItem(tree: PrivateTree, cfold: C.Fold, items: seq<Item>, i: nat, ghost contents: map<Path, Content>)
    returns (r: Result<()>, ghost lost: bool)
    requires tree.Valid() && tree.Intact() && tree.Neat(contents) && tree.removed == {}
    requires i < |items| && items[i].path != [] && Written(tree.directories, tree.files, items, i)
    modifies tree`nodes, tree`nextIno, tree`tree, tree`made, tree`directories, tree`files, tree`order, tree`swapped
    ensures tree.Valid() && tree.Intact()
    ensures r.Ok? ==> items[i].source.Some? && tree.Neat(contents[items[i].path := items[i].source.value])
    ensures r.Ok? ==>
      && Extended(old(tree.directories), tree.directories, items[i].path)
      && tree.files.Keys == old(tree.files).Keys + {items[i].path}
    ensures r.Err? ==> r.code != CleanupFailed
    ensures tree.quiet ==> (lost <==> !NoStrays(tree.directories, tree.files, tree.tree))
    ensures (lost ==> r.Err?) && (tree.quiet && !tree.faulty ==> !lost)
    ensures tree.quiet && !tree.faulty && Covers(cfold, tree.fold) && C.Accepted(cfold, Paths(items)) && items[i].source.Some? ==> r.Ok?
  {
    if tree.quiet {
      assert DirNoted(tree.directories, tree.tree, []);
      RootFound(tree.fold, tree.nodes, tree.base, tree.parent, tree.name, tree.tree, tree.directories);
      if Covers(cfold, tree.fold) && C.Accepted(cfold, Paths(items)) {
        AcceptedRoom(cfold, tree.fold, tree.tree, tree.directories, tree.files, items, i);
      }
    }
    lost := false;
    r := tree.CheckRoot();
    if r.Err? { return; }
    if items[i].source.None? { return Err(SourceBad), false; }
    r, lost := tree.Write(items[i].path, items[i].source.value, contents);
  }

  /**
    materialize_candidate_source_bundle, from a verified bundle on. calm says that no call fails by itself from
    the rollback on; lost, that something was created and the stat or fstat that records it failed.
  */
  method Materialize(tree: PrivateTree, cfold: C.Fold, tries: seq<Name>, items: seq<Item>, calm: bool)
    returns (r: Result<()>, ghost lost: bool)
    requires tree.Untouched() && |tries| == NAME_TRIES
    requires C.Distinct(Paths(items)) && forall i | 0 <= i < |items| :: items[i].path != []
    modifies tree
    ensures OwnOnly(tree.directories, tree.files, tree.made, tree.swapped, tree.removed)
    ensures tree.base == old(tree.base)
    ensures r.Ok? ==> RootNamed(tree.fold, tree.nodes, tree.parent, tree.name, tree.directories)
    ensures tree.quiet && r.Ok? ==>
      && Rep(tree.fold, tree.nodes, tree.base, tree.parent, tree.name, tree.tree)
      && Holds(tree.fold, tree.nodes, tree.tree[[]].ino, items)
    ensures tree.quiet && r.Err? && r.code != CleanupFailed ==> tree.nodes == tree.base
    ensures tree.quiet && calm ==> (r.Err? && r.code == CleanupFailed <==> lost)
    ensures tree.quiet && !old(tree.faulty) && DirAt(tree.base, tree.parent) ==> !lost && (r.Ok? || r.code != CleanupFailed)
    ensures (tree.quiet && !old(tree.faulty) && DirAt(tree.base, tree.parent)
      && Covers(cfold, tree.fold) && C.Accepted(cfold, Paths(items))
      && (forall i | 0 <= i < |items| :: items[i].source.Some?)
      && exists k :: 0 <= k < |tries| && tree.fold(tries[k]) !in tree.base[tree.parent].entries) ==> r.Ok?
  {
    r, lost := tree.Begin(tries, calm);
    if r.Err? { return; }
    r, lost := Fill(tree, cfold, items);
    if r.Err? {
      tree.faulty := tree.faulty && !calm;
      var cleaned := tree.Cleanup();
      if cleaned.Err? { r := Err(CleanupFailed); }
    }
  }

  /** Write every file and check the whole tree. */
  method Fill(tree: PrivateTree, cfold: C.Fold, items: seq<Item>) returns (r: Result<()>, ghost lost: bool)
    requires tree.Valid() && tree.Intact() && tree.Neat(map[]) && tree.removed == {}
    requires tree.directories.Keys == {[]} && tree.files == map[]
    requires C.Distinct(Paths(items)) && forall i | 0 <= i < |items| :: items[i].path != []
    modifies tree
    ensures tree.Valid() && tree.Intact() && tree.base == old(tree.base) && tree.faulty == old(tree.faulty)
    ensures tree.quiet && r.Ok? ==>
      && Rep(tree.fold, tree.nodes, tree.base, tree.parent, tree.name, tree.tree)
      && Holds(tree.fold, tree.nodes, tree.tree[[]].ino, items)
    ensures r.Err? ==> r.code != CleanupFailed
    ensures r.Ok? ==> RootNamed(tree.fold, tree.nodes, tree.parent, tree.name, tree.directories)
    ensures tree.quiet ==> (lost <==> !NoStrays(tree.directories, tree.files, tree.tree))
    ensures (lost ==> r.Err?) && (tree.quiet && !tree.faulty ==> !lost)
    ensures (tree.quiet && !tree.faulty && Covers(cfold, tree.fold) && C.Accepted(cfold, Paths(items))
      && forall i | 0 <= i < |items| :: items[i].source.Some?) ==> r.Ok?
  {
    ghost var contents;
    r, contents, lost := WriteAll(tree, cfold, items);
    if r.Err? { return; }
    if tree.quiet {
      TidyMirrors(tree.fold, tree.nodes, tree.base, tree.parent, tree.name, tree.tree, tree.directories, tree.files, contents);
      AllHeld(tree.fold, tree.nodes, tree.parent, tree.name, tree.tree, tree.directories, tree.files, contents, items);
      assert DirNoted(tree.directories, tree.tree, []);
    }
    r := tree.SyncAndCheck();
  }
}
