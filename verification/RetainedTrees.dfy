/**
  Retained directory trees seen by path: writing one file by file, and the two ways in which the
  repository checks that a tree holds the expected names and nothing else, one listing at a time.
*/
module RetainedTrees {
  import opened PathText

  datatype Node<+F> = Regular(file: F) | Directory | Special

  function Init(p: Path): Path requires p != [] { p[..|p| - 1] }
  function Last(p: Path): Name requires p != [] { p[|p| - 1] }

  /** The directory of p is one of dirs. */
  predicate In(dirs: set<Path>, p: Path) { p != [] && Init(p) in dirs }

  predicate Below(d: Path, p: Path) { p != [] && Init(p) == d }

  predicate DirAt<F>(disk: map<Path, Node<F>>, p: Path) { p == [] || (p in disk && disk[p].Directory?) }

  predicate HeldAt<F>(disk: map<Path, Node<F>>, p: Path) { p in disk ==> p != [] && DirAt(disk, Init(p)) }

  /** Everything lies in a directory of the tree. */
  predicate Rooted<F>(disk: map<Path, Node<F>>) {
    forall p {:trigger HeldAt(disk, p)} | p in disk :: HeldAt(disk, p)
  }

  /** Everything below a root directory. */
  type Disk<F> = disk: map<Path, Node<F>> | Rooted(disk) witness map[]

  predicate Within(p: Path, q: Path) { |p| < |q| && q[..|p|] == p }

  /** The directories that the expected files lie in, with the root. */
  function Above(files: set<Path>): (dirs: set<Path>)
    ensures forall p {:trigger p in dirs} :: p in dirs <==> p == [] || exists q :: q in files && Within(p, q)
  {
    {[]} + set q, k | q in files && 0 <= k < |q| :: q[..k]
  }

  predicate Expected(files: set<Path>, p: Path) { p in files || p in Above(files) }

  predicate ExactAt<F>(disk: map<Path, Node<F>>, files: set<Path>, p: Path) {
    && (p in disk <==> p != [] && Expected(files, p))
    && (p in Above(files) ==> DirAt(disk, p))
  }

  /** The tree holds the expected files and the directories above them, and nothing else. */
  ghost predicate Exactly<F>(disk: Disk<F>, files: set<Path>) {
    forall p {:trigger ExactAt(disk, files, p)} :: ExactAt(disk, files, p)
  }

  // ------------------------------------------------------------ one listing at a time

  /** What a listing of the directory d shows. */
  function Names<F>(disk: Disk<F>, d: Path): set<Name> {
    set p | p in disk && Below(d, p) :: Last(p)
  }

  function ExpectedNames(files: set<Path>, d: Path): set<Name> {
    set p | p in files + Above(files) && Below(d, p) :: Last(p)
  }

  predicate LevelOk<F>(disk: Disk<F>, files: set<Path>, d: Path) {
    DirAt(disk, d) && Names(disk, d) == ExpectedNames(files, d)
  }

  ghost predicate LevelsOk<F>(disk: Disk<F>, files: set<Path>) {
    forall d {:trigger LevelOk(disk, files, d)} | d in Above(files) :: LevelOk(disk, files, d)
  }

  lemma NameListed<F>(disk: Disk<F>, files: set<Path>, d: Path, n: Name)
    ensures n in Names(disk, d) <==> d + [n] in disk
    ensures n in ExpectedNames(files, d) <==> Expected(files, d + [n])
  {
    var q := d + [n];
    assert Below(d, q) && Last(q) == n;
    forall p | Below(d, p) && Last(p) == n ensures p == q { assert p == Init(p) + [Last(p)]; }
    var listed, expected := (set p | p in disk && Below(d, p)), (set p | p in files + Above(files) && Below(d, p));
    assert n in Names(disk, d) <==> exists p :: p in listed && Last(p) == n;
    assert n in ExpectedNames(files, d) <==> exists p :: p in expected && Last(p) == n;
    assert q in disk ==> q in listed;
    assert Expected(files, q) ==> q in expected;
  }

  lemma {:induction false} LevelsHold<F>(disk: Disk<F>, files: set<Path>, p: Path)
    requires LevelsOk(disk, files) && [] !in files && forall q | q in files && q in disk :: disk[q].Regular?
    ensures ExactAt(disk, files, p)
    decreases |p|
  {
    if p in Above(files) { assert LevelOk(disk, files, p); }
    if p in disk { assert HeldAt(disk, p); }
    if p != [] {
      var d, n := Init(p), Last(p);
      assert d + [n] == p;
      LevelsHold(disk, files, d);
      NameListed(disk, files, d, n);
      if Expected(files, p) { AboveParent(files, p); }
      if d in Above(files) {
        assert LevelOk(disk, files, d);
        assert n in Names(disk, d) <==> n in ExpectedNames(files, d);
      }
    }
  }

  lemma AboveParent(files: set<Path>, p: Path)
    requires p != [] && Expected(files, p)
    ensures Init(p) in Above(files)
  {
    if p in files {
      assert Within(Init(p), p);
    } else {
      var q :| q in files && Within(p, q);
      assert q[..|p| - 1] == q[..|p|][..|p| - 1];
      assert Within(Init(p), q);
    }
  }

  /** The listings of the expected directories are right exactly when the whole tree is. */
  lemma LevelsExact<F>(disk: Disk<F>, files: set<Path>)
    requires [] !in files && forall q | q in files && q in disk :: disk[q].Regular?
    ensures LevelsOk(disk, files) <==> Exactly(disk, files)
  {
    if LevelsOk(disk, files) {
      forall p ensures ExactAt(disk, files, p) { LevelsHold(disk, files, p); }
    }
    if Exactly(disk, files) {
      forall d | d in Above(files) ensures LevelOk(disk, files, d) {
        assert ExactAt(disk, files, d);
        forall n ensures n in Names(disk, d) <==> n in ExpectedNames(files, d) {
          NameListed(disk, files, d, n);
          assert ExactAt(disk, files, d + [n]);
        }
      }
    }
  }

  /** _tree_names: each expected directory lists exactly its expected names. */
  method TreeNames<F>(disk: Disk<F>, files: set<Path>) returns (ok: bool)
    requires [] !in files && forall q | q in files && q in disk :: disk[q].Regular?
    ensures ok <==> Exactly(disk, files)
  {
    LevelsExact(disk, files);
    var rest := Above(files);
    while rest != {}
      invariant rest <= Above(files)
      invariant forall d {:trigger LevelOk(disk, files, d)} | d in Above(files) && d !in rest :: LevelOk(disk, files, d)
    {
      var d :| d in rest;
      if !DirAt(disk, d) {
        assert !LevelOk(disk, files, d);
        return false;
      }
      var level := ListedNames(Names(disk, d), ExpectedNames(files, d));
      if !level {
        assert !LevelOk(disk, files, d);
        return false;
      }
      assert LevelOk(disk, files, d);
      rest := rest - {d};
    }
    return true;
  }

  /** The inner loop: no unexpected name, and in the end none missing. */
  method ListedNames(names: set<Name>, expected: set<Name>) returns (ok: bool)
    ensures ok <==> names == expected
  {
    var seen: set<Name>, rest := {}, names;
    while rest != {}
      invariant rest <= names && seen == names - rest && seen <= expected
    {
      var n :| n in rest;
      if n !in expected || n in seen { return false; }
      seen, rest := seen + {n}, rest - {n};
    }
    return seen == expected;
  }

  /** _inventory: the same with one set of everything seen in all the directories. */
  method Inventory<F>(disk: Disk<F>, files: set<Path>) returns (ok: bool)
    requires [] !in files && forall q | q in files && q in disk :: disk[q].Regular?
    ensures ok <==> Exactly(disk, files)
  {
    LevelsExact(disk, files);
    var dirs := Above(files);
    var seen: set<Path>, rest := {}, dirs;
    while rest != {}
      invariant rest <= dirs
      invariant forall p :: p in seen <==> p in disk && In(dirs - rest, p)
      invariant forall p | p in seen :: Expected(files, p)
      invariant forall d | d in dirs && d !in rest :: DirAt(disk, d)
    {
      var d :| d in rest;
      if !DirAt(disk, d) {
        assert !LevelOk(disk, files, d);
        return false;
      }
      var below := set p | p in disk && Below(d, p);
      if !(below <= files + dirs) {
        Unexpected(disk, files, d);
        return false;
      }
      seen, rest := seen + below, rest - {d};
    }
    SeenAll(disk, files, seen);
    return seen == files + (dirs - {[]});
  }

  lemma Unexpected<F>(disk: Disk<F>, files: set<Path>, d: Path)
    requires d in Above(files) && exists p :: p in disk && Below(d, p) && !Expected(files, p)
    ensures !LevelOk(disk, files, d)
  {
    var p :| p in disk && Below(d, p) && !Expected(files, p);
    assert d + [Last(p)] == p;
    NameListed(disk, files, d, Last(p));
  }

  lemma SeenAll<F>(disk: Disk<F>, files: set<Path>, seen: set<Path>)
    requires [] !in files && forall p :: p in seen <==> p in disk && In(Above(files), p)
    requires forall p | p in seen :: Expected(files, p)
    requires forall d | d in Above(files) :: DirAt(disk, d)
    ensures seen == files + (Above(files) - {[]}) <==> LevelsOk(disk, files)
  {
    if seen == files + (Above(files) - {[]}) {
      forall d | d in Above(files) ensures LevelOk(disk, files, d) { SeenLevel(disk, files, seen, d); }
    }
    if LevelsOk(disk, files) {
      forall p ensures p in seen <==> p in files + (Above(files) - {[]}) { SeenPath(disk, files, seen, p); }
    }
  }

  lemma SeenLevel<F>(disk: Disk<F>, files: set<Path>, seen: set<Path>, d: Path)
    requires [] !in files && forall p :: p in seen <==> p in disk && In(Above(files), p)
    requires d in Above(files) && DirAt(disk, d) && seen == files + (Above(files) - {[]})
    ensures LevelOk(disk, files, d)
  {
    forall n ensures n in Names(disk, d) <==> n in ExpectedNames(files, d) {
      NameListed(disk, files, d, n);
      assert Init(d + [n]) == d;
      assert d + [n] in seen <==> d + [n] in disk;
    }
  }

  lemma SeenPath<F>(disk: Disk<F>, files: set<Path>, seen: set<Path>, p: Path)
    requires [] !in files && LevelsOk(disk, files)
    requires forall p :: p in seen <==> p in disk && In(Above(files), p)
    requires forall p | p in seen :: Expected(files, p)
    ensures p in seen <==> p in files + (Above(files) - {[]})
  {
    if p != [] && Expected(files, p) {
      AboveParent(files, p);
      assert LevelOk(disk, files, Init(p)) && Init(p) + [Last(p)] == p;
      NameListed(disk, files, Init(p), Last(p));
    }
  }

  // ------------------------------------------------------------ writing a tree

  /** One write: a path and the file that goes there. */
  datatype Put<+F> = Put(path: Path, file: F)

  /** Nothing stands where the file or a directory above it goes. */
  predicate Room<F>(disk: Disk<F>, p: Path) {
    p != [] && p !in disk && forall k | 0 < k < |p| :: p[..k] in disk ==> disk[p[..k]].Directory?
  }

  function FirstPrefixes(p: Path, n: nat): set<Path>
    requires n <= |p|
  {
    set k | 0 < k < n :: p[..k]
  }

  lemma NextPrefix(p: Path, n: nat)
    requires 0 < n < |p|
    ensures p[..n] !in FirstPrefixes(p, n) && FirstPrefixes(p, n + 1) == FirstPrefixes(p, n) + {p[..n]}
  {
    forall k | 0 < k < n ensures p[..k] != p[..n] { assert |p[..k]| == k; }
  }

  function Prefixes(p: Path): set<Path> { FirstPrefixes(p, |p|) }

  lemma PrefixesAt(p: Path, q: Path)
    ensures q in Prefixes(p) <==> q != [] && Within(q, p)
  {
    if q in Prefixes(p) {
      var k :| 0 < k < |p| && p[..k] == q;
      assert |q| == k;
    }
    if q != [] && Within(q, p) { assert p[..|q|] == q && 0 < |q| < |p|; }
  }

  /** The directories above p that are missing, then the file itself. */
  function Written<F>(disk: Disk<F>, p: Path, file: F): (after: map<Path, Node<F>>) {
    Grown(disk, Prefixes(p))[p := Regular(file)]
  }

  function Grown<F>(disk: Disk<F>, dirs: set<Path>): map<Path, Node<F>> {
    map q | q in disk.Keys + dirs :: if q in disk then disk[q] else Directory
  }

  lemma GrownMore<F>(disk: Disk<F>, dirs: set<Path>, q: Path)
    requires q !in dirs
    ensures q in Grown(disk, dirs) <==> q in disk
    ensures Grown(disk, dirs + {q}) == if q in disk then Grown(disk, dirs) else Grown(disk, dirs)[q := Directory]
  {
    assert q in disk ==> disk.Keys + (dirs + {q}) == disk.Keys + dirs;
  }

  lemma WrittenRooted<F>(disk: Disk<F>, p: Path, file: F)
    requires Room(disk, p)
    ensures Rooted(Written(disk, p, file))
  {
    var after := Written(disk, p, file);
    forall q | q in after ensures HeldAt(after, q) {
      PrefixesAt(p, q);
      if q in disk { assert HeldAt(disk, q); }
      if q != [] && |q| > 1 {
        PrefixesAt(p, Init(q));
        if q == p || (q !in disk && q in Prefixes(p)) {
          assert Init(q) == p[..|q| - 1] by { if q != p { assert q == p[..|q|]; } }
        }
      }
    }
  }

  /** write: make the missing directories one by one, then the file, exclusively. */
  method WriteFile<F>(disk: Disk<F>, p: Path, file: F) returns (ok: bool, after: Disk<F>)
    requires p != []
    ensures ok <==> Room(disk, p)
    ensures after == if ok then Written(disk, p, file) else disk
  {
    var grown: map<Path, Node<F>> := disk;
    var depth := 1;
    while depth < |p|
      invariant 1 <= depth <= |p|
      invariant forall k | 0 < k < depth :: p[..k] in disk ==> disk[p[..k]].Directory?
      invariant grown == Grown(disk, FirstPrefixes(p, depth))
    {
      var q := p[..depth];
      NextPrefix(p, depth);
      GrownMore(disk, FirstPrefixes(p, depth), q);
      if q in grown {
        if !grown[q].Directory? { return false, disk; }
      } else {
        grown := grown[q := Directory];
      }
      depth := depth + 1;
    }
    PrefixesAt(p, p);
    if p in grown { return false, disk; }
    WrittenRooted(disk, p, file);
    return true, grown[p := Regular(file)];
  }

  /** Different paths, none of which lies below another. */
  predicate Apart<F>(puts: seq<Put<F>>) {
    forall i, j | 0 <= i < |puts| && 0 <= j < |puts| && i != j :: puts[i].path != puts[j].path && !Within(puts[i].path, puts[j].path)
  }

  function PutPaths<F>(puts: seq<Put<F>>): set<Path> { set i | 0 <= i < |puts| :: puts[i].path }

  ghost predicate HoldsPut<F>(disk: Disk<F>, put: Put<F>) { put.path in disk && disk[put.path] == Regular(put.file) }

  /** The tree holds exactly the files that were put there, and the directories above them. */
  ghost predicate HoldsPuts<F>(disk: Disk<F>, puts: seq<Put<F>>) {
    Exactly(disk, PutPaths(puts)) && forall i {:trigger HoldsPut(disk, puts[i])} | 0 <= i < |puts| :: HoldsPut(disk, puts[i])
  }

  /** Two trees that hold the same files are the same tree. */
  lemma SameTree<F>(a: Disk<F>, b: Disk<F>, puts: seq<Put<F>>)
    requires HoldsPuts(a, puts) && HoldsPuts(b, puts)
    ensures a == b
  {
    forall p ensures (p in a <==> p in b) && (p in a ==> a[p] == b[p]) {
      assert ExactAt(a, PutPaths(puts), p) && ExactAt(b, PutPaths(puts), p);
      if p in PutPaths(puts) {
        var i :| 0 <= i < |puts| && puts[i].path == p;
        assert HoldsPut(a, puts[i]) && HoldsPut(b, puts[i]);
      }
    }
  }

  predicate ApartFrom<F>(puts: seq<Put<F>>, p: Path) {
    forall i | 0 <= i < |puts| :: puts[i].path != p && !Within(puts[i].path, p) && !Within(p, puts[i].path)
  }

  /** There is room for a path exactly when no file stands in its way, nor it in the way of a file. */
  lemma PutRoom<F>(disk: Disk<F>, puts: seq<Put<F>>, p: Path)
    requires HoldsPuts(disk, puts) && p != []
    ensures Room(disk, p) <==> ApartFrom(puts, p)
  {
    var files := PutPaths(puts);
    assert ExactAt(disk, files, p);
    if ApartFrom(puts, p) {
      assert p !in Above(files);
      forall k | 0 < k < |p| && p[..k] in disk ensures disk[p[..k]].Directory? {
        assert ExactAt(disk, files, p[..k]);
        assert Within(p[..k], p);
      }
    }
    if Room(disk, p) {
      forall i | 0 <= i < |puts| ensures puts[i].path != p && !Within(puts[i].path, p) && !Within(p, puts[i].path) {
        var q := puts[i].path;
        assert HoldsPut(disk, puts[i]) && q in files && ExactAt(disk, files, q);
      }
    }
  }

  lemma PutMore<F>(disk: Disk<F>, puts: seq<Put<F>>, put: Put<F>)
    requires HoldsPuts(disk, puts) && Room(disk, put.path)
    ensures Rooted(Written(disk, put.path, put.file))
    ensures HoldsPuts(Written(disk, put.path, put.file), puts + [put])
  {
    var p, more := put.path, puts + [put];
    WrittenRooted(disk, p, put.file);
    var after: Disk<F> := Written(disk, p, put.file);
    PathsMore(puts, put);
    forall q ensures ExactAt(after, PutPaths(more), q) { PutExact(disk, puts, put, q); }
    forall i | 0 <= i < |more| ensures HoldsPut(after, more[i]) {
      if i < |puts| { assert more[i] == puts[i] && HoldsPut(disk, puts[i]); }
    }
  }

  lemma PathsMore<F>(puts: seq<Put<F>>, put: Put<F>)
    ensures PutPaths(puts + [put]) == PutPaths(puts) + {put.path}
  {
    var more := puts + [put];
    forall q ensures q in PutPaths(more) <==> q in PutPaths(puts) + {put.path} {
      if q in PutPaths(puts) {
        var i :| 0 <= i < |puts| && puts[i].path == q;
        assert more[i].path == q;
      }
      if q == put.path { assert more[|puts|].path == q; }
    }
  }

  lemma PutExact<F>(disk: Disk<F>, puts: seq<Put<F>>, put: Put<F>, q: Path)
    requires HoldsPuts(disk, puts) && Room(disk, put.path)
    ensures ExactAt(Written(disk, put.path, put.file), PutPaths(puts) + {put.path}, q)
  {
    var p, before, after := put.path, PutPaths(puts), PutPaths(puts) + {put.path};
    assert ExactAt(disk, before, q) && ExactAt(disk, before, p);
    PrefixesAt(p, q);
    assert q in Above(after) <==> q in Above(before) || Within(q, p) by {
      if q in Above(before) && q != [] {
        var x :| x in before && Within(q, x);
        assert x in after;
      }
      if Within(q, p) { assert p in after; }
    }
    if q in disk { assert HeldAt(disk, q); }
    if Within(q, p) && q != [] { assert q == p[..|q|]; }
  }

  /** A new tree, file by file: every write finds room exactly when no path is another or lies below another. */
  method WriteTree<F>(puts: seq<Put<F>>) returns (ok: bool, disk: Disk<F>)
    requires forall i | 0 <= i < |puts| :: puts[i].path != []
    ensures ok <==> Apart(puts)
    ensures ok ==> HoldsPuts(disk, puts)
  {
    disk := map[];
    var i := 0;
    EmptyHolds<F>();
    assert puts[..0] == [];
    while i < |puts|
      invariant 0 <= i <= |puts| && HoldsPuts(disk, puts[..i]) && Apart(puts[..i])
    {
      PutRoom(disk, puts[..i], puts[i].path);
      var before := disk;
      ok, disk := WriteFile(disk, puts[i].path, puts[i].file);
      if !ok {
        NotApart(puts, i);
        return;
      }
      PutMore(before, puts[..i], puts[i]);
      assert puts[..i + 1] == puts[..i] + [puts[i]];
      i := i + 1;
    }
    assert puts[..i] == puts;
    ok := true;
  }

  lemma EmptyHolds<F>()
    ensures HoldsPuts<F>(map[], [])
  {
    var none: seq<Put<F>>, empty: Disk<F> := [], map[];
    forall p ensures ExactAt(empty, PutPaths(none), p) { }
  }

  lemma NotApart<F>(puts: seq<Put<F>>, i: nat)
    requires i < |puts| && !ApartFrom(puts[..i], puts[i].path)
    ensures !Apart(puts)
  {
    var j :| 0 <= j < i && !(puts[..i][j].path != puts[i].path && !Within(puts[..i][j].path, puts[i].path) && !Within(puts[i].path, puts[..i][j].path));
    assert puts[..i][j] == puts[j];
  }
}
