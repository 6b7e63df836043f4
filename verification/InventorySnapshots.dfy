/**
  What a two-pass inventory of a directory says about the filesystem, while anything may change it.

  The filesystem is a history: what every inode holds at every instant. A log keeps what the two
  walks observed, one system call at a time; any number of changes can fall between two observations.
*/
module InventorySnapshots {
  import opened PathText

  type Ino = nat
  newtype Byte = x: int | 0 <= x < 256
  type Digest = nat

  datatype Option<+T> = None | Some(value: T)

  datatype Node = File(bytes: seq<Byte>) | Dir(entries: map<Name, Ino>) | Special
  datatype Inode = Inode(node: Node, stamp: nat)

  /** What each inode holds at each instant. */
  type History = (nat, Ino) -> Inode

  datatype Kind = KFile | KDir | KOther

  /** The part of a stat result that the walker compares: type, inode, size and both times. */
  datatype Info = Info(kind: Kind, ino: Ino, size: nat, stamp: nat)
  type Listing = map<Name, Info>

  datatype Record = Record(path: Path, size: nat, digest: Digest)

  datatype Code =
    | Invalid | RootUnsafe | RootChanged | FileUnsafe | FileMissing | FileChanged | FileTooLarge
    | TotalTooLarge | TooManyFiles | TooManyEntries | SchemaInvalid | DigestMismatch | InventoryMismatch

  datatype Result<+T> = Ok(value: T) | Err(code: Code) {
    predicate IsFailure() { Err? }
    function PropagateFailure<U>(): Result<U> requires Err? { Err(code) }
    function Extract(): T requires Ok? { value }
  }

  const MAX_FILES := 4096
  const MAX_ENTRIES := 8192
  const MAX_FILE_BYTES := 32 * 1024 * 1024
  const MAX_TOTAL_BYTES := 256 * 1024 * 1024
  const MAX_PATH_BYTES := 1024
  const MAX_DEPTH := 64
  const CHUNK_BYTES := 1024 * 1024

  // ------------------------------------------------------------ the filesystem at one instant

  function KindOf(n: Node): Kind {
    match n case File(_) => KFile case Dir(_) => KDir case Special => KOther
  }

  function SizeOf(n: Node): nat {
    match n case File(bytes) => |bytes| case Dir(entries) => |entries| case Special => 0
  }

  function InfoOf(h: History, t: nat, i: Ino): Info {
    Info(KindOf(h(t, i).node), i, SizeOf(h(t, i).node), h(t, i).stamp)
  }

  function ListingOf(h: History, t: nat, d: Ino): Listing
    requires h(t, d).node.Dir?
  {
    map n | n in h(t, d).node.entries :: InfoOf(h, t, h(t, d).node.entries[n])
  }

  /** The inode that a path names at instant t, starting from the root inode. */
  function Resolve(h: History, t: nat, root: Ino, path: Path): Option<Ino>
    decreases |path|
  {
    if path == [] then Some(root) else
    match Resolve(h, t, root, path[..|path| - 1])
    case None => None
    case Some(d) =>
      var n := path[|path| - 1];
      if h(t, d).node.Dir? && n in h(t, d).node.entries then Some(h(t, d).node.entries[n]) else None
  }

  predicate IsFile(h: History, t: nat, root: Ino, path: Path) {
    var i := Resolve(h, t, root, path);
    i.Some? && h(t, i.value).node.File?
  }

  // ------------------------------------------------------------ what the metadata stamps promise

  /** Every change to an inode's bytes or entries gives it a later stamp. */
  ghost predicate Stamped(h: History) {
    forall t: nat, i: Ino :: h(t + 1, i) == h(t, i) || h(t + 1, i).stamp > h(t, i).stamp
  }

  lemma {:induction false} StampGrows(h: History, i: Ino, t: nat, v: nat)
    requires Stamped(h) && t <= v
    ensures h(t, i).stamp <= h(v, i).stamp
    ensures h(t, i).stamp == h(v, i).stamp ==> h(t, i) == h(v, i)
    decreases v - t
  {
    if t < v {
      StampGrows(h, i, t, v - 1);
      assert h(v - 1 + 1, i) == h(v - 1, i) || h(v - 1 + 1, i).stamp > h(v - 1, i).stamp;
    }
  }

  /** Equal stamps at two instants pin the inode at every instant between them. */
  lemma Pinned(h: History, i: Ino, t: nat, u: nat, v: nat)
    requires Stamped(h) && t <= u <= v && h(t, i).stamp == h(v, i).stamp
    ensures h(u, i) == h(t, i)
  {
    StampGrows(h, i, t, u);
    StampGrows(h, i, u, v);
  }

  // ------------------------------------------------------------ names

  /** _relative: the joined paths an inventory may hold. */
  predicate Relative(s: string) {
    && s != "" && s[0] != '/' && '\0' !in s
    && (forall i | 0 <= i < |Split(s)| :: Split(s)[i] !in ["", ".", ".."])
    && Utf8Length(s) <= MAX_PATH_BYTES
  }

  /** Inventories hold the paths that name their places in the plain way, of bounded length and without NUL. */
  lemma RelativeMeans(s: string)
    ensures Relative(s) <==> Normal(Split(s)) == Split(s) && (forall i | 0 <= i < |s| :: s[i] != '\0') && Utf8Length(s) <= 1024
  {
    NormalMeans(Split(s));
    if s == "" { assert Split(s)[0] == ""; }
    if s != "" && s[0] == '/' { SlashFirst(s); }
  }

  lemma {:induction false} SlashFirst(s: string)
    requires s != "" && s[0] == '/'
    ensures Split(s)[0] == ""
  {
    if |s| > 1 { SlashFirst(s[..|s| - 1]); }
  }

  /** What a scan lets through: a plainly named file or directory. */
  predicate Admitted(n: Name, info: Info) {
    GoodName(n) && !info.kind.KOther?
  }

  /** The name n of d leads to the inode with this stat. */
  predicate EntryIs(h: History, t: nat, d: Ino, n: Name, info: Info) {
    Named(h, t, d, n, info.ino) && InfoOf(h, t, info.ino) == info
  }

  // ------------------------------------------------------------ what a walk has gathered

  /** Which inode was observed, and when. */
  datatype Visit = Visit(ino: Ino, at: nat)

  datatype Log = Log(
    records: seq<Record>,
    snapshots: map<Path, Listing>,
    visits: map<Path, Visit>,      // the listing behind each snapshot
    fetches: map<Path, Visit>,     // the read behind each record
    checks: map<Path, nat>)        // when the second walk listed each directory again

  predicate Under(prefix: Path, p: Path) {
    |prefix| <= |p| && p[..|prefix|] == prefix
  }

  /** The snapshot of p is what its directory held when it was listed. */
  ghost predicate Listed(h: History, l: Log, p: Path) {
    && p in l.visits && p in l.snapshots
    && h(l.visits[p].at, l.visits[p].ino).node.Dir?
    && l.snapshots[p] == ListingOf(h, l.visits[p].at, l.visits[p].ino)
    && (forall n | n in l.snapshots[p] :: Admitted(n, l.snapshots[p][n]))
  }

  predicate Named(h: History, t: nat, d: Ino, n: Name, i: Ino) {
    h(t, d).node.Dir? && n in h(t, d).node.entries && h(t, d).node.entries[n] == i
  }

  /** The entry n of the listed directory p has been followed. */
  ghost predicate Followed(h: History, l: Log, p: Path, n: Name) {
    && p in l.visits && p in l.snapshots && n in l.snapshots[p]
    && var q, info, v := p + [n], l.snapshots[p][n], l.visits[p];
       && (info.kind.KDir? ==> q in l.visits && l.visits[q].ino == info.ino && v.at <= l.visits[q].at)
       && (info.kind.KFile? ==>
             && q in l.fetches && v.at <= l.fetches[q].at
             && Named(h, l.fetches[q].at, v.ino, n, l.fetches[q].ino)
             && h(l.fetches[q].at, l.fetches[q].ino).node.File?)
  }

  ghost predicate DirDone(h: History, l: Log, p: Path) {
    Listed(h, l, p) && forall n {:trigger Followed(h, l, p, n)} | n in l.snapshots[p] :: Followed(h, l, p, n)
  }

  /** q is an entry of that kind in the snapshot of its parent. */
  predicate HasParent(l: Log, q: Path, kind: Kind) {
    && q != []
    && var p, n := q[..|q| - 1], q[|q| - 1];
       p in l.snapshots && n in l.snapshots[p] && l.snapshots[p][n].kind == kind
  }

  ghost predicate RecordOk(h: History, hash: seq<Byte> -> Digest, l: Log, r: Record) {
    && r.path in l.fetches
    && var v := l.fetches[r.path];
       && h(v.at, v.ino).node.File?
       && r.size == |h(v.at, v.ino).node.bytes| && r.digest == hash(h(v.at, v.ino).node.bytes)
       && r.size <= MAX_FILE_BYTES && Relative(Join(r.path)) && GoodNames(r.path)
  }

  ghost predicate Recorded(records: seq<Record>, p: Path) {
    exists k :: 0 <= k < |records| && records[k].path == p
  }

  predicate DistinctPaths(records: seq<Record>) {
    forall j, k | 0 <= j < k < |records| :: records[j].path != records[k].path
  }

  // ------------------------------------------------------------ the consistent-snapshot theorem

  ghost predicate VisitOk(h: History, l: Log, p: Path) {
    DirDone(h, l, p) && (p == [] || HasParent(l, p, KDir))
  }

  ghost predicate FetchOk(l: Log, q: Path) {
    HasParent(l, q, KFile) && Recorded(l.records, q)
  }

  /** The first walk is over: everything reachable was listed, followed and recorded. */
  ghost predicate Gathered(h: History, hash: seq<Byte> -> Digest, l: Log, root: Ino) {
    && [] in l.visits && l.visits[[]].ino == root
    && l.snapshots.Keys == l.visits.Keys
    && (forall p {:trigger VisitOk(h, l, p)} | p in l.visits :: VisitOk(h, l, p))
    && (forall q {:trigger FetchOk(l, q)} | q in l.fetches :: FetchOk(l, q))
    && (forall k {:trigger RecordOk(h, hash, l, l.records[k])} | 0 <= k < |l.records| ::
          RecordOk(h, hash, l, l.records[k]))
    && DistinctPaths(l.records)
  }

  /** The second walk found the listing of p again. */
  ghost predicate Rechecked(h: History, l: Log, p: Path) {
    && p in l.visits && p in l.checks && p in l.snapshots
    && h(l.checks[p], l.visits[p].ino).node.Dir?
    && ListingOf(h, l.checks[p], l.visits[p].ino) == l.snapshots[p]
  }

  ghost predicate Straddled(l: Log, T: nat, p: Path) {
    p in l.visits && p in l.checks && l.visits[p].at <= T <= l.checks[p]
  }

  /** The second walk, whose root listing was taken at instant T, found every listing again. */
  ghost predicate Confirmed(h: History, l: Log, T: nat) {
    && [] in l.checks && l.checks[[]] == T
    && (forall q | q in l.fetches :: l.fetches[q].at <= T)
    && (forall p {:trigger Rechecked(h, l, p)} | p in l.visits :: Rechecked(h, l, p))
    && (forall p {:trigger Straddled(l, T, p)} | p in l.visits :: Straddled(l, T, p))
  }

  lemma AtVisit(h: History, hash: seq<Byte> -> Digest, l: Log, root: Ino, T: nat, p: Path)
    requires Gathered(h, hash, l, root) && Confirmed(h, l, T) && p in l.visits
    ensures Listed(h, l, p) && Rechecked(h, l, p) && Straddled(l, T, p)
    ensures p == [] ==> l.visits[p].ino == root
    ensures p != [] ==>
      var q, n := p[..|p| - 1], p[|p| - 1];
      && q in l.visits && q in l.snapshots && n in l.snapshots[q] && q + [n] == p
      && l.snapshots[q][n].ino == l.visits[p].ino && l.visits[q].at <= l.visits[p].at
  {
    assert VisitOk(h, l, p);
    if p != [] {
      var q, n := p[..|p| - 1], p[|p| - 1];
      assert q + [n] == p && VisitOk(h, l, q) && Followed(h, l, q, n);
    }
  }

  /** An entry seen with the same stat at both listings of its directory never changed between. */
  lemma EntryPinned(h: History, l: Log, p: Path, n: Name, t: nat, u: nat)
    requires Stamped(h) && Listed(h, l, p) && Rechecked(h, l, p) && n in l.snapshots[p]
    requires l.visits[p].at <= t <= l.checks[p] && l.visits[p].at <= u <= l.checks[p]
    ensures h(u, l.snapshots[p][n].ino) == h(t, l.snapshots[p][n].ino)
    ensures InfoOf(h, u, l.snapshots[p][n].ino) == l.snapshots[p][n]
  {
    var i := l.snapshots[p][n].ino;
    assert InfoOf(h, l.visits[p].at, i) == l.snapshots[p][n] == InfoOf(h, l.checks[p], i);
    Pinned(h, i, l.visits[p].at, u, l.checks[p]);
    Pinned(h, i, l.visits[p].at, t, l.checks[p]);
  }

  /** Directory d held, at instant u, the entries that its snapshot names. */
  ghost predicate Holds(h: History, u: nat, d: Ino, s: Listing) {
    h(u, d).node.Dir? && forall n :: (n in s <==> n in h(u, d).node.entries) && (n in s ==> Named(h, u, d, n, s[n].ino))
  }

  /** A listed directory held its snapshot from its listing to instant T; the root needs its own stamp. */
  lemma DirPinned(h: History, hash: seq<Byte> -> Digest, l: Log, root: Ino, T: nat, p: Path, u: nat)
    requires Stamped(h) && Gathered(h, hash, l, root) && Confirmed(h, l, T)
    requires p in l.visits && l.visits[p].at <= u <= T
    requires p != [] || u == T || h(l.visits[p].at, root).stamp == h(T, root).stamp
    ensures Holds(h, u, l.visits[p].ino, l.snapshots[p])
  {
    AtVisit(h, hash, l, root, T, p);
    if p == [] {
      if u < T { Pinned(h, root, l.visits[p].at, u, T); }
    } else {
      var q, n := p[..|p| - 1], p[|p| - 1];
      AtVisit(h, hash, l, root, T, q);
      EntryPinned(h, l, q, n, l.visits[p].at, u);
    }
  }

  lemma {:induction false} VisitResolves(h: History, hash: seq<Byte> -> Digest, l: Log, root: Ino, T: nat, p: Path)
    requires Stamped(h) && Gathered(h, hash, l, root) && Confirmed(h, l, T) && p in l.visits
    ensures Resolve(h, T, root, p) == Some(l.visits[p].ino)
    decreases |p|
  {
    AtVisit(h, hash, l, root, T, p);
    if p != [] {
      var q, n := p[..|p| - 1], p[|p| - 1];
      VisitResolves(h, hash, l, root, T, q);
      AtVisit(h, hash, l, root, T, q);
      DirPinned(h, hash, l, root, T, q, T);
    }
  }

  ghost predicate SeenDir(l: Log, p: Path, i: Ino) { p in l.visits && l.visits[p].ino == i }

  ghost predicate SeenFile(l: Log, p: Path, i: Ino) {
    p in l.fetches && HasParent(l, p, KFile) && l.snapshots[p[..|p| - 1]][p[|p| - 1]].ino == i
  }

  /** Whatever the tree holds at instant T was either listed or fetched under that very path. */
  lemma {:induction false} ResolveVisited(h: History, hash: seq<Byte> -> Digest, l: Log, root: Ino, T: nat, p: Path)
    requires Stamped(h) && Gathered(h, hash, l, root) && Confirmed(h, l, T) && Resolve(h, T, root, p).Some?
    ensures var i := Resolve(h, T, root, p).value;
            (h(T, i).node.Dir? && SeenDir(l, p, i)) || (h(T, i).node.File? && SeenFile(l, p, i))
    decreases |p|
  {
    if p == [] {
      AtVisit(h, hash, l, root, T, p);
      DirPinned(h, hash, l, root, T, p, T);
    } else {
      var q, n := p[..|p| - 1], p[|p| - 1];
      assert q + [n] == p;
      ResolveVisited(h, hash, l, root, T, q);
      EntrySeen(h, hash, l, root, T, q, n);
    }
  }

  lemma EntrySeen(h: History, hash: seq<Byte> -> Digest, l: Log, root: Ino, T: nat, q: Path, n: Name)
    requires Stamped(h) && Gathered(h, hash, l, root) && Confirmed(h, l, T) && q in l.visits
    requires h(T, l.visits[q].ino).node.Dir? && n in h(T, l.visits[q].ino).node.entries
    ensures var i := h(T, l.visits[q].ino).node.entries[n];
            (h(T, i).node.Dir? && SeenDir(l, q + [n], i)) || (h(T, i).node.File? && SeenFile(l, q + [n], i))
  {
    AtVisit(h, hash, l, root, T, q);
    DirPinned(h, hash, l, root, T, q, T);
    assert n in l.snapshots[q] && Named(h, T, l.visits[q].ino, n, l.snapshots[q][n].ino);
    assert VisitOk(h, l, q) && Followed(h, l, q, n);
    EntryPinned(h, l, q, n, T, T);
    var p := q + [n];
    assert p[..|p| - 1] == q && p[|p| - 1] == n;
  }

  /** Where the record of q came from. */
  lemma AtFetch(h: History, hash: seq<Byte> -> Digest, l: Log, root: Ino, T: nat, q: Path)
    requires Gathered(h, hash, l, root) && Confirmed(h, l, T) && q in l.fetches
    ensures q != []
    ensures var p, n := q[..|q| - 1], q[|q| - 1];
            && p in l.visits && p in l.snapshots && n in l.snapshots[p] && l.snapshots[p][n].kind.KFile?
            && l.visits[p].at <= l.fetches[q].at <= T
            && Named(h, l.fetches[q].at, l.visits[p].ino, n, l.fetches[q].ino)
  {
    assert FetchOk(l, q);
    var p, n := q[..|q| - 1], q[|q| - 1];
    assert p + [n] == q && VisitOk(h, l, p) && Followed(h, l, p, n);
  }

  /** The path of a record names, at instant T, the file that its directory listed. */
  lemma FetchResolves(h: History, hash: seq<Byte> -> Digest, l: Log, root: Ino, T: nat, q: Path)
    requires Stamped(h) && Gathered(h, hash, l, root) && Confirmed(h, l, T) && q in l.fetches
    ensures IsFile(h, T, root, q) && HasParent(l, q, KFile)
    ensures Resolve(h, T, root, q).value == l.snapshots[q[..|q| - 1]][q[|q| - 1]].ino
  {
    AtFetch(h, hash, l, root, T, q);
    var p, n := q[..|q| - 1], q[|q| - 1];
    AtVisit(h, hash, l, root, T, p);
    VisitResolves(h, hash, l, root, T, p);
    DirPinned(h, hash, l, root, T, p, T);
    EntryPinned(h, l, p, n, T, T);
  }

  /** What was read for a record is what its path holds at instant T. */
  lemma FetchRight(h: History, hash: seq<Byte> -> Digest, l: Log, root: Ino, T: nat, q: Path)
    requires Stamped(h) && Gathered(h, hash, l, root) && Confirmed(h, l, T) && q in l.fetches
    requires |q| > 1 || h(l.visits[[]].at, root).stamp == h(T, root).stamp
    ensures IsFile(h, T, root, q)
    ensures h(l.fetches[q].at, l.fetches[q].ino).node == h(T, Resolve(h, T, root, q).value).node
  {
    AtFetch(h, hash, l, root, T, q);
    FetchResolves(h, hash, l, root, T, q);
    var p, n := q[..|q| - 1], q[|q| - 1];
    AtVisit(h, hash, l, root, T, p);
    DirPinned(h, hash, l, root, T, p, l.fetches[q].at);
    EntryPinned(h, l, p, n, T, l.fetches[q].at);
  }

  /** A record gives the size and digest of the file that its path names at instant T. */
  ghost predicate RecordRight(h: History, hash: seq<Byte> -> Digest, T: nat, root: Ino, r: Record) {
    && IsFile(h, T, root, r.path)
    && var bytes := h(T, Resolve(h, T, root, r.path).value).node.bytes;
       r.size == |bytes| && r.digest == hash(bytes)
  }

  /** The records name exactly the regular files of the tree at instant T, once each. */
  ghost predicate PathsAt(h: History, T: nat, root: Ino, records: seq<Record>) {
    && DistinctPaths(records)
    && (forall p :: IsFile(h, T, root, p) <==> Recorded(records, p))
  }

  /** The records are exactly the regular files of the tree at instant T, with their bytes. */
  ghost predicate SnapshotAt(h: History, hash: seq<Byte> -> Digest, T: nat, root: Ino, records: seq<Record>) {
    && PathsAt(h, T, root, records)
    && (forall k | 0 <= k < |records| :: RecordRight(h, hash, T, root, records[k]))
  }

  lemma PathsExact(h: History, hash: seq<Byte> -> Digest, l: Log, root: Ino, T: nat)
    requires Stamped(h) && Gathered(h, hash, l, root) && Confirmed(h, l, T)
    ensures PathsAt(h, T, root, l.records)
  {
    forall p ensures IsFile(h, T, root, p) <==> Recorded(l.records, p) {
      if IsFile(h, T, root, p) {
        ResolveVisited(h, hash, l, root, T, p);
        assert FetchOk(l, p);
      }
      if Recorded(l.records, p) {
        var k :| 0 <= k < |l.records| && l.records[k].path == p;
        assert RecordOk(h, hash, l, l.records[k]);
        FetchResolves(h, hash, l, root, T, p);
      }
    }
  }

  /** A record below a subdirectory is always right; one directly in the root if the root kept its stamp. */
  lemma RecordsRight(h: History, hash: seq<Byte> -> Digest, l: Log, root: Ino, T: nat, k: nat)
    requires Stamped(h) && Gathered(h, hash, l, root) && Confirmed(h, l, T) && k < |l.records|
    requires |l.records[k].path| > 1 || h(l.visits[[]].at, root).stamp == h(T, root).stamp
    ensures RecordRight(h, hash, T, root, l.records[k])
  {
    assert RecordOk(h, hash, l, l.records[k]);
    FetchRight(h, hash, l, root, T, l.records[k].path);
  }

  lemma ConsistentSnapshot(h: History, hash: seq<Byte> -> Digest, l: Log, root: Ino, T: nat)
    requires Stamped(h) && Gathered(h, hash, l, root) && Confirmed(h, l, T)
    requires h(l.visits[[]].at, root).stamp == h(T, root).stamp
    ensures SnapshotAt(h, hash, T, root, l.records)
  {
    PathsExact(h, hash, l, root, T);
    forall k | 0 <= k < |l.records| ensures RecordRight(h, hash, T, root, l.records[k]) {
      RecordsRight(h, hash, l, root, T, k);
    }
  }

  // ------------------------------------------------------------ exactly when an inventory is a snapshot

  /** Only records of files directly in the root can be wrong. */
  lemma RootRecordsDecide(h: History, hash: seq<Byte> -> Digest, l: Log, root: Ino, T: nat)
    requires Stamped(h) && Gathered(h, hash, l, root) && Confirmed(h, l, T)
    ensures SnapshotAt(h, hash, T, root, l.records) <==>
            forall k | 0 <= k < |l.records| && |l.records[k].path| == 1 :: RecordRight(h, hash, T, root, l.records[k])
  {
    PathsExact(h, hash, l, root, T);
    forall k | 0 <= k < |l.records| && |l.records[k].path| != 1 ensures RecordRight(h, hash, T, root, l.records[k]) {
      assert RecordOk(h, hash, l, l.records[k]) && FetchOk(l, l.records[k].path);
      RecordsRight(h, hash, l, root, T, k);
    }
  }

  /** If at instant t the listed name n of the root leads to a file that can be read, it is like the one listed. */
  ghost predicate SteadyAt(h: History, hash: seq<Byte> -> Digest, l: Log, root: Ino, T: nat, t: nat, n: Name, j: Ino) {
    ([] in l.visits && l.visits[[]].at <= t <= T && HasParent(l, [n], KFile)
    && Named(h, t, root, n, j) && h(t, j).node.File? && |h(t, j).node.bytes| <= MAX_FILE_BYTES) ==>
      var i := l.snapshots[[]][n].ino;
      && h(T, i).node.File? && |h(t, j).node.bytes| == |h(T, i).node.bytes|
      && hash(h(t, j).node.bytes) == hash(h(T, i).node.bytes)
  }

  /** Between the two root listings no name in the root ever leads to another readable content. */
  ghost predicate RootSteady(h: History, hash: seq<Byte> -> Digest, l: Log, root: Ino, T: nat) {
    forall t, n, j {:trigger SteadyAt(h, hash, l, root, T, t, n, j)} :: SteadyAt(h, hash, l, root, T, t, n, j)
  }

  /** Two logs of the same listings, whatever was read between them. */
  predicate SameListings(a: Log, b: Log) {
    a.visits == b.visits && a.snapshots == b.snapshots && a.checks == b.checks
  }

  lemma SteadyRight(h: History, hash: seq<Byte> -> Digest, l: Log, root: Ino, T: nat, k: nat)
    requires Stamped(h) && Gathered(h, hash, l, root) && Confirmed(h, l, T) && RootSteady(h, hash, l, root, T)
    requires k < |l.records| && |l.records[k].path| == 1
    ensures RecordRight(h, hash, T, root, l.records[k])
  {
    var r := l.records[k];
    assert RecordOk(h, hash, l, r);
    var v, n := l.fetches[r.path], r.path[0];
    AtFetch(h, hash, l, root, T, r.path);
    FetchResolves(h, hash, l, root, T, r.path);
    assert r.path == [n] && r.path[..0] == [];
    assert SteadyAt(h, hash, l, root, T, v.at, n, v.ino);
  }

  /** The log of a run that read the file j at instant t instead, under the listed name n of the root. */
  function Reread(h: History, hash: seq<Byte> -> Digest, l: Log, k: nat, t: nat, j: Ino): Log
    requires k < |l.records| && h(t, j).node.File?
  {
    var q, bytes := l.records[k].path, h(t, j).node.bytes;
    l.(fetches := l.fetches[q := Visit(j, t)], records := l.records[k := Record(q, |bytes|, hash(bytes))])
  }

  lemma RereadFollowed(h: History, hash: seq<Byte> -> Digest, l: Log, root: Ino, T: nat, k: nat, n: Name, t: nat, j: Ino, p: Path)
    requires Gathered(h, hash, l, root) && k < |l.records| && l.records[k].path == [n]
    requires l.visits[[]].at <= t <= T && Named(h, t, root, n, j) && h(t, j).node.File?
    requires p in l.visits
    ensures VisitOk(h, Reread(h, hash, l, k, t, j), p)
  {
    var m := Reread(h, hash, l, k, t, j);
    assert VisitOk(h, l, p);
    forall x | x in m.snapshots[p] ensures Followed(h, m, p, x) {
      assert Followed(h, l, p, x);
      if p + [x] == [n] {
        assert |p + [x]| == 1 && (p + [x])[|p|] == x;
        assert p == [];
      }
    }
  }

  lemma RereadRecords(h: History, hash: seq<Byte> -> Digest, l: Log, root: Ino, k: nat, n: Name, t: nat, j: Ino)
    requires Gathered(h, hash, l, root) && k < |l.records| && l.records[k].path == [n]
    requires h(t, j).node.File? && |h(t, j).node.bytes| <= MAX_FILE_BYTES
    ensures var m := Reread(h, hash, l, k, t, j);
            && (forall q {:trigger FetchOk(m, q)} | q in m.fetches :: FetchOk(m, q))
            && (forall i {:trigger RecordOk(h, hash, m, m.records[i])} | 0 <= i < |m.records| :: RecordOk(h, hash, m, m.records[i]))
            && DistinctPaths(m.records)
  {
    var m := Reread(h, hash, l, k, t, j);
    assert forall i | 0 <= i < |l.records| :: m.records[i].path == l.records[i].path;
    forall q | q in m.fetches ensures FetchOk(m, q) {
      assert RecordOk(h, hash, l, l.records[k]) && FetchOk(l, q);
      var i :| 0 <= i < |l.records| && l.records[i].path == q;
      assert m.records[i].path == q;
    }
    forall i | 0 <= i < |m.records| ensures RecordOk(h, hash, m, m.records[i]) { assert RecordOk(h, hash, l, l.records[i]); }
  }

  /** Such a log passes everything that both walks compare. */
  lemma RereadPasses(h: History, hash: seq<Byte> -> Digest, l: Log, root: Ino, T: nat, k: nat, n: Name, t: nat, j: Ino)
    requires Gathered(h, hash, l, root) && Confirmed(h, l, T) && k < |l.records| && l.records[k].path == [n]
    requires l.visits[[]].at <= t <= T && Named(h, t, root, n, j)
    requires h(t, j).node.File? && |h(t, j).node.bytes| <= MAX_FILE_BYTES
    ensures var m := Reread(h, hash, l, k, t, j);
            SameListings(l, m) && Gathered(h, hash, m, root) && Confirmed(h, m, T)
  {
    var m := Reread(h, hash, l, k, t, j);
    RereadRecords(h, hash, l, root, k, n, t, j);
    forall p | p in m.visits ensures VisitOk(h, m, p) { RereadFollowed(h, hash, l, root, T, k, n, t, j, p); }
    forall p | p in m.visits ensures Rechecked(h, m, p) && Straddled(m, T, p) {
      assert Rechecked(h, l, p) && Straddled(l, T, p);
    }
  }

  /** The record of a listed name of the root. */
  lemma RootRecord(h: History, hash: seq<Byte> -> Digest, l: Log, root: Ino, n: Name) returns (k: nat)
    requires Gathered(h, hash, l, root) && HasParent(l, [n], KFile)
    ensures k < |l.records| && l.records[k].path == [n]
  {
    var p: Path := [];
    assert [n][..0] == p && p + [n] == [n];
    assert VisitOk(h, l, p) && Followed(h, l, p, n) && FetchOk(l, [n]);
    k :| 0 <= k < |l.records| && l.records[k].path == [n];
  }

  /**
    Given their listings, logs are a snapshot's whatever was read between them, if and only if between the
    two root listings no listed name of the root leads to a readable content that differs from the listed file's.
  */
  lemma SnapshotDecides(h: History, hash: seq<Byte> -> Digest, l: Log, root: Ino, T: nat)
    requires Stamped(h) && Gathered(h, hash, l, root) && Confirmed(h, l, T)
    ensures (forall m {:trigger SameListings(l, m)} | SameListings(l, m) && Gathered(h, hash, m, root) && Confirmed(h, m, T) ::
               SnapshotAt(h, hash, T, root, m.records))
            <==> RootSteady(h, hash, l, root, T)
  {
    if RootSteady(h, hash, l, root, T) {
      forall m | SameListings(l, m) && Gathered(h, hash, m, root) && Confirmed(h, m, T) ensures SnapshotAt(h, hash, T, root, m.records) {
        forall t, n, j ensures SteadyAt(h, hash, m, root, T, t, n, j) { assert SteadyAt(h, hash, l, root, T, t, n, j); }
        forall k | 0 <= k < |m.records| && |m.records[k].path| == 1 ensures RecordRight(h, hash, T, root, m.records[k]) {
          SteadyRight(h, hash, m, root, T, k);
        }
        RootRecordsDecide(h, hash, m, root, T);
      }
    } else {
      var t, n, j :| !SteadyAt(h, hash, l, root, T, t, n, j);
      Unsteady(h, hash, l, root, T, t, n, j);
    }
  }

  lemma Unsteady(h: History, hash: seq<Byte> -> Digest, l: Log, root: Ino, T: nat, t: nat, n: Name, j: Ino)
    requires Stamped(h) && Gathered(h, hash, l, root) && Confirmed(h, l, T) && !SteadyAt(h, hash, l, root, T, t, n, j)
    ensures exists m :: SameListings(l, m) && Gathered(h, hash, m, root) && Confirmed(h, m, T) && !SnapshotAt(h, hash, T, root, m.records)
  {
    var k := RootRecord(h, hash, l, root, n);
    var m := Reread(h, hash, l, k, t, j);
    RereadPasses(h, hash, l, root, T, k, n, t, j);
    assert [n][..0] == [] && m.records[k].path == [n];
    assert RecordOk(h, hash, m, m.records[k]);
    FetchResolves(h, hash, m, root, T, [n]);
    assert !RecordRight(h, hash, T, root, m.records[k]);
  }

  // ------------------------------------------------------------ why the root needs its own stamp

  /** The instants of the system calls of both walks over a root that holds one file. */
  datatype Instants = Instants(
    list: nat, look: nat,                                                      // the listing, the loop's stat
    before: nat, reach: nat, held: nat, read: nat, after: nat, named: nat,     // the read
    close: nat, relist: nat, relook: nat, reclose: nat)                        // the closing listing, the second walk

  predicate InSequence(t: Instants) {
    t.list <= t.look <= t.before <= t.reach <= t.held <= t.read <= t.after <= t.named <= t.close <= t.relist <= t.relook <= t.reclose
  }

  predicate Lists(h: History, t: nat, d: Ino, s: Listing) { h(t, d).node.Dir? && ListingOf(h, t, d) == s }

  /** What _read_file compares when it reads the inode j under the name n of d. */
  predicate ReadGoes(h: History, d: Ino, n: Name, j: Ino, t: Instants) {
    var info := InfoOf(h, t.before, j);
    && EntryIs(h, t.before, d, n, info) && info.kind.KFile? && info.size <= MAX_FILE_BYTES
    && Named(h, t.reach, d, n, j) && InfoOf(h, t.held, j) == info && InfoOf(h, t.after, j) == info
    && EntryIs(h, t.named, d, n, info)
  }

  /** Both walks go through: every comparison that they make, in the order in which they make it. */
  predicate OneFileRun(h: History, root: Ino, n: Name, j: Ino, t: Instants) {
    InSequence(t) && h(t.list, root).node.Dir? &&
    var s := ListingOf(h, t.list, root);
    && s.Keys == {n} && Admitted(n, s[n]) && s[n].kind.KFile? && Relative(n)
    && EntryIs(h, t.look, root, n, s[n]) && ReadGoes(h, root, n, j, t) && Lists(h, t.close, root, s)
    && Lists(h, t.relist, root, s) && EntryIs(h, t.relook, root, n, s[n]) && Lists(h, t.reclose, root, s)
  }

  /** What such a run logs: the content at the first stat, which the equal stat after the reads pins. */
  function OneFileLog(h: History, hash: seq<Byte> -> Digest, root: Ino, n: Name, j: Ino, t: Instants): Log
    requires h(t.list, root).node.Dir? && h(t.before, j).node.File?
  {
    var bytes := h(t.before, j).node.bytes;
    Log([Record([n], |bytes|, hash(bytes))], map[[] := ListingOf(h, t.list, root)], map[[] := Visit(root, t.list)],
        map[[n] := Visit(j, t.before)], map[[] := t.relist])
  }

  lemma OneFileFollowed(h: History, hash: seq<Byte> -> Digest, root: Ino, n: Name, j: Ino, t: Instants)
    requires OneFileRun(h, root, n, j, t)
    ensures var l := OneFileLog(h, hash, root, n, j, t);
            VisitOk(h, l, []) && Rechecked(h, l, []) && Straddled(l, t.relist, []) && FetchOk(l, [n]) && RecordOk(h, hash, l, l.records[0])
  {
    var l := OneFileLog(h, hash, root, n, j, t);
    var p: Path, q: Path := [], [n];
    assert p + [n] == q && q[..0] == p;
    assert Followed(h, l, p, n);
    assert l.records[0].path == q && GoodNames(q) && Join(q) == n;
  }

  /** And that log passes for a snapshot's. */
  lemma OneFileLogged(h: History, hash: seq<Byte> -> Digest, root: Ino, n: Name, j: Ino, t: Instants)
    requires Stamped(h) && OneFileRun(h, root, n, j, t)
    ensures h(t.read, j) == h(t.before, j)
    ensures Gathered(h, hash, OneFileLog(h, hash, root, n, j, t), root) && Confirmed(h, OneFileLog(h, hash, root, n, j, t), t.relist)
  {
    Pinned(h, j, t.before, t.read, t.after);
    OneFileFollowed(h, hash, root, n, j, t);
    var l := OneFileLog(h, hash, root, n, j, t);
    assert forall q | q in l.fetches :: FetchOk(l, q);
    assert RecordOk(h, hash, l, l.records[0]);
  }

  /** Two listings of the root, at instants a and T, that show one and the same file. */
  predicate OneFileRoot(h: History, root: Ino, n: Name, a: nat, T: nat) {
    a <= T && h(a, root).node.Dir? &&
    var s := ListingOf(h, a, root);
    s.Keys == {n} && Admitted(n, s[n]) && s[n].kind.KFile? && Relative(n) && Lists(h, T, root, s)
  }

  /** If at instant u the name leads to a file that can be read, it is like the one listed. */
  ghost predicate OneSteadyAt(h: History, hash: seq<Byte> -> Digest, root: Ino, n: Name, a: nat, T: nat, u: nat, j: Ino) {
    (OneFileRoot(h, root, n, a, T) && a <= u <= T
     && Named(h, u, root, n, j) && h(u, j).node.File? && |h(u, j).node.bytes| <= MAX_FILE_BYTES) ==>
      var i := ListingOf(h, a, root)[n].ino;
      && h(T, i).node.File? && |h(u, j).node.bytes| == |h(T, i).node.bytes|
      && hash(h(u, j).node.bytes) == hash(h(T, i).node.bytes)
  }

  /** A whole run between two root listings, and what it records. */
  ghost predicate RunRight(h: History, hash: seq<Byte> -> Digest, root: Ino, n: Name, a: nat, T: nat, j: Ino, t: Instants) {
    t.list == a && t.relist == T && OneFileRun(h, root, n, j, t) ==>
      RecordRight(h, hash, T, root, OneFileLog(h, hash, root, n, j, t).records[0])
  }

  lemma OneFileResolves(h: History, root: Ino, n: Name, a: nat, T: nat)
    requires OneFileRoot(h, root, n, a, T)
    ensures var i := ListingOf(h, a, root)[n].ino;
            Resolve(h, T, root, [n]) == Some(i) && h(T, i).node.File?
  {
    var p: Path, q: Path := [], [n];
    assert q[..0] == p && Resolve(h, T, root, p) == Some(root);
    assert n in ListingOf(h, T, root) && ListingOf(h, T, root)[n] == ListingOf(h, a, root)[n];
  }

  /** The run that looks at instant a, reads at instant u and lists again at instant T. */
  lemma UnsteadyRun(h: History, hash: seq<Byte> -> Digest, root: Ino, n: Name, a: nat, T: nat, u: nat, j: Ino)
    requires OneFileRoot(h, root, n, a, T) && !OneSteadyAt(h, hash, root, n, a, T, u, j)
    ensures !RunRight(h, hash, root, n, a, T, j, Instants(a, a, u, u, u, u, u, u, T, T, T, T))
  {
    var t, s := Instants(a, a, u, u, u, u, u, u, T, T, T, T), ListingOf(h, a, root);
    assert n in s && n in ListingOf(h, T, root);
    assert EntryIs(h, a, root, n, s[n]) && EntryIs(h, T, root, n, s[n]);
    assert ReadGoes(h, root, n, j, t);
    assert OneFileRun(h, root, n, j, t);
    OneFileResolves(h, root, n, a, T);
  }

  /**
    Over the walker's own runs: with these root listings every run records the listed file's bytes, whatever the
    instants of its other system calls, if and only if the name never leads to another readable content between.
  */
  lemma OneFileDecides(h: History, hash: seq<Byte> -> Digest, root: Ino, n: Name, a: nat, T: nat)
    requires Stamped(h) && OneFileRoot(h, root, n, a, T)
    ensures (forall j, t {:trigger RunRight(h, hash, root, n, a, T, j, t)} :: RunRight(h, hash, root, n, a, T, j, t))
            <==> (forall u, j {:trigger OneSteadyAt(h, hash, root, n, a, T, u, j)} :: OneSteadyAt(h, hash, root, n, a, T, u, j))
  {
    forall u, j | !OneSteadyAt(h, hash, root, n, a, T, u, j)
      ensures exists t :: !RunRight(h, hash, root, n, a, T, j, t)
    {
      UnsteadyRun(h, hash, root, n, a, T, u, j);
    }
    forall j, t | !RunRight(h, hash, root, n, a, T, j, t) ensures !OneSteadyAt(h, hash, root, n, a, T, t.before, j) {
      OneFileResolves(h, root, n, a, T);
      var q: Path := [n];
      assert OneFileLog(h, hash, root, n, j, t).records[0].path == q;
    }
  }

  /** The root's only name leads to another file at instant 2, and back again at instant 3. */
  function SwapHistory(): History {
    (t: nat, i: Ino) =>
      if i == 0 then Inode(Dir(map["x" := if t == 2 then 2 else 1]), t)
      else if i == 1 then Inode(File([1]), 0) else Inode(File([2]), 0)
  }

  const SWAP_RUN := Instants(1, 1, 2, 2, 2, 2, 2, 2, 3, 3, 3, 3)

  lemma SwapRuns(hash: seq<Byte> -> Digest)
    ensures Stamped(SwapHistory()) && OneFileRun(SwapHistory(), 0, "x", 2, SWAP_RUN)
  {
    var h, s := SwapHistory(), ListingOf(SwapHistory(), 1, 0);
    SplitPlain("x");
    assert Split("x") == ["x"] && Utf8Length("x") == 1;
    assert Relative("x");
    assert s == map["x" := Info(KFile, 1, 1, 0)] == ListingOf(h, 3, 0);
  }

  /**
    Every stamp grows with every change, both walks go through all their comparisons, and still the record
    of x carries bytes that x never held at a listing: nothing compares the root's own stamp.
  */
  lemma RootSwap(hash: seq<Byte> -> Digest)
    requires hash([1]) != hash([2])
    ensures var h, l := SwapHistory(), OneFileLog(SwapHistory(), hash, 0, "x", 2, SWAP_RUN);
            && Stamped(h) && OneFileRun(h, 0, "x", 2, SWAP_RUN) && Gathered(h, hash, l, 0) && Confirmed(h, l, 3)
            && !RecordRight(h, hash, 3, 0, l.records[0]) && h(1, 0).stamp != h(3, 0).stamp
  {
    var h := SwapHistory();
    var p: Path := [];
    var q: Path := ["x"];
    SwapRuns(hash);
    OneFileLogged(h, hash, 0, "x", 2, SWAP_RUN);
    assert q[..0] == p && OneFileLog(h, hash, 0, "x", 2, SWAP_RUN).records[0].path == q;
    assert Resolve(h, 3, 0, p) == Some(0) && Resolve(h, 3, 0, q) == Some(1);
  }
}
