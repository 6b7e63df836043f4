/**
  The two-pass inventory of a retained campaign directory: the walker, the inventory record, its
  validator and the audit.
*/
module CampaignInventory {
  import opened PathText
  import opened InventorySnapshots

  // ------------------------------------------------------------ how a walk extends its log

  predicate Kept(a: Log, b: Log, prefix: Path, p: Path) {
    && (p in a.visits ==> p in b.visits && b.visits[p] == a.visits[p])
    && (p in a.snapshots ==> p in b.snapshots && b.snapshots[p] == a.snapshots[p])
    && (p in a.fetches ==> p in b.fetches && b.fetches[p] == a.fetches[p])
    && ((p in b.visits && p !in a.visits) || (p in b.fetches && p !in a.fetches) ==> Under(prefix, p))
  }

  /** The log b adds to a only what lies under prefix. */
  ghost predicate Grew(a: Log, b: Log, prefix: Path) {
    a.records <= b.records && a.checks == b.checks && forall p {:trigger Kept(a, b, prefix, p)} :: Kept(a, b, prefix, p)
  }

  lemma UnderUnder(prefix: Path, q: Path, p: Path)
    requires Under(prefix, q) && Under(q, p)
    ensures Under(prefix, p)
  {
    assert p[..|prefix|] == p[..|q|][..|prefix|];
  }

  lemma GrewOn(a: Log, b: Log, c: Log, prefix: Path, q: Path)
    requires Grew(a, b, prefix) && Grew(b, c, q) && Under(prefix, q)
    ensures Grew(a, c, prefix)
  {
    forall p ensures Kept(a, c, prefix, p) {
      assert Kept(a, b, prefix, p) && Kept(b, c, q, p);
      if Under(q, p) { UnderUnder(prefix, q, p); }
    }
  }

  lemma FollowedGrows(h: History, a: Log, b: Log, prefix: Path, p: Path, n: Name)
    requires Grew(a, b, prefix) && Followed(h, a, p, n)
    ensures Followed(h, b, p, n)
  {
    assert Kept(a, b, prefix, p) && Kept(a, b, prefix, p + [n]);
  }

  lemma VisitGrows(h: History, a: Log, b: Log, prefix: Path, p: Path)
    requires Grew(a, b, prefix) && VisitOk(h, a, p)
    ensures VisitOk(h, b, p)
  {
    assert Kept(a, b, prefix, p);
    if p != [] { assert Kept(a, b, prefix, p[..|p| - 1]); }
    forall n | n in b.snapshots[p] ensures Followed(h, b, p, n) {
      assert Followed(h, a, p, n);
      FollowedGrows(h, a, b, prefix, p, n);
    }
  }

  /** p is one of the first k directories on the way down path, which are still being walked. */
  predicate Open(path: Path, k: nat, p: Path) {
    |p| < k && |p| <= |path| && path[..|p|] == p
  }

  ghost predicate LogOk(h: History, hash: seq<Byte> -> Digest, l: Log, path: Path, k: nat) {
    && l.snapshots.Keys == l.visits.Keys
    && (forall p {:trigger VisitOk(h, l, p)} {:trigger Open(path, k, p)} | p in l.visits && !Open(path, k, p) :: VisitOk(h, l, p))
    && (forall q {:trigger FetchOk(l, q)} | q in l.fetches :: FetchOk(l, q))
    && (forall k {:trigger RecordOk(h, hash, l, l.records[k])} | 0 <= k < |l.records| ::
          RecordOk(h, hash, l, l.records[k]))
    && DistinctPaths(l.records)
  }

  predicate Vacant(l: Log, prefix: Path, p: Path) {
    Under(prefix, p) ==> p !in l.visits && p !in l.fetches
  }

  /** Nothing below prefix has been seen yet. */
  ghost predicate Free(l: Log, prefix: Path) {
    forall p {:trigger Vacant(l, prefix, p)} :: Vacant(l, prefix, p)
  }

  predicate Dated(l: Log, now: nat, p: Path) {
    && (p in l.visits ==> l.visits[p].at <= now)
    && (p in l.fetches ==> l.fetches[p].at <= now)
  }

  ghost predicate Past(l: Log, now: nat) {
    forall p {:trigger Dated(l, now, p)} :: Dated(l, now, p)
  }

  lemma PastKept(a: Log, b: Log, t: nat, now: nat)
    requires Past(a, t) && t <= now
    requires b.visits == a.visits && b.fetches == a.fetches
    ensures Past(b, now)
  {
    forall p ensures Dated(b, now, p) { assert Dated(a, t, p); }
  }

  lemma PastVisited(a: Log, b: Log, t: nat, prefix: Path, v: Visit)
    requires Past(a, t) && t <= v.at
    requires b.visits == a.visits[prefix := v] && b.fetches == a.fetches
    ensures Past(b, v.at)
  {
    forall p ensures Dated(b, v.at, p) { assert Dated(a, t, p); }
  }

  lemma PastFetched(a: Log, b: Log, t: nat, q: Path, v: Visit, now: nat)
    requires Past(a, t) && t <= v.at <= now
    requires b.visits == a.visits && b.fetches == a.fetches[q := v]
    ensures Past(b, now)
  {
    forall p ensures Dated(b, now, p) { assert Dated(a, t, p); }
  }

  lemma FreeKept(a: Log, b: Log, prefix: Path, m: Name, n: Name)
    requires Grew(a, b, prefix + [m]) && Free(a, prefix + [n]) && m != n
    ensures Free(b, prefix + [n])
  {
    forall p ensures Vacant(b, prefix + [n], p) {
      BelowUnder(prefix, m, p);
      BelowUnder(prefix, n, p);
      assert Kept(a, b, prefix + [m], p) && Vacant(a, prefix + [n], p);
    }
  }

  /** The listing of a directory enters the log. */
  lemma ListingLogged(h: History, hash: seq<Byte> -> Digest, a: Log, b: Log, prefix: Path, v: Visit, s: Listing)
    requires LogOk(h, hash, a, prefix, |prefix|) && Free(a, prefix)
    requires b == a.(snapshots := a.snapshots[prefix := s], visits := a.visits[prefix := v])
    ensures LogOk(h, hash, b, prefix, |prefix| + 1) && Grew(a, b, prefix)
    ensures forall n :: Free(b, prefix + [n])
  {
    assert Under(prefix, prefix);
    assert Vacant(a, prefix, prefix);
    forall p ensures Kept(a, b, prefix, p) { }
    assert Open(prefix, |prefix| + 1, prefix);
    forall p | p in b.visits && !Open(prefix, |prefix| + 1, p) ensures VisitOk(h, b, p) {
      assert !Open(prefix, |prefix|, p);
      VisitGrows(h, a, b, prefix, p);
    }
    forall q | q in b.fetches ensures FetchOk(b, q) { assert FetchOk(a, q); }
    forall k | 0 <= k < |b.records| ensures RecordOk(h, hash, b, b.records[k]) {
      assert RecordOk(h, hash, a, a.records[k]);
    }
    forall n ensures Free(b, prefix + [n]) {
      forall p ensures Vacant(b, prefix + [n], p) {
        BelowUnder(prefix, n, p);
        assert Vacant(a, prefix, p);
      }
    }
  }

  lemma FirstListed(h: History, hash: seq<Byte> -> Digest, a: Log, b: Log, prefix: Path, d: Ino, t: nat, now: nat, s: Listing)
    requires LogOk(h, hash, a, prefix, |prefix|) && Free(a, prefix) && Past(a, t) && t <= now
    requires b == a.(snapshots := a.snapshots[prefix := s], visits := a.visits[prefix := Visit(d, now)])
    requires h(now, d).node.Dir? && s == ListingOf(h, now, d) && forall n | n in s :: Admitted(n, s[n])
    ensures LogOk(h, hash, b, prefix, |prefix| + 1) && Grew(a, b, prefix) && Past(b, now)
    ensures (forall n :: Free(b, prefix + [n])) && Listed(h, b, prefix)
  {
    PastVisited(a, b, t, prefix, Visit(d, now));
    ListingLogged(h, hash, a, b, prefix, Visit(d, now), s);
  }

  lemma FetchesLogged(a: Log, b: Log, r: Record, v: Visit)
    requires forall q {:trigger FetchOk(a, q)} | q in a.fetches :: FetchOk(a, q)
    requires b == a.(records := a.records + [r], fetches := a.fetches[r.path := v]) && HasParent(a, r.path, KFile)
    ensures forall q {:trigger FetchOk(b, q)} | q in b.fetches :: FetchOk(b, q)
  {
    forall p | p in b.fetches ensures FetchOk(b, p) {
      if p == r.path {
        assert b.records[|a.records|].path == p;
      } else {
        assert FetchOk(a, p);
        var k :| 0 <= k < |a.records| && a.records[k].path == p;
        assert b.records[k].path == p;
      }
    }
  }

  /** The read of a file enters the log. */
  lemma RecordLogged(h: History, hash: seq<Byte> -> Digest, a: Log, b: Log, prefix: Path, n: Name, v: Visit, r: Record)
    requires LogOk(h, hash, a, prefix, |prefix| + 1) && Free(a, prefix + [n])
    requires prefix in a.visits && prefix in a.snapshots && n in a.snapshots[prefix]
    requires a.snapshots[prefix][n].kind.KFile? && a.visits[prefix].at <= v.at
    requires Named(h, v.at, a.visits[prefix].ino, n, v.ino) && r.path == prefix + [n]
    requires b == a.(records := a.records + [r], fetches := a.fetches[r.path := v])
    requires RecordOk(h, hash, b, r)
    ensures LogOk(h, hash, b, prefix, |prefix| + 1) && Grew(a, b, prefix + [n])
    ensures Followed(h, b, prefix, n)
  {
    var q := r.path;
    assert Under(q, q) && Vacant(a, q, q);
    forall p ensures Kept(a, b, q, p) { }
    assert q[..|q| - 1] == prefix && q[|q| - 1] == n;
    forall p | p in b.visits && !Open(prefix, |prefix| + 1, p) ensures VisitOk(h, b, p) {
      VisitGrows(h, a, b, q, p);
    }
    FetchesLogged(a, b, r, v);
    forall k | 0 <= k < |b.records| ensures RecordOk(h, hash, b, b.records[k]) && (k < |a.records| ==> b.records[k].path != q) {
      if k < |a.records| { assert RecordOk(h, hash, a, a.records[k]); }
    }
  }

  lemma FileLogged(h: History, hash: seq<Byte> -> Digest, a: Log, b: Log, prefix: Path, n: Name, v: Visit, r: Record, t: nat, now: nat)
    requires LogOk(h, hash, a, prefix, |prefix| + 1) && Free(a, prefix + [n]) && Past(a, t) && t <= v.at <= now
    requires prefix in a.visits && prefix in a.snapshots && n in a.snapshots[prefix] && a.snapshots[prefix][n].kind.KFile?
    requires ReadRight(h, hash, a.visits[prefix].ino, n, v, r.size, r.digest)
    requires r.path == prefix + [n] && Relative(Join(r.path)) && GoodNames(r.path)
    requires b == a.(records := a.records + [r], fetches := a.fetches[r.path := v])
    ensures LogOk(h, hash, b, prefix, |prefix| + 1) && Grew(a, b, prefix + [n]) && Followed(h, b, prefix, n) && Past(b, now)
  {
    assert Dated(a, t, prefix);
    PastFetched(a, b, t, r.path, v, now);
    RecordLogged(h, hash, a, b, prefix, n, v, r);
  }

  /** Every entry of a directory is followed: the directory is done. */
  lemma DirectoryDone(h: History, hash: seq<Byte> -> Digest, l: Log, prefix: Path)
    requires LogOk(h, hash, l, prefix, |prefix| + 1) && Listed(h, l, prefix)
    requires forall n {:trigger Followed(h, l, prefix, n)} | n in l.snapshots[prefix] :: Followed(h, l, prefix, n)
    requires prefix == [] || HasParent(l, prefix, KDir)
    ensures LogOk(h, hash, l, prefix, |prefix|)
  {
    forall p | p in l.visits && !Open(prefix, |prefix|, p) ensures VisitOk(h, l, p) {
      if Open(prefix, |prefix| + 1, p) { assert p == prefix; }
    }
  }

  lemma OpenBelow(h: History, hash: seq<Byte> -> Digest, l: Log, prefix: Path, n: Name)
    ensures LogOk(h, hash, l, prefix, |prefix| + 1) <==> LogOk(h, hash, l, prefix + [n], |prefix| + 1)
  {
    var k, q := |prefix| + 1, prefix + [n];
    forall p ensures Open(prefix, k, p) <==> Open(q, k, p) {
      if |p| <= |prefix| { assert q[..|p|] == prefix[..|p|]; }
    }
  }

  // ------------------------------------------------------------ how the second walk covers the first

  ghost predicate Again(h: History, l: Log, t: nat, p: Path) {
    Rechecked(h, l, p) && t <= l.checks[p]
  }

  /** The second walk has gone through everything listed under prefix. */
  ghost predicate Reviewed(h: History, a: Log, b: Log, prefix: Path, t: nat) {
    && b == a.(checks := b.checks)
    && prefix in b.checks && t <= b.checks[prefix]
    && (forall p {:trigger Again(h, b, b.checks[prefix], p)} | p in a.visits && Under(prefix, p) :: Again(h, b, b.checks[prefix], p))
    && (forall p | !Under(prefix, p) :: (p in a.checks <==> p in b.checks) && (p in a.checks ==> a.checks[p] == b.checks[p]))
  }

  /** It has listed prefix again at instant t, and gone through the entries in done. */
  ghost predicate Reviewing(h: History, a: Log, b: Log, prefix: Path, t: nat, done: set<Name>) {
    && b == a.(checks := b.checks)
    && prefix in b.checks && b.checks[prefix] == t && Again(h, b, t, prefix)
    && (forall p {:trigger Again(h, b, t, p)} | p in a.visits && Below(prefix, p) && p[|prefix|] in done :: Again(h, b, t, p))
    && (forall p | !Under(prefix, p) :: (p in a.checks <==> p in b.checks) && (p in a.checks ==> a.checks[p] == b.checks[p]))
  }

  predicate Below(prefix: Path, p: Path) {
    Under(prefix, p) && |p| > |prefix|
  }

  lemma BelowUnder(prefix: Path, n: Name, p: Path)
    ensures Under(prefix + [n], p) <==> Below(prefix, p) && p[|prefix|] == n
  {
    var k := |prefix|;
    if Under(prefix + [n], p) {
      assert p[..k] == p[..k + 1][..k];
      assert p[k] == p[..k + 1][k] == (prefix + [n])[k];
    }
    if Below(prefix, p) && p[k] == n { assert p[..k + 1] == p[..k] + [p[k]]; }
  }

  /** A listed directory lies under a chain of listed directories. */
  lemma {:induction false} Chain(h: History, hash: seq<Byte> -> Digest, l: Log, prefix: Path, p: Path)
    requires LogOk(h, hash, l, [], 0) && p in l.visits && Below(prefix, p)
    ensures prefix in l.snapshots && p[|prefix|] in l.snapshots[prefix] && l.snapshots[prefix][p[|prefix|]].kind.KDir?
    decreases |p|
  {
    assert !Open([], 0, p) && VisitOk(h, l, p);
    var q := p[..|p| - 1];
    if |p| > |prefix| + 1 {
      assert q[..|prefix|] == p[..|prefix|];
      Chain(h, hash, l, prefix, q);
    } else {
      assert q == prefix;
    }
  }

  lemma ReviewFile(h: History, hash: seq<Byte> -> Digest, a: Log, b: Log, prefix: Path, t: nat, done: set<Name>, n: Name)
    requires LogOk(h, hash, b, [], 0) && Reviewing(h, a, b, prefix, t, done)
    requires prefix in b.snapshots && n in b.snapshots[prefix] && b.snapshots[prefix][n].kind.KFile?
    ensures Reviewing(h, a, b, prefix, t, done + {n})
  {
    forall p | p in a.visits && Below(prefix, p) && p[|prefix|] in done + {n} ensures Again(h, b, t, p) {
      Chain(h, hash, b, prefix, p);
    }
  }

  lemma ReviewedDirectory(h: History, a: Log, b: Log, c: Log, prefix: Path, t: nat, done: set<Name>, n: Name, u: nat)
    requires Reviewing(h, a, b, prefix, t, done) && n !in done
    requires Reviewed(h, b, c, prefix + [n], u) && t <= u
    ensures Reviewing(h, a, c, prefix, t, done + {n})
  {
    BelowUnder(prefix, n, prefix);
    forall p | p in a.visits && Below(prefix, p) && p[|prefix|] in done + {n} ensures Again(h, c, t, p) {
      BelowUnder(prefix, n, p);
      if p[|prefix|] == n {
        assert Again(h, c, c.checks[prefix + [n]], p);
      } else {
        assert Again(h, b, t, p);
      }
    }
    forall p | !Under(prefix, p)
      ensures (p in a.checks <==> p in c.checks) && (p in a.checks ==> a.checks[p] == c.checks[p])
    {
      BelowUnder(prefix, n, p);
    }
  }

  lemma ReviewDone(h: History, hash: seq<Byte> -> Digest, a: Log, b: Log, prefix: Path, u: nat, t: nat, done: set<Name>)
    requires LogOk(h, hash, a, [], 0) && Reviewing(h, a, b, prefix, t, done) && u <= t
    requires prefix in a.snapshots && done == a.snapshots[prefix].Keys
    ensures Reviewed(h, a, b, prefix, u)
  {
    forall p | p in a.visits && Under(prefix, p) ensures Again(h, b, t, p) {
      if |p| > |prefix| {
        Chain(h, hash, a, prefix, p);
      } else {
        assert p == prefix;
      }
    }
  }

  lemma ReviewEnds(h: History, hash: seq<Byte> -> Digest, a: Log, b: Log, prefix: Path, u: nat, t: nat, s: Listing)
    requires LogOk(h, hash, a, [], 0) && Reviewing(h, a, b, prefix, t, s.Keys - {}) && u <= t
    requires prefix in b.snapshots && b.snapshots[prefix] == s
    ensures Reviewed(h, a, b, prefix, u) && b.checks[prefix] == t && prefix in b.visits
  {
    assert s.Keys - {} == s.Keys;
    ReviewDone(h, hash, a, b, prefix, u, t, s.Keys);
  }

  /** What a round of the second walk leaves in place. */
  lemma NextReviewed(h: History, hash: seq<Byte> -> Digest, a: Log, b: Log, l: Log, prefix: Path, t: nat,
                     all: set<Name>, rest: set<Name>, n: Name)
    requires LogOk(h, hash, b, [], 0) && Reviewing(h, a, b, prefix, t, all - rest) && rest <= all && n in rest
    requires Reviewing(h, a, l, prefix, t, (all - rest) + {n})
    ensures LogOk(h, hash, l, [], 0) && Reviewing(h, a, l, prefix, t, all - (rest - {n}))
    ensures l.snapshots == b.snapshots && l.visits == b.visits
  {
    assert (all - rest) + {n} == all - (rest - {n});
    ChecksOnly(h, hash, b, l);
  }

  // ------------------------------------------------------------ trees that do not change

  predicate Same(h: History, t: nat, u: nat, i: Ino) { h(u, i) == h(t, i) }

  /** Nothing changes from instant t on. */
  ghost predicate Still(h: History, t: nat) {
    forall u: nat, i: Ino {:trigger Same(h, t, u, i)} | t <= u :: Same(h, t, u, i)
  }

  lemma StillListing(h: History, t: nat, u: nat, d: Ino)
    requires Still(h, t) && t <= u
    ensures h(u, d) == h(t, d)
    ensures h(t, d).node.Dir? ==> ListingOf(h, u, d) == ListingOf(h, t, d)
  {
    assert Same(h, t, u, d);
    if h(t, d).node.Dir? {
      forall n | n in h(t, d).node.entries ensures InfoOf(h, u, h(t, d).node.entries[n]) == InfoOf(h, t, h(t, d).node.entries[n]) {
        assert Same(h, t, u, h(t, d).node.entries[n]);
      }
      assert ListingOf(h, u, d) == ListingOf(h, t, d);
    }
  }

  /** What a walk spends of its three allowances. */
  datatype Cost = Cost(entries: nat, files: nat, bytes: nat)

  function Plus(a: Cost, b: Cost): Cost { Cost(a.entries + b.entries, a.files + b.files, a.bytes + b.bytes) }

  predicate Affordable(c: Cost) { c.entries <= MAX_ENTRIES && c.files <= MAX_FILES && c.bytes <= MAX_TOTAL_BYTES }

  ghost function EntryCost(h: History, t: nat, i: Ino, fuel: nat): Cost
    decreases fuel, 1
  {
    if h(t, i).node.File? then Cost(0, 1, |h(t, i).node.bytes|) else TreeCost(h, t, i, fuel)
  }

  /** The entries, files and bytes of the tree below d, as deep as a walk may go. */
  ghost function TreeCost(h: History, t: nat, d: Ino, fuel: nat): Cost
    decreases fuel, 0
  {
    if fuel == 0 || !h(t, d).node.Dir? then Cost(0, 0, 0) else
    Plus(Cost(|h(t, d).node.entries|, 0, 0), SumCost(h, t, h(t, d).node.entries, h(t, d).node.entries.Keys, fuel - 1))
  }

  ghost function SumCost(h: History, t: nat, entries: map<Name, Ino>, keys: set<Name>, fuel: nat): Cost
    requires keys <= entries.Keys
    decreases fuel, 2, |keys|
  {
    if keys == {} then Cost(0, 0, 0) else
    var n :| n in keys;
    Plus(EntryCost(h, t, entries[n], fuel), SumCost(h, t, entries, keys - {n}, fuel))
  }

  /** The sum does not depend on the order of the entries. */
  lemma {:induction false} SumPick(h: History, t: nat, entries: map<Name, Ino>, keys: set<Name>, fuel: nat, n: Name)
    requires keys <= entries.Keys && n in keys
    ensures SumCost(h, t, entries, keys, fuel) == Plus(EntryCost(h, t, entries[n], fuel), SumCost(h, t, entries, keys - {n}, fuel))
    decreases |keys|
  {
    var m :| m in keys
      && SumCost(h, t, entries, keys, fuel) == Plus(EntryCost(h, t, entries[m], fuel), SumCost(h, t, entries, keys - {m}, fuel));
    if m != n {
      var a, b, both := keys - {m}, keys - {n}, keys - {m} - {n};
      assert b - {m} == both;
      SumPick(h, t, entries, a, fuel, n);
      SumPick(h, t, entries, b, fuel, m);
      var x, y, z := EntryCost(h, t, entries[m], fuel), EntryCost(h, t, entries[n], fuel), SumCost(h, t, entries, both, fuel);
      assert SumCost(h, t, entries, a, fuel) == Plus(y, z) && SumCost(h, t, entries, b, fuel) == Plus(x, z);
      assert Plus(x, Plus(y, z)) == Plus(y, Plus(x, z));
    }
  }

  /** A walk can go through the entry n of d: admitted, a short enough path, a small enough file. */
  ghost predicate WalkableEntry(h: History, t: nat, d: Ino, prefix: Path, n: Name, fuel: nat)
    decreases fuel, 1
  {
    h(t, d).node.Dir? && n in h(t, d).node.entries ==>
      var i := h(t, d).node.entries[n];
      && Admitted(n, InfoOf(h, t, i)) && Relative(Join(prefix + [n]))
      && (h(t, i).node.File? ==> |h(t, i).node.bytes| <= MAX_FILE_BYTES)
      && (h(t, i).node.Dir? ==> Walkable(h, t, i, prefix + [n], fuel))
  }

  ghost predicate Walkable(h: History, t: nat, d: Ino, prefix: Path, fuel: nat)
    decreases fuel, 0
  {
    fuel > 0 && h(t, d).node.Dir?
    && forall n {:trigger WalkableEntry(h, t, d, prefix, n, fuel - 1)} | n in h(t, d).node.entries :: WalkableEntry(h, t, d, prefix, n, fuel - 1)
  }

  /** A scan of d at instant t fits the allowance and meets nothing but plainly named files and directories. */
  predicate Scannable(h: History, t: nat, d: Ino, remaining: nat) {
    && h(t, d).node.Dir? && |ListingOf(h, t, d)| <= remaining
    && forall n | n in ListingOf(h, t, d) :: Admitted(n, ListingOf(h, t, d)[n])
  }

  lemma ListingSize(h: History, t: nat, d: Ino)
    requires h(t, d).node.Dir?
    ensures |ListingOf(h, t, d)| == |h(t, d).node.entries|
  {
    assert ListingOf(h, t, d).Keys == h(t, d).node.entries.Keys;
    assert |ListingOf(h, t, d)| == |ListingOf(h, t, d).Keys|;
  }

  /** d holds a file under that name at instant t. */
  predicate HoldsFile(h: History, t: nat, d: Ino, n: Name) {
    h(t, d).node.Dir? && n in h(t, d).node.entries && h(t, h(t, d).node.entries[n]).node.File?
  }

  /** Its length, or nothing. */
  function LengthOf(h: History, t: nat, d: Ino, n: Name): nat {
    if HoldsFile(h, t, d, n) then |h(t, h(t, d).node.entries[n]).node.bytes| else 0
  }

  lemma CalmFile(h: History, t: nat, u: nat, d: Ino, n: Name)
    requires Still(h, t) && t <= u && HoldsFile(h, t, d, n)
    ensures h(u, d) == h(t, d) && h(u, h(t, d).node.entries[n]) == h(t, h(t, d).node.entries[n])
    ensures forall v: nat | v >= t :: h(v, h(t, d).node.entries[n]) == h(t, h(t, d).node.entries[n])
  {
    assert Same(h, t, u, d);
    var i := h(t, d).node.entries[n];
    forall v: nat | v >= t ensures h(v, i) == h(t, i) { assert Same(h, t, v, i); }
  }

  // ------------------------------------------------------------ the walker

  function Bytes(records: seq<Record>): nat {
    if records == [] then 0 else Bytes(records[..|records| - 1]) + records[|records| - 1].size
  }

  /** What reading the file called name in directory d gives: its whole content at instant v.at. */
  ghost predicate ReadRight(h: History, hash: seq<Byte> -> Digest, d: Ino, name: Name, v: Visit, size: nat, digest: Digest) {
    && Named(h, v.at, d, name, v.ino) && h(v.at, v.ino).node.File?
    && size == |h(v.at, v.ino).node.bytes| && digest == hash(h(v.at, v.ino).node.bytes)
    && size <= MAX_FILE_BYTES
  }

  /** The entry loop of a directory scan, in whatever order the system returns the entries. */
  method Checked(listing: Listing, remaining: nat, limitCode: Code) returns (r: Result<Listing>)
    ensures r.Ok? <==> |listing| <= remaining && forall n | n in listing :: Admitted(n, listing[n])
    ensures r.Ok? ==> r.value == listing
    ensures r.Err? ==> r.code == FileUnsafe || (r.code == limitCode && |listing| > remaining)
  {
    var found: Listing := map[];
    var rest := listing.Keys;
    while rest != {}
      invariant rest <= listing.Keys && found == Without(listing, rest)
      invariant forall n | n in listing && n !in rest :: Admitted(n, listing[n])
      invariant |found| + |rest| == |listing| && |found| <= remaining
    {
      var n :| n in rest;
      WithoutLess(listing, rest, n);
      if |found| >= remaining { return Err(limitCode); }
      if !GoodName(n) || listing[n].kind.KOther? { return Err(FileUnsafe); }
      found, rest := found[n := listing[n]], rest - {n};
    }
    assert found == listing;
    return Ok(found);
  }

  lemma WithoutLess(listing: Listing, rest: set<Name>, n: Name)
    requires rest <= listing.Keys && n in rest
    ensures Without(listing, rest - {n}) == Without(listing, rest)[n := listing[n]]
    ensures |Without(listing, rest - {n})| == |Without(listing, rest)| + 1 && |rest - {n}| == |rest| - 1
  {
    var a, b := Without(listing, rest), Without(listing, rest - {n});
    assert b == a[n := listing[n]] && b.Keys == a.Keys + {n};
    assert |b| == |b.Keys| && |a| == |a.Keys|;
  }

  function Without(listing: Listing, rest: set<Name>): Listing {
    map n | n in listing && n !in rest :: listing[n]
  }

  class Walker {
    const h: History
    const hash: seq<Byte> -> Digest
    const faulty: bool               // system calls may fail for reasons of their own
    var now: nat
    var records: seq<Record>
    var total: nat
    var snapshots: map<Path, Listing>
    var entriesSeen: nat
    ghost var log: Log

    constructor (h: History, hash: seq<Byte> -> Digest, faulty: bool, now: nat)
      ensures Valid() && this.h == h && this.hash == hash && this.faulty == faulty && this.now == now && entriesSeen == 0
      ensures log == Log([], map[], map[], map[], map[])
    {
      this.h, this.hash, this.faulty, this.now := h, hash, faulty, now;
      records, total, snapshots, entriesSeen := [], 0, map[], 0;
      log := Log([], map[], map[], map[], map[]);
    }

    ghost predicate Valid()
      reads this
    {
      && log.records == records && log.snapshots == snapshots && Past(log, now)
      && total == Bytes(records) <= MAX_TOTAL_BYTES && |records| <= MAX_FILES && entriesSeen <= MAX_ENTRIES
    }

    /** Nothing has changed since instant t0, and no system call fails by itself. */
    ghost predicate Calm(t0: nat)
      reads this
    {
      !faulty && t0 <= now && Still(h, t0)
    }

    ghost function Spent(): Cost
      reads this
    {
      Cost(entriesSeen, |records|, total)
    }

    /** Any number of changes to the filesystem may happen here. */
    method Tick()
      modifies `now
      ensures now >= old(now)
    {
      var k: int := *;
      if k > 0 { now := now + k; }
    }

    method Scan(d: Ino, remaining: nat, limitCode: Code) returns (r: Result<Listing>)
      modifies `now
      ensures now >= old(now)
      ensures r.Ok? ==>
        && h(now, d).node.Dir? && r.value == ListingOf(h, now, d) && |r.value| <= remaining
        && forall n | n in r.value :: Admitted(n, r.value[n])
      ensures !faulty ==> (r.Ok? <==> Scannable(h, now, d, remaining))
    {
      Tick();
      var fault: bool := *;
      if fault && faulty { return Err(FileUnsafe); }
      if !h(now, d).node.Dir? { return Err(RootChanged); }
      r := Checked(ListingOf(h, now, d), remaining, limitCode);
    }

    method Stat(d: Ino, name: Name, missing: Code, unsafe: Code) returns (r: Result<Info>)
      modifies `now
      ensures now >= old(now)
      ensures r.Ok? ==> Named(h, now, d, name, r.value.ino) && r.value == InfoOf(h, now, r.value.ino)
      ensures !faulty ==> (r.Ok? <==> h(now, d).node.Dir? && name in h(now, d).node.entries)
    {
      Tick();
      var fault: bool := *;
      if fault && faulty { return Err(unsafe); }
      if !h(now, d).node.Dir? || name !in h(now, d).node.entries { return Err(missing); }
      return Ok(InfoOf(h, now, h(now, d).node.entries[name]));
    }

    method OpenAt(d: Ino, name: Name, missing: Code, unsafe: Code) returns (r: Result<Ino>)
      modifies `now
      ensures now >= old(now)
      ensures r.Ok? ==> Named(h, now, d, name, r.value)
      ensures !faulty ==> (r.Ok? <==> h(now, d).node.Dir? && name in h(now, d).node.entries)
    {
      Tick();
      var fault: bool := *;
      if fault && faulty { return Err(unsafe); }
      if !h(now, d).node.Dir? || name !in h(now, d).node.entries { return Err(missing); }
      return Ok(h(now, d).node.entries[name]);
    }

    /** os.read: what the file holds at that instant, possibly a short piece of it, nothing only at its end. */
    method ReadChunk(i: Ino, at: nat) returns (chunk: seq<Byte>)
      modifies `now
      ensures now >= old(now)
      ensures h(now, i).node.File? ==>
        var bytes := h(now, i).node.bytes;
        if at < |bytes| then 0 < |chunk| && at + |chunk| <= |bytes| && chunk == bytes[at..at + |chunk|] else chunk == []
    {
      Tick();
      if !h(now, i).node.File? || |h(now, i).node.bytes| <= at { return []; }
      var bytes := h(now, i).node.bytes;
      var k: int := *;
      if k <= 0 || k > CHUNK_BYTES || at + k > |bytes| { k := 1; }
      return bytes[at..at + k];
    }

    method ReadFile(d: Ino, name: Name, ghost t0: nat) returns (r: Result<(nat, Digest)>, ghost v: Visit)
      requires Stamped(h)
      modifies `now
      ensures old(now) <= now
      ensures r.Ok? ==> old(now) <= v.at <= now && ReadRight(h, hash, d, name, v, r.value.0, r.value.1)
      ensures old(Calm(t0)) && HoldsFile(h, t0, d, name) ==>
        (r.Ok? <==> LengthOf(h, t0, d, name) <= MAX_FILE_BYTES) && (r.Ok? ==> r.value.0 == LengthOf(h, t0, d, name))
    {
      ghost var calm := Calm(t0) && HoldsFile(h, t0, d, name);
      v := Visit(0, now);
      var stated := Stat(d, name, FileMissing, FileUnsafe);
      if calm { CalmFile(h, t0, now, d, name); }
      if stated.Err? { return Err(stated.code), v; }
      var before := stated.value;
      v := Visit(before.ino, now);
      if !before.kind.KFile? || before.size > MAX_FILE_BYTES {
        return Err(if before.kind.KFile? then FileTooLarge else FileUnsafe), v;
      }
      var reached := OpenAt(d, name, FileMissing, FileUnsafe);
      if calm { CalmFile(h, t0, now, d, name); }
      if reached.Err? { return Err(reached.code), v; }
      var fd := reached.value;
      Tick();
      if calm { CalmFile(h, t0, now, d, name); }
      if InfoOf(h, now, fd) != before { return Err(FileChanged), v; }
      Pinned(h, fd, v.at, now, now);
      StampGrows(h, fd, v.at, now);
      var data := ReadAll(fd, v.at, calm);
      if data.None? { return Err(FileTooLarge), v; }
      ghost var read := now;
      Tick();
      if calm { CalmFile(h, t0, now, d, name); }
      var after := InfoOf(h, now, fd);
      if after.stamp == before.stamp { Pinned(h, fd, v.at, read, now); }
      var fault: bool := *;
      if fault && faulty { return Err(FileChanged), v; }
      var named := Stat(d, name, FileChanged, FileChanged);
      if calm { CalmFile(h, t0, now, d, name); }
      if named.Err? { return Err(FileChanged), v; }
      if after.(kind := KFile) != before || named.value.(kind := KFile) != before || |data.value| != before.size {
        return Err(FileChanged), v;
      }
      assert data.value == h(v.at, fd).node.bytes;
      return Ok((|data.value|, hash(data.value))), v;
    }

    /** The chunk loop; `same` says that the file will not change during it. */
    method ReadAll(fd: Ino, ghost at: nat, ghost same: bool) returns (data: Option<seq<Byte>>)
      requires Stamped(h) && at <= now && h(at, fd).node.File? && h(now, fd) == h(at, fd)
      requires same ==> |h(at, fd).node.bytes| <= MAX_FILE_BYTES && forall u | u >= at :: h(u, fd) == h(at, fd)
      modifies `now
      ensures old(now) <= now
      ensures data.Some? ==> |data.value| <= MAX_FILE_BYTES
      ensures data.Some? && h(now, fd) == h(at, fd) ==> data.value <= h(at, fd).node.bytes
      ensures same ==> data == Some(h(at, fd).node.bytes)
    {
      var bytes: seq<Byte> := [];
      while true
        invariant old(now) <= now && |bytes| <= MAX_FILE_BYTES
        invariant h(now, fd) == h(at, fd) ==> bytes <= h(at, fd).node.bytes
        decreases MAX_FILE_BYTES - |bytes|
      {
        ghost var t := now;
        var chunk := ReadChunk(fd, |bytes|);
        if h(now, fd).stamp == h(at, fd).stamp { Pinned(h, fd, at, t, now); }
        if chunk == [] {
          assert same ==> |bytes| >= |h(at, fd).node.bytes| && bytes == h(at, fd).node.bytes;
          return Some(bytes);
        }
        if |bytes| + |chunk| > MAX_FILE_BYTES { return None; }
        bytes := bytes + chunk;
      }
    }

    /** Read the file called name, under path q, into the records. */
    method RecordFile(d: Ino, prefix: Path, name: Name, ghost t0: nat) returns (r: Result<()>)
      requires Stamped(h) && Valid() && LogOk(h, hash, log, prefix, |prefix| + 1) && Free(log, prefix + [name])
      requires prefix in log.visits && log.visits[prefix].ino == d && prefix in log.snapshots
      requires name in log.snapshots[prefix] && log.snapshots[prefix][name].kind.KFile?
      requires Relative(Join(prefix + [name])) && GoodNames(prefix + [name])
      modifies `now, `records, `total, `log
      ensures now >= old(now)
      ensures r.Ok? ==>
        && Valid() && LogOk(h, hash, log, prefix, |prefix| + 1)
        && Grew(old(log), log, prefix + [name]) && Followed(h, log, prefix, name)
      ensures old(Calm(t0)) && HoldsFile(h, t0, d, name) ==>
        Settles(r.Ok?, old(Spent()), Spent(), LengthOf(h, t0, d, name) <= MAX_FILE_BYTES, Cost(0, 1, LengthOf(h, t0, d, name)))
    {
      ghost var t := now;
      var content, v := ReadFile(d, name, t0);
      if content.Err? { return Err(content.code); }
      r := AddRecord(d, prefix, name, content.value.0, content.value.1, v, t);
    }

    method AddRecord(d: Ino, prefix: Path, name: Name, size: nat, digest: Digest, ghost v: Visit, ghost t: nat) returns (r: Result<()>)
      requires log.records == records && log.snapshots == snapshots && Past(log, t) && t <= v.at <= now
      requires total == Bytes(records) <= MAX_TOTAL_BYTES && |records| <= MAX_FILES && entriesSeen <= MAX_ENTRIES
      requires LogOk(h, hash, log, prefix, |prefix| + 1) && Free(log, prefix + [name])
      requires prefix in log.visits && log.visits[prefix].ino == d && prefix in log.snapshots
      requires name in log.snapshots[prefix] && log.snapshots[prefix][name].kind.KFile?
      requires Relative(Join(prefix + [name])) && GoodNames(prefix + [name]) && ReadRight(h, hash, d, name, v, size, digest)
      modifies `records, `total, `log
      ensures r.Ok? ==>
        && Valid() && LogOk(h, hash, log, prefix, |prefix| + 1)
        && Grew(old(log), log, prefix + [name]) && Followed(h, log, prefix, name)
      ensures Spent() == Plus(old(Spent()), Cost(0, 1, size)) && (r.Ok? <==> Affordable(Spent()))
    {
      ghost var a := log;
      var record := Record(prefix + [name], size, digest);
      records := records + [record];
      log := log.(records := records, fetches := log.fetches[record.path := v]);
      total := total + size;
      assert records[..|records| - 1] == a.records;
      if total > MAX_TOTAL_BYTES { return Err(TotalTooLarge); }
      if |records| > MAX_FILES { return Err(TooManyFiles); }
      FileLogged(h, hash, a, log, prefix, name, v, record, t, now);
      return Ok(());
    }

    /** The part of a walk's loop body that both passes share: the entry still has the stat of its listing. */
    method CheckEntry(d: Ino, path: Path, expected: Info, ghost t0: nat) returns (r: Result<()>)
      requires path != []
      modifies `now
      ensures now >= old(now)
      ensures r.Ok? ==> Relative(Join(path)) && EntryIs(h, now, d, path[|path| - 1], expected)
      ensures old(Calm(t0)) && EntryIs(h, t0, d, path[|path| - 1], expected) ==> (r.Ok? <==> Relative(Join(path)))
    {
      if !Relative(Join(path)) { return Err(SchemaInvalid); }
      var info := Stat(d, path[|path| - 1], RootChanged, FileUnsafe);
      if t0 <= now && Still(h, t0) { CalmEntry(h, t0, now, d, path[|path| - 1], expected); }
      if info.Err? { return Err(info.code); }
      if info.value != expected { return Err(RootChanged); }
      return Ok(());
    }

    /** Open the subdirectory whose stat was info, and check that it is still that directory. */
    method EnterDirectory(d: Ino, name: Name, info: Info, ghost t0: nat) returns (r: Result<Ino>)
      modifies `now
      ensures now >= old(now)
      ensures r.Ok? ==> r.value == info.ino
      ensures old(Calm(t0)) && EntryIs(h, t0, d, name, info) && info.kind.KDir? ==> r.Ok?
    {
      var child := OpenAt(d, name, RootChanged, FileUnsafe);
      if t0 <= now && Still(h, t0) { CalmEntry(h, t0, now, d, name, info); }
      if child.Err? { return Err(child.code); }
      Tick();
      if t0 <= now && Still(h, t0) { CalmEntry(h, t0, now, d, name, info); }
      var seen := InfoOf(h, now, child.value);
      if !seen.kind.KDir? || seen.(kind := info.kind) != info { return Err(RootChanged); }
      return Ok(child.value);
    }

    /** After a subdirectory was walked, its name must still lead to it. */
    method LeaveDirectory(d: Ino, name: Name, info: Info, ghost t0: nat) returns (r: Result<()>)
      modifies `now
      ensures now >= old(now)
      ensures r.Ok? ==> Named(h, now, d, name, info.ino) && h(now, info.ino).node.Dir?
      ensures old(Calm(t0)) && EntryIs(h, t0, d, name, info) && info.kind.KDir? ==> r.Ok?
    {
      var current := Stat(d, name, RootChanged, FileUnsafe);
      if t0 <= now && Still(h, t0) { CalmEntry(h, t0, now, d, name, info); }
      if current.Err? { return Err(current.code); }
      if !current.value.kind.KDir? || current.value.ino != info.ino { return Err(RootChanged); }
      return Ok(());
    }

    /** The directory d of path prefix was listed as it was at instant t0. */
    ghost predicate ListedAt(t0: nat, d: Ino, prefix: Path)
      reads this
    {
      Calm(t0) && h(t0, d).node.Dir? && prefix in log.snapshots && log.snapshots[prefix] == ListingOf(h, t0, d)
    }

    /** One entry of the directory prefix, in the first pass. */
    method GatherEntry(d: Ino, prefix: Path, depth: nat, name: Name, ghost t0: nat) returns (r: Result<()>)
      requires Stamped(h) && Valid() && GoodNames(prefix + [name]) && depth == |prefix| <= MAX_DEPTH
      requires prefix in log.visits && log.visits[prefix].ino == d && prefix in log.snapshots
      requires name in log.snapshots[prefix] && !log.snapshots[prefix][name].kind.KOther?
      requires LogOk(h, hash, log, prefix, |prefix| + 1) && Free(log, prefix + [name])
      modifies `now, `records, `total, `snapshots, `entriesSeen, `log
      ensures now >= old(now)
      ensures r.Ok? ==>
        && Valid() && LogOk(h, hash, log, prefix, |prefix| + 1)
        && Grew(old(log), log, prefix + [name]) && Followed(h, log, prefix, name)
      ensures old(ListedAt(t0, d, prefix)) && Admitted(name, old(log).snapshots[prefix][name]) ==>
        Settles(r.Ok?, old(Spent()), Spent(), WalkableEntry(h, t0, d, prefix, name, MAX_DEPTH - depth),
                EntryCost(h, t0, h(t0, d).node.entries[name], MAX_DEPTH - depth))
      decreases MAX_DEPTH + 1 - depth, 0, 1
    {
      ghost var a, t := log, now;
      var path, info := prefix + [name], snapshots[prefix][name];
      assert path[..|path| - 1] == prefix && path[|path| - 1] == name;
      ghost var listed := ListedAt(t0, d, prefix);
      if listed { EntryListed(h, t0, d, name, info); }
      var checked :- CheckEntry(d, path, info, t0);
      PastKept(a, a, t, now);
      if info.kind.KFile? {
        r := RecordFile(d, prefix, name, t0);
        return;
      }
      r := GatherDirectory(d, prefix, depth, name, info, t0);
    }

    /** The subdirectory called name, in the first pass. */
    method GatherDirectory(d: Ino, prefix: Path, depth: nat, name: Name, info: Info, ghost t0: nat) returns (r: Result<()>)
      requires Stamped(h) && Valid() && GoodNames(prefix + [name]) && depth == |prefix| <= MAX_DEPTH
      requires prefix in log.visits && log.visits[prefix].ino == d && prefix in log.snapshots
      requires name in log.snapshots[prefix] && log.snapshots[prefix][name] == info && info.kind.KDir?
      requires LogOk(h, hash, log, prefix, |prefix| + 1) && Free(log, prefix + [name])
      modifies `now, `records, `total, `snapshots, `entriesSeen, `log
      ensures now >= old(now)
      ensures r.Ok? ==>
        && Valid() && LogOk(h, hash, log, prefix, |prefix| + 1)
        && Grew(old(log), log, prefix + [name]) && Followed(h, log, prefix, name)
      ensures old(Calm(t0)) && EntryIs(h, t0, d, name, info) ==>
        Settles(r.Ok?, old(Spent()), Spent(), Walkable(h, t0, info.ino, prefix + [name], MAX_DEPTH - depth),
                TreeCost(h, t0, info.ino, MAX_DEPTH - depth))
      decreases MAX_DEPTH + 1 - depth, 0, 0
    {
      ghost var a, t := log, now;
      var path := prefix + [name];
      assert path[..|path| - 1] == prefix && path[|path| - 1] == name;
      var child := EnterDirectory(d, name, info, t0);
      if child.Err? { return Err(child.code); }
      PastKept(a, a, t, now);
      OpenBelow(h, hash, a, prefix, name);
      assert Dated(a, t, prefix);
      r := Gather(child.value, path, depth + 1, t0);
      if r.Err? { return; }
      OpenBelow(h, hash, log, prefix, name);
      assert Kept(a, log, path, prefix);
      t := now;
      r := LeaveDirectory(d, name, info, t0);
      PastKept(log, log, t, now);
    }

    /** The first listing of a directory, as the first pass begins with it. */
    method ListFirst(d: Ino, prefix: Path, depth: nat, ghost t0: nat) returns (r: Result<Listing>)
      requires Stamped(h) && Valid() && depth == |prefix| <= MAX_DEPTH
      requires LogOk(h, hash, log, prefix, |prefix|) && Free(log, prefix)
      modifies `now, `snapshots, `entriesSeen, `log
      ensures now >= old(now)
      ensures r.Ok? ==>
        && Valid() && LogOk(h, hash, log, prefix, |prefix| + 1) && Grew(old(log), log, prefix) && (forall n :: Free(log, prefix + [n]))
        && Listed(h, log, prefix) && log.visits[prefix].ino == d && old(now) <= log.visits[prefix].at && log.snapshots[prefix] == r.value
        && forall n | n in r.value :: Admitted(n, r.value[n])
      ensures old(Calm(t0)) && r.Ok? ==>
        ListedAt(t0, d, prefix) && Spent() == Plus(old(Spent()), Cost(|h(t0, d).node.entries|, 0, 0))
      ensures old(Calm(t0)) && r.Err? ==>
        !(Walkable(h, t0, d, prefix, MAX_DEPTH + 1 - depth) && Affordable(Plus(old(Spent()), TreeCost(h, t0, d, MAX_DEPTH + 1 - depth))))
    {
      ghost var t, spent := now, Spent();
      r := Scan(d, MAX_ENTRIES - entriesSeen, TooManyEntries);
      if t0 <= t && Still(h, t0) { ScanDecides(h, t0, now, d, prefix, MAX_DEPTH + 1 - depth, spent); }
      if r.Err? { return; }
      LogListing(d, prefix, r.value, t);
    }

    method LogListing(d: Ino, prefix: Path, s: Listing, ghost t: nat)
      requires log.records == records && log.snapshots == snapshots && Past(log, t) && t <= now
      requires total == Bytes(records) <= MAX_TOTAL_BYTES && |records| <= MAX_FILES && entriesSeen + |s| <= MAX_ENTRIES
      requires LogOk(h, hash, log, prefix, |prefix|) && Free(log, prefix)
      requires h(now, d).node.Dir? && s == ListingOf(h, now, d) && forall n | n in s :: Admitted(n, s[n])
      modifies `snapshots, `entriesSeen, `log
      ensures Valid() && LogOk(h, hash, log, prefix, |prefix| + 1) && Grew(old(log), log, prefix)
      ensures (forall n :: Free(log, prefix + [n])) && Listed(h, log, prefix)
      ensures log.visits[prefix] == Visit(d, now) && log.snapshots[prefix] == s && entriesSeen == old(entriesSeen) + |s|
    {
      ghost var a := log;
      entriesSeen := entriesSeen + |s|;
      snapshots := snapshots[prefix := s];
      log := log.(snapshots := snapshots, visits := log.visits[prefix := Visit(d, now)]);
      FirstListed(h, hash, a, log, prefix, d, t, now, s);
    }

    /** The closing listing of a directory must be its first one. */
    method ListAgain(d: Ino, initial: Listing, ghost t0: nat) returns (r: Result<()>)
      requires Valid()
      modifies `now
      ensures now >= old(now) && Valid()
      ensures r.Ok? ==> h(now, d).node.Dir? && ListingOf(h, now, d) == initial
      ensures (old(Calm(t0)) && h(t0, d).node.Dir? && initial == ListingOf(h, t0, d)
        && (forall n | n in initial :: Admitted(n, initial[n]))) ==> r.Ok?
    {
      ghost var t := now;
      var final := Scan(d, |initial|, RootChanged);
      if t0 <= t && Still(h, t0) { StillListing(h, t0, now, d); }
      PastKept(log, log, t, now);
      if final.Err? { return Err(final.code); }
      if final.value != initial { return Err(RootChanged); }
      return Ok(());
    }

    /** _walk with verify off: list a directory, follow and record its entries, list it again. */
    method Gather(d: Ino, prefix: Path, depth: nat, ghost t0: nat) returns (r: Result<()>)
      requires Stamped(h) && Valid() && GoodNames(prefix) && depth == |prefix| <= MAX_DEPTH + 1
      requires LogOk(h, hash, log, prefix, |prefix|) && Free(log, prefix)
      requires prefix == [] || HasParent(log, prefix, KDir)
      modifies `now, `records, `total, `snapshots, `entriesSeen, `log
      ensures now >= old(now)
      ensures r.Ok? ==>
        && Valid() && LogOk(h, hash, log, prefix, |prefix|) && Grew(old(log), log, prefix)
        && prefix in log.visits && log.visits[prefix].ino == d && old(now) <= log.visits[prefix].at
        && prefix in log.snapshots && h(now, d).node.Dir? && ListingOf(h, now, d) == log.snapshots[prefix]
      ensures old(Calm(t0)) ==>
        Settles(r.Ok?, old(Spent()), Spent(), Walkable(h, t0, d, prefix, MAX_DEPTH + 1 - depth), TreeCost(h, t0, d, MAX_DEPTH + 1 - depth))
      decreases MAX_DEPTH + 1 - depth, 2
    {
      if depth > MAX_DEPTH { return Err(TooManyFiles); }
      ghost var a, spent, calm := log, Spent(), Calm(t0);
      var first := ListFirst(d, prefix, depth, t0);
      if first.Err? { return Err(first.code); }
      ghost var listed := Spent();
      r := GatherListed(d, prefix, depth, first.value, a, t0);
      if calm { TreeSettled(h, t0, d, prefix, MAX_DEPTH + 1 - depth, spent, listed, Spent(), r.Ok?); }
    }

    /** The rest of a directory's first walk: its entries, and its closing listing. */
    method GatherListed(d: Ino, prefix: Path, depth: nat, initial: Listing, ghost a: Log, ghost t0: nat) returns (r: Result<()>)
      requires Stamped(h) && Valid() && GoodNames(prefix) && depth == |prefix| <= MAX_DEPTH
      requires Listed(h, log, prefix) && log.visits[prefix].ino == d && log.snapshots[prefix] == initial
      requires LogOk(h, hash, log, prefix, |prefix| + 1) && (forall n :: Free(log, prefix + [n])) && Grew(a, log, prefix)
      requires prefix == [] || HasParent(a, prefix, KDir)
      modifies `now, `records, `total, `snapshots, `entriesSeen, `log
      ensures now >= old(now)
      ensures r.Ok? ==>
        && Valid() && LogOk(h, hash, log, prefix, |prefix|) && Grew(a, log, prefix)
        && prefix in log.visits && log.visits[prefix] == old(log).visits[prefix]
        && prefix in log.snapshots && h(now, d).node.Dir? && ListingOf(h, now, d) == log.snapshots[prefix]
      ensures old(ListedAt(t0, d, prefix)) ==>
        Settles(r.Ok?, old(Spent()), Spent(), EntriesWalkable(h, t0, d, prefix, h(t0, d).node.entries.Keys, MAX_DEPTH - depth),
                SumCost(h, t0, h(t0, d).node.entries, h(t0, d).node.entries.Keys, MAX_DEPTH - depth))
      decreases MAX_DEPTH + 1 - depth, 1, 1
    {
      ghost var b := log;
      r := GatherEntries(d, prefix, depth, initial, t0);
      if r.Err? { return; }
      GatheredBelow(h, hash, a, b, log, prefix);
      r := ListAgain(d, initial, t0);
    }

    /** What the loop of the first pass keeps. */
    ghost predicate Gathering(b: Log, prefix: Path, initial: Listing, rest: set<Name>)
      reads this
    {
      && Valid() && LogOk(h, hash, log, prefix, |prefix| + 1) && Grew(b, log, prefix)
      && AllFree(log, prefix, rest) && AllFollowed(h, log, prefix, initial.Keys - rest)
      && prefix in log.visits && prefix in log.snapshots && log.snapshots[prefix] == initial
    }

    ghost predicate CalmUnderway(t0: nat, d: Ino, prefix: Path, depth: nat, rest: set<Name>, spent: Cost)
      requires depth <= MAX_DEPTH
      reads this
    {
      ListedAt(t0, d, prefix) && Underway(h, t0, d, prefix, rest, MAX_DEPTH - depth, spent, Spent())
    }

    /** One round of that loop. */
    method GatherNext(d: Ino, prefix: Path, depth: nat, initial: Listing, name: Name, ghost b: Log, ghost rest: set<Name>,
                      ghost t0: nat, ghost spent: Cost) returns (r: Result<()>)
      requires Stamped(h) && GoodNames(prefix) && depth == |prefix| <= MAX_DEPTH && rest <= initial.Keys && name in rest
      requires Gathering(b, prefix, initial, rest) && log.visits[prefix].ino == d && Admitted(name, initial[name])
      modifies `now, `records, `total, `snapshots, `entriesSeen, `log
      ensures now >= old(now)
      ensures r.Ok? ==> Gathering(b, prefix, initial, rest - {name}) && log.visits[prefix].ino == d
      ensures old(CalmUnderway(t0, d, prefix, depth, rest, spent)) ==>
        if r.Ok? then CalmUnderway(t0, d, prefix, depth, rest - {name}, spent)
        else !(EntriesWalkable(h, t0, d, prefix, h(t0, d).node.entries.Keys, MAX_DEPTH - depth)
               && Affordable(Plus(spent, SumCost(h, t0, h(t0, d).node.entries, h(t0, d).node.entries.Keys, MAX_DEPTH - depth))))
      decreases MAX_DEPTH + 1 - depth, 0, 2
    {
      ghost var c, before, calm := log, Spent(), CalmUnderway(t0, d, prefix, depth, rest, spent);
      assert Free(c, prefix + [name]);
      r := GatherEntry(d, prefix, depth, name, t0);
      if calm { EntrySettled(h, t0, d, prefix, rest, MAX_DEPTH - depth, spent, before, Spent(), name, r.Ok?); }
      if r.Err? { return; }
      EntryGathered(h, b, c, log, prefix, name, rest, initial.Keys - rest);
      assert Kept(c, log, prefix + [name], prefix);
      assert initial.Keys - (rest - {name}) == initial.Keys - rest + {name};
    }

    method GatherEntries(d: Ino, prefix: Path, depth: nat, initial: Listing, ghost t0: nat) returns (r: Result<()>)
      requires Stamped(h) && Valid() && GoodNames(prefix) && depth == |prefix| <= MAX_DEPTH
      requires prefix in log.visits && log.visits[prefix].ino == d
      requires prefix in log.snapshots && log.snapshots[prefix] == initial
      requires forall n | n in initial :: Admitted(n, initial[n])
      requires LogOk(h, hash, log, prefix, |prefix| + 1) && forall n :: Free(log, prefix + [n])
      modifies `now, `records, `total, `snapshots, `entriesSeen, `log
      ensures now >= old(now)
      ensures r.Ok? ==>
        && Valid() && LogOk(h, hash, log, prefix, |prefix| + 1) && Grew(old(log), log, prefix)
        && AllFollowed(h, log, prefix, initial.Keys)
      ensures old(ListedAt(t0, d, prefix)) ==>
        Settles(r.Ok?, old(Spent()), Spent(), EntriesWalkable(h, t0, d, prefix, h(t0, d).node.entries.Keys, MAX_DEPTH - depth),
                SumCost(h, t0, h(t0, d).node.entries, h(t0, d).node.entries.Keys, MAX_DEPTH - depth))
      decreases MAX_DEPTH + 1 - depth, 1, 0
    {
      var rest := initial.Keys;
      ghost var b, listed, spent := log, ListedAt(t0, d, prefix), Spent();
      assert listed ==> initial.Keys == h(t0, d).node.entries.Keys && initial.Keys - initial.Keys == {};
      while rest != {}
        invariant rest <= initial.Keys && old(now) <= now
        invariant Gathering(b, prefix, initial, rest) && log.visits[prefix].ino == d
        invariant listed ==> CalmUnderway(t0, d, prefix, depth, rest, spent)
      {
        var name :| name in rest;
        r := GatherNext(d, prefix, depth, initial, name, b, rest, t0, spent);
        if r.Err? { return; }
        rest := rest - {name};
      }
      assert initial.Keys - {} == initial.Keys;
      if listed { AllSettled(h, t0, d, prefix, MAX_DEPTH - depth, spent, Spent()); }
      return Ok(());
    }

    /** One entry of the directory prefix, in the second pass: files were already read. */
    method ReviewEntry(d: Ino, prefix: Path, depth: nat, name: Name,
                       ghost a: Log, ghost t: nat, ghost done: set<Name>, ghost t0: nat) returns (r: Result<()>)
      requires Stamped(h) && Valid() && GoodNames(prefix + [name]) && depth == |prefix| <= MAX_DEPTH
      requires prefix in log.snapshots && name in log.snapshots[prefix] && !log.snapshots[prefix][name].kind.KOther?
      requires t <= now && name !in done
      requires LogOk(h, hash, log, [], 0) && Reviewing(h, a, log, prefix, t, done)
      modifies `now, `entriesSeen, `log
      ensures now >= old(now)
      ensures r.Ok? ==> Valid() && Reviewing(h, a, log, prefix, t, done + {name})
      ensures old(ListedAt(t0, d, prefix)) && Since(old(log), t0) ==>
        Suffices(r.Ok?, old(entriesSeen), entriesSeen, WalkableEntry(h, t0, d, prefix, name, MAX_DEPTH - depth),
                 EntryCost(h, t0, h(t0, d).node.entries[name], MAX_DEPTH - depth).entries)
      decreases MAX_DEPTH + 1 - depth, 0, 1
    {
      ghost var b, u := log, now;
      var path, info := prefix + [name], snapshots[prefix][name];
      ghost var listed := ListedAt(t0, d, prefix);
      if listed { EntryListed(h, t0, d, name, info); }
      var checked :- CheckEntry(d, path, info, t0);
      PastKept(b, b, u, now);
      if info.kind.KFile? {
        ReviewFile(h, hash, a, b, prefix, t, done, name);
        return Ok(());
      }
      r := ReviewDirectory(d, prefix, depth, name, info, a, t, done, t0);
    }

    /** The subdirectory called name, in the second pass. */
    method ReviewDirectory(d: Ino, prefix: Path, depth: nat, name: Name, info: Info,
                           ghost a: Log, ghost t: nat, ghost done: set<Name>, ghost t0: nat) returns (r: Result<()>)
      requires Stamped(h) && Valid() && GoodNames(prefix + [name]) && depth == |prefix| <= MAX_DEPTH
      requires prefix in log.snapshots && name in log.snapshots[prefix] && log.snapshots[prefix][name] == info && info.kind.KDir?
      requires t <= now && name !in done
      requires LogOk(h, hash, log, [], 0) && Reviewing(h, a, log, prefix, t, done)
      modifies `now, `entriesSeen, `log
      ensures now >= old(now)
      ensures r.Ok? ==> Valid() && Reviewing(h, a, log, prefix, t, done + {name})
      ensures old(Calm(t0)) && Since(old(log), t0) && EntryIs(h, t0, d, name, info) && info.kind.KDir? ==>
        Suffices(r.Ok?, old(entriesSeen), entriesSeen, Walkable(h, t0, info.ino, prefix + [name], MAX_DEPTH - depth),
                 TreeCost(h, t0, info.ino, MAX_DEPTH - depth).entries)
      decreases MAX_DEPTH + 1 - depth, 0, 0
    {
      ghost var b, u := log, now;
      assert VisitOk(h, b, prefix) && Followed(h, b, prefix, name);
      var child := EnterDirectory(d, name, info, t0);
      if child.Err? { return Err(child.code); }
      PastKept(log, log, u, now);
      u := now;
      r := Review(child.value, prefix + [name], depth + 1, t0);
      if r.Err? { return; }
      ReviewedDirectory(h, a, b, log, prefix, t, done, name, u);
      u := now;
      r := LeaveDirectory(d, name, info, t0);
      PastKept(log, log, u, now);
    }

    /** The first listing of a directory in the second pass must be the one retained by the first pass. */
    method ListSecond(d: Ino, prefix: Path, depth: nat, ghost t0: nat, ghost goal: nat) returns (r: Result<Listing>)
      requires Stamped(h) && Valid() && depth == |prefix| <= MAX_DEPTH
      requires LogOk(h, hash, log, [], 0) && prefix in log.visits && log.visits[prefix].ino == d
      modifies `now, `entriesSeen, `log
      ensures now >= old(now)
      ensures r.Ok? ==>
        && Valid() && ReviewAt(old(log), prefix, r.value, now, r.value.Keys)
        && forall n | n in r.value :: Admitted(n, r.value[n])
      ensures old(Calm(t0)) && Since(old(log), t0) && Fits(h, t0, d, prefix, MAX_DEPTH + 1 - depth, old(entriesSeen), goal) ==>
        r.Ok? && CalmReview(t0, d, prefix, depth, r.value.Keys, goal)
    {
      ghost var a, t := log, now;
      ghost var calm := Calm(t0) && Since(log, t0) && Fits(h, t0, d, prefix, MAX_DEPTH + 1 - depth, entriesSeen, goal);
      r := Scan(d, MAX_ENTRIES - entriesSeen, TooManyEntries);
      if calm { SecondListing(h, hash, a, t0, now, d, prefix, MAX_DEPTH + 1 - depth, entriesSeen, goal); }
      if r.Err? { return; }
      entriesSeen := entriesSeen + |r.value|;
      if prefix !in snapshots || snapshots[prefix] != r.value { return Err(RootChanged); }
      log := log.(checks := log.checks[prefix := now]);
      PastKept(a, log, t, now);
      ReviewBegun(h, hash, a, log, prefix, now);
      assert r.value.Keys - r.value.Keys == {};
      if calm { SinceKept(a, log, t0); }
    }

    /** What the loop of the second pass keeps. */
    ghost predicate ReviewAt(a: Log, prefix: Path, initial: Listing, t: nat, rest: set<Name>)
      reads this
    {
      && Valid() && LogOk(h, hash, log, [], 0) && Reviewing(h, a, log, prefix, t, initial.Keys - rest)
      && prefix in log.snapshots && log.snapshots[prefix] == initial && t <= now
    }

    /** In an unchanging tree, what was listed again and what is left make the goal. */
    ghost predicate CalmReview(t0: nat, d: Ino, prefix: Path, depth: nat, rest: set<Name>, goal: nat)
      requires depth <= MAX_DEPTH
      reads this
    {
      && ListedAt(t0, d, prefix) && Since(log, t0)
      && ReviewLeft(h, t0, d, prefix, rest, MAX_DEPTH - depth, entriesSeen, goal)
    }

    /** One round of the loop of the second pass. */
    method ReviewNext(d: Ino, prefix: Path, depth: nat, initial: Listing, name: Name, ghost a: Log, ghost t: nat,
                      ghost rest: set<Name>, ghost t0: nat, ghost goal: nat) returns (r: Result<()>)
      requires Stamped(h) && GoodNames(prefix) && depth == |prefix| <= MAX_DEPTH && rest <= initial.Keys && name in rest
      requires ReviewAt(a, prefix, initial, t, rest) && Admitted(name, initial[name])
      modifies `now, `entriesSeen, `log
      ensures now >= old(now)
      ensures r.Ok? ==> ReviewAt(a, prefix, initial, t, rest - {name})
      ensures old(CalmReview(t0, d, prefix, depth, rest, goal)) ==> r.Ok? && CalmReview(t0, d, prefix, depth, rest - {name}, goal)
      decreases MAX_DEPTH + 1 - depth, 0, 2
    {
      ghost var b, seen, calm := log, entriesSeen, CalmReview(t0, d, prefix, depth, rest, goal);
      if calm { ReviewFits(h, t0, d, prefix, rest, MAX_DEPTH - depth, seen, goal, name); }
      r := ReviewEntry(d, prefix, depth, name, a, t, initial.Keys - rest, t0);
      if r.Err? { return; }
      NextReviewed(h, hash, a, b, log, prefix, t, initial.Keys, rest, name);
      if calm { SinceKept(b, log, t0); }
    }

    method ReviewEntries(d: Ino, prefix: Path, depth: nat, initial: Listing, ghost a: Log, ghost t0: nat, ghost goal: nat)
      returns (r: Result<()>)
      requires Stamped(h) && GoodNames(prefix) && depth == |prefix| <= MAX_DEPTH
      requires ReviewAt(a, prefix, initial, now, initial.Keys) && forall n | n in initial :: Admitted(n, initial[n])
      modifies `now, `entriesSeen, `log
      ensures now >= old(now)
      ensures r.Ok? ==> ReviewAt(a, prefix, initial, old(now), {})
      ensures old(CalmReview(t0, d, prefix, depth, initial.Keys, goal)) ==> r.Ok? && CalmReview(t0, d, prefix, depth, {}, goal)
      decreases MAX_DEPTH + 1 - depth, 1, 0
    {
      var rest := initial.Keys;
      ghost var t, calm := now, CalmReview(t0, d, prefix, depth, initial.Keys, goal);
      while rest != {}
        invariant rest <= initial.Keys && t <= now && ReviewAt(a, prefix, initial, t, rest)
        invariant calm ==> CalmReview(t0, d, prefix, depth, rest, goal)
      {
        var name :| name in rest;
        r := ReviewNext(d, prefix, depth, initial, name, a, t, rest, t0, goal);
        if r.Err? { return; }
        rest := rest - {name};
      }
      return Ok(());
    }

    /** _walk with verify on: every directory must list exactly as in the first pass. */
    method Review(d: Ino, prefix: Path, depth: nat, ghost t0: nat) returns (r: Result<()>)
      requires Stamped(h) && Valid() && GoodNames(prefix) && depth == |prefix| <= MAX_DEPTH + 1
      requires LogOk(h, hash, log, [], 0) && prefix in log.visits && log.visits[prefix].ino == d
      modifies `now, `entriesSeen, `log
      ensures now >= old(now)
      ensures r.Ok? ==>
        && Valid() && Reviewed(h, old(log), log, prefix, old(now))
        && prefix in log.snapshots && h(now, d).node.Dir? && ListingOf(h, now, d) == log.snapshots[prefix]
        && log.checks[prefix] <= now
      ensures old(Calm(t0)) && Since(old(log), t0) ==>
        Suffices(r.Ok?, old(entriesSeen), entriesSeen, Walkable(h, t0, d, prefix, MAX_DEPTH + 1 - depth),
                 TreeCost(h, t0, d, MAX_DEPTH + 1 - depth).entries)
      decreases MAX_DEPTH + 1 - depth, 2
    {
      if depth > MAX_DEPTH { return Err(TooManyFiles); }
      ghost var a, goal := log, entriesSeen + TreeCost(h, t0, d, MAX_DEPTH + 1 - depth).entries;
      var second := ListSecond(d, prefix, depth, t0, goal);
      if second.Err? { return Err(second.code); }
      r := ReviewListed(d, prefix, depth, second.value, a, old(now), t0, goal);
    }

    /** The rest of a directory's second walk: its entries, and its closing listing. */
    method ReviewListed(d: Ino, prefix: Path, depth: nat, initial: Listing, ghost a: Log, ghost u: nat, ghost t0: nat, ghost goal: nat)
      returns (r: Result<()>)
      requires Stamped(h) && GoodNames(prefix) && depth == |prefix| <= MAX_DEPTH && u <= now && LogOk(h, hash, a, [], 0)
      requires ReviewAt(a, prefix, initial, now, initial.Keys) && forall n | n in initial :: Admitted(n, initial[n])
      modifies `now, `entriesSeen, `log
      ensures now >= old(now)
      ensures r.Ok? ==>
        && Valid() && Reviewed(h, a, log, prefix, u)
        && prefix in log.snapshots && h(now, d).node.Dir? && ListingOf(h, now, d) == log.snapshots[prefix]
        && log.checks[prefix] <= now
      ensures old(CalmReview(t0, d, prefix, depth, initial.Keys, goal)) ==> r.Ok? && entriesSeen == goal
      decreases MAX_DEPTH + 1 - depth, 1, 1
    {
      ghost var t, calm := now, CalmReview(t0, d, prefix, depth, initial.Keys, goal);
      r := ReviewEntries(d, prefix, depth, initial, a, t0, goal);
      if calm { LeftNothing(h, t0, d, prefix, MAX_DEPTH - depth, entriesSeen, goal); }
      if r.Err? { return; }
      ReviewEnds(h, hash, a, log, prefix, u, t, initial);
      r := ListAgain(d, initial, t0);
    }

    /** Both walks over the root, by a walker that has seen nothing yet; a is the log between them. */
    method BothWalks(rootIno: Ino) returns (r: Result<()>, ghost a: Log, ghost t: nat)
      requires Stamped(h) && Valid() && log == Log([], map[], map[], map[], map[]) && entriesSeen == 0
      modifies this
      ensures now >= old(now)
      ensures r.Ok? ==>
        && Valid() && LogOk(h, hash, a, [], 0) && Past(a, t) && Reviewed(h, a, log, [], t)
        && [] in a.visits && a.visits[[]].ino == rootIno && old(now) <= a.visits[[]].at && log.checks[[]] <= now
      ensures old(Calm(now)) ==> (r.Ok? <==> Within(h, old(now), rootIno))
    {
      ghost var t0, calm := now, Calm(now);
      a, t := log, now;
      r := Gather(rootIno, [], 0, t0);
      if calm { RootSettled(h, t0, rootIno, Spent(), r.Ok?); }
      if r.Err? { return; }
      a, t := log, now;
      AllSince(h, hash, a, t0);
      entriesSeen := 0;
      r := Review(rootIno, [], 0, t0);
    }
  }

  // ------------------------------------------------------------ what an unchanging tree settles

  /** The outcome of a step is decided by the tree, and it spends exactly what the tree costs. */
  predicate Settles(ok: bool, before: Cost, after: Cost, walkable: bool, cost: Cost) {
    (ok <==> walkable && Affordable(Plus(before, cost))) && (ok ==> after == Plus(before, cost))
  }

  lemma CalmEntry(h: History, t: nat, u: nat, d: Ino, n: Name, info: Info)
    requires Still(h, t) && t <= u
    ensures EntryIs(h, t, d, n, info) ==> EntryIs(h, u, d, n, info)
  {
    assert Same(h, t, u, d) && Same(h, t, u, info.ino);
  }

  lemma EntryListed(h: History, t: nat, d: Ino, n: Name, info: Info)
    requires h(t, d).node.Dir? && n in ListingOf(h, t, d) && ListingOf(h, t, d)[n] == info
    ensures EntryIs(h, t, d, n, info) && h(t, d).node.entries[n] == info.ino
    ensures info.kind.KFile? ==> HoldsFile(h, t, d, n)
  {
  }

  ghost predicate EntriesWalkable(h: History, t: nat, d: Ino, prefix: Path, names: set<Name>, fuel: nat) {
    forall n {:trigger WalkableEntry(h, t, d, prefix, n, fuel)} | n in names :: WalkableEntry(h, t, d, prefix, n, fuel)
  }

  /** The scan of d refuses only trees that cannot be walked within the allowances. */
  lemma ScanDecides(h: History, t: nat, u: nat, d: Ino, prefix: Path, fuel: nat, spent: Cost)
    requires Still(h, t) && t <= u && spent.entries <= MAX_ENTRIES && fuel > 0
    ensures Walkable(h, t, d, prefix, fuel) <==>
      h(t, d).node.Dir? && EntriesWalkable(h, t, d, prefix, h(t, d).node.entries.Keys, fuel - 1)
    ensures h(u, d) == h(t, d)
    ensures h(t, d).node.Dir? ==> ListingOf(h, u, d) == ListingOf(h, t, d) && |ListingOf(h, u, d)| == |h(t, d).node.entries|
    ensures Walkable(h, t, d, prefix, fuel) && spent.entries + TreeCost(h, t, d, fuel).entries <= MAX_ENTRIES ==>
      Scannable(h, u, d, MAX_ENTRIES - spent.entries)
  {
    StillListing(h, t, u, d);
    if h(t, d).node.Dir? { ListingSize(h, t, d); }
    if Walkable(h, t, d, prefix, fuel) {
      forall n | n in ListingOf(h, t, d) ensures Admitted(n, ListingOf(h, t, d)[n]) {
        assert WalkableEntry(h, t, d, prefix, n, fuel - 1);
      }
    }
  }

  lemma LeftNothing(h: History, t: nat, d: Ino, prefix: Path, fuel: nat, seen: nat, goal: nat)
    requires ReviewLeft(h, t, d, prefix, {}, fuel, seen, goal)
    ensures seen == goal
  {
  }

  /** A step succeeds if the tree can be walked and its entries fit, and then counts exactly them. */
  predicate Suffices(ok: bool, before: nat, after: nat, walkable: bool, cost: nat) {
    walkable && before + cost <= MAX_ENTRIES ==> ok && after == before + cost
  }

  /** Part of the way through the second pass over a directory that can be walked. */
  ghost predicate ReviewLeft(h: History, t: nat, d: Ino, prefix: Path, rest: set<Name>, fuel: nat, seen: nat, goal: nat) {
    h(t, d).node.Dir? &&
    var entries := h(t, d).node.entries;
    && rest <= entries.Keys && EntriesWalkable(h, t, d, prefix, entries.Keys, fuel)
    && seen + SumCost(h, t, entries, rest, fuel).entries == goal <= MAX_ENTRIES
  }

  lemma ReviewFits(h: History, t: nat, d: Ino, prefix: Path, rest: set<Name>, fuel: nat, seen: nat, goal: nat, n: Name)
    requires ReviewLeft(h, t, d, prefix, rest, fuel, seen, goal) && n in rest
    ensures WalkableEntry(h, t, d, prefix, n, fuel)
    ensures var cost := EntryCost(h, t, h(t, d).node.entries[n], fuel).entries;
            seen + cost <= MAX_ENTRIES && ReviewLeft(h, t, d, prefix, rest - {n}, fuel, seen + cost, goal)
  {
    SumPick(h, t, h(t, d).node.entries, rest, fuel, n);
  }

  /** Part of the way through a directory: what is done could be walked, and what is spent plus what is left is the whole. */
  ghost predicate Underway(h: History, t: nat, d: Ino, prefix: Path, rest: set<Name>, fuel: nat, before: Cost, now: Cost) {
    h(t, d).node.Dir? &&
    var entries := h(t, d).node.entries;
    && rest <= entries.Keys && EntriesWalkable(h, t, d, prefix, entries.Keys - rest, fuel)
    && Plus(now, SumCost(h, t, entries, rest, fuel)) == Plus(before, SumCost(h, t, entries, entries.Keys, fuel))
  }

  lemma EntrySettled(h: History, t: nat, d: Ino, prefix: Path, rest: set<Name>, fuel: nat, before: Cost, now: Cost, after: Cost,
                     n: Name, ok: bool)
    requires Underway(h, t, d, prefix, rest, fuel, before, now) && n in rest
    requires Settles(ok, now, after, WalkableEntry(h, t, d, prefix, n, fuel), EntryCost(h, t, h(t, d).node.entries[n], fuel))
    ensures ok ==> Underway(h, t, d, prefix, rest - {n}, fuel, before, after)
    ensures !ok ==>
      !(EntriesWalkable(h, t, d, prefix, h(t, d).node.entries.Keys, fuel)
        && Affordable(Plus(before, SumCost(h, t, h(t, d).node.entries, h(t, d).node.entries.Keys, fuel))))
  {
    var entries := h(t, d).node.entries;
    var cost, left := EntryCost(h, t, entries[n], fuel), SumCost(h, t, entries, rest - {n}, fuel);
    SumPick(h, t, entries, rest, fuel, n);
    assert Plus(now, SumCost(h, t, entries, rest, fuel)) == Plus(Plus(now, cost), left);
    if ok {
      forall m | m in entries.Keys - (rest - {n}) ensures WalkableEntry(h, t, d, prefix, m, fuel) {
        if m != n { assert m in entries.Keys - rest; }
      }
    }
  }

  /** A directory settles as its listing and its entries do. */
  lemma TreeSettled(h: History, t: nat, d: Ino, prefix: Path, fuel: nat, before: Cost, listed: Cost, after: Cost, ok: bool)
    requires fuel > 0 && h(t, d).node.Dir? && listed == Plus(before, Cost(|h(t, d).node.entries|, 0, 0))
    requires Settles(ok, listed, after, EntriesWalkable(h, t, d, prefix, h(t, d).node.entries.Keys, fuel - 1),
                     SumCost(h, t, h(t, d).node.entries, h(t, d).node.entries.Keys, fuel - 1))
    ensures Settles(ok, before, after, Walkable(h, t, d, prefix, fuel), TreeCost(h, t, d, fuel))
  {
    var entries := h(t, d).node.entries;
    var own, below := Cost(|entries|, 0, 0), SumCost(h, t, entries, entries.Keys, fuel - 1);
    assert TreeCost(h, t, d, fuel) == Plus(own, below);
    assert Plus(listed, below) == Plus(before, Plus(own, below));
    assert EntriesWalkable(h, t, d, prefix, entries.Keys, fuel - 1) <==> Walkable(h, t, d, prefix, fuel);
  }

  lemma AllSettled(h: History, t: nat, d: Ino, prefix: Path, fuel: nat, before: Cost, now: Cost)
    requires Underway(h, t, d, prefix, {}, fuel, before, now) && Affordable(now)
    ensures Settles(true, before, now, EntriesWalkable(h, t, d, prefix, h(t, d).node.entries.Keys, fuel),
                    SumCost(h, t, h(t, d).node.entries, h(t, d).node.entries.Keys, fuel))
  {
    assert h(t, d).node.entries.Keys - {} == h(t, d).node.entries.Keys;
  }

  predicate SinceAt(l: Log, t: nat, p: Path) { p in l.visits ==> t <= l.visits[p].at }

  /** Every listing of the log is no older than instant t. */
  ghost predicate Since(l: Log, t: nat) {
    forall p {:trigger SinceAt(l, t, p)} :: SinceAt(l, t, p)
  }

  lemma SinceKept(a: Log, b: Log, t: nat)
    requires Since(a, t) && b.visits == a.visits
    ensures Since(b, t)
  {
    forall p ensures SinceAt(b, t, p) { assert SinceAt(a, t, p); }
  }

  /** The tree below d can be walked, and its entries complete the ones already seen to the goal. */
  ghost predicate Fits(h: History, t: nat, d: Ino, prefix: Path, fuel: nat, seen: nat, goal: nat) {
    Walkable(h, t, d, prefix, fuel) && seen + TreeCost(h, t, d, fuel).entries == goal <= MAX_ENTRIES
  }

  /** In an unchanging tree the second pass lists what the first pass retained. */
  lemma SecondListing(h: History, hash: seq<Byte> -> Digest, l: Log, t: nat, u: nat, d: Ino, prefix: Path, fuel: nat, seen: nat, goal: nat)
    requires Still(h, t) && t <= u && Since(l, t) && LogOk(h, hash, l, [], 0)
    requires prefix in l.visits && l.visits[prefix].ino == d && fuel > 0 && Fits(h, t, d, prefix, fuel, seen, goal)
    ensures seen <= MAX_ENTRIES && Scannable(h, u, d, MAX_ENTRIES - seen) && h(t, d).node.Dir?
    ensures ListingOf(h, u, d) == ListingOf(h, t, d) && prefix in l.snapshots && l.snapshots[prefix] == ListingOf(h, t, d)
    ensures ReviewLeft(h, t, d, prefix, ListingOf(h, t, d).Keys, fuel - 1, seen + |ListingOf(h, t, d)|, goal)
  {
    ScanDecides(h, t, u, d, prefix, fuel, Cost(seen, 0, 0));
    ListedSince(h, hash, l, prefix, t);
    assert ListingOf(h, t, d).Keys == h(t, d).node.entries.Keys;
  }

  /** In an unchanging tree a listing in the log is what the directory holds. */
  lemma ListedSince(h: History, hash: seq<Byte> -> Digest, l: Log, p: Path, t: nat)
    requires LogOk(h, hash, l, [], 0) && p in l.visits && Since(l, t) && Still(h, t)
    ensures p in l.snapshots && h(t, l.visits[p].ino).node.Dir? && l.snapshots[p] == ListingOf(h, t, l.visits[p].ino)
  {
    assert !Open([], 0, p) && VisitOk(h, l, p) && SinceAt(l, t, p);
    StillListing(h, t, l.visits[p].at, l.visits[p].ino);
  }

  ghost predicate AllFree(l: Log, prefix: Path, rest: set<Name>) {
    forall n {:trigger Free(l, prefix + [n])} | n in rest :: Free(l, prefix + [n])
  }

  ghost predicate AllFollowed(h: History, l: Log, prefix: Path, done: set<Name>) {
    forall n {:trigger Followed(h, l, prefix, n)} | n in done :: Followed(h, l, prefix, n)
  }

  lemma EntryGathered(h: History, b: Log, c: Log, l: Log, prefix: Path, name: Name, rest: set<Name>, done: set<Name>)
    requires Grew(b, c, prefix) && Grew(c, l, prefix + [name])
    requires AllFree(c, prefix, rest) && AllFollowed(h, c, prefix, done) && Followed(h, l, prefix, name)
    ensures Grew(b, l, prefix) && AllFree(l, prefix, rest - {name}) && AllFollowed(h, l, prefix, done + {name})
  {
    assert Under(prefix, prefix + [name]);
    GrewOn(b, c, l, prefix, prefix + [name]);
    forall n | n in rest - {name} ensures Free(l, prefix + [n]) { FreeKept(c, l, prefix, name, n); }
    forall n | n in done + {name} ensures Followed(h, l, prefix, n) {
      if n != name {
        assert Followed(h, c, prefix, n);
        FollowedGrows(h, c, l, prefix + [name], prefix, n);
      }
    }
  }

  lemma GatheredBelow(h: History, hash: seq<Byte> -> Digest, a: Log, b: Log, l: Log, prefix: Path)
    requires LogOk(h, hash, l, prefix, |prefix| + 1) && Grew(a, b, prefix) && Grew(b, l, prefix)
    requires Listed(h, b, prefix) && AllFollowed(h, l, prefix, b.snapshots[prefix].Keys)
    requires prefix == [] || HasParent(a, prefix, KDir)
    ensures LogOk(h, hash, l, prefix, |prefix|) && Grew(a, l, prefix)
    ensures prefix in l.visits && l.visits[prefix] == b.visits[prefix]
    ensures prefix in l.snapshots && l.snapshots[prefix] == b.snapshots[prefix]
  {
    assert Kept(b, l, prefix, prefix) && Under(prefix, prefix);
    GrewOn(a, b, l, prefix, prefix);
    if prefix != [] { assert Kept(a, l, prefix, prefix[..|prefix| - 1]); }
    DirectoryDone(h, hash, l, prefix);
  }

  /** A log whose checks alone changed is as good as before. */
  lemma ChecksOnly(h: History, hash: seq<Byte> -> Digest, a: Log, b: Log)
    requires LogOk(h, hash, a, [], 0) && b == a.(checks := b.checks)
    ensures LogOk(h, hash, b, [], 0)
  {
    forall p | p in b.visits ensures VisitOk(h, b, p) {
      assert !Open([], 0, p) && VisitOk(h, a, p);
      forall n | n in b.snapshots[p] ensures Followed(h, b, p, n) { assert Followed(h, a, p, n); }
    }
    forall q | q in b.fetches ensures FetchOk(b, q) { assert FetchOk(a, q); }
    forall k | 0 <= k < |b.records| ensures RecordOk(h, hash, b, b.records[k]) {
      assert RecordOk(h, hash, a, a.records[k]);
    }
  }

  lemma ReviewBegun(h: History, hash: seq<Byte> -> Digest, a: Log, b: Log, prefix: Path, t: nat)
    requires LogOk(h, hash, a, [], 0) && prefix in a.visits && prefix in a.snapshots
    requires b == a.(checks := a.checks[prefix := t])
    requires h(t, a.visits[prefix].ino).node.Dir? && ListingOf(h, t, a.visits[prefix].ino) == a.snapshots[prefix]
    ensures LogOk(h, hash, b, [], 0) && Reviewing(h, a, b, prefix, t, {})
  {
    ChecksOnly(h, hash, a, b);
    assert Under(prefix, prefix) && Again(h, b, t, prefix);
  }

  // ------------------------------------------------------------ the inventory record

  datatype FileEntry = FileEntry(path: string, size: int, digest: Digest)
  datatype Inventory = Inventory(root: string, files: seq<FileEntry>, fileCount: int, totalBytes: int, sha: Digest)

  /** The digest of the canonical form of everything but the digest itself. */
  type Seal = (string, seq<FileEntry>, int, int) -> Digest

  predicate Increasing(files: seq<FileEntry>) {
    forall j, k | 0 <= j < k < |files| :: Before(files[j].path, files[k].path)
  }

  function Sum(files: seq<FileEntry>): int {
    if files == [] then 0 else Sum(files[..|files| - 1]) + files[|files| - 1].size
  }

  predicate RootChar(c: char) {
    'A' <= c <= 'Z' || 'a' <= c <= 'z' || '0' <= c <= '9'
  }

  predicate GoodRoot(root: string) {
    0 < |root| <= 128 && RootChar(root[0]) && forall i | 0 < i < |root| :: RootChar(root[i]) || root[i] in "_.-"
  }

  predicate GoodEntry(e: FileEntry) {
    Relative(e.path) && 0 <= e.size <= MAX_FILE_BYTES
  }

  /** What a retained inventory must be. */
  predicate ValidInventory(seal: Seal, v: Inventory) {
    && GoodRoot(v.root) && |v.files| <= MAX_FILES
    && (forall k | 0 <= k < |v.files| :: GoodEntry(v.files[k]))
    && Increasing(v.files) && Sum(v.files) <= MAX_TOTAL_BYTES
    && v.fileCount == |v.files| && v.totalBytes == Sum(v.files)
    && v.sha == seal(v.root, v.files, v.fileCount, v.totalBytes)
  }

  lemma {:induction false} SumGrows(files: seq<FileEntry>, k: nat)
    requires k <= |files| && forall j | 0 <= j < |files| :: files[j].size >= 0
    ensures Sum(files[..k]) <= Sum(files)
  {
    if k < |files| {
      var init := files[..|files| - 1];
      SumGrows(init, k);
      assert files[..k] == init[..k];
    } else {
      assert files[..k] == files;
    }
  }

  /** Comparing each path with the one before it is enough. */
  lemma {:induction false} IncreasingBy(files: seq<FileEntry>)
    requires forall k | 0 < k < |files| :: Before(files[k - 1].path, files[k].path)
    ensures Increasing(files)
  {
    if |files| > 0 {
      var init := files[..|files| - 1];
      IncreasingBy(init);
      forall j, k | 0 <= j < k < |files| ensures Before(files[j].path, files[k].path) {
        if k < |init| {
          assert Before(init[j].path, init[k].path);
        } else if j < k - 1 {
          assert Before(init[j].path, init[k - 1].path);
          BeforeTransitive(files[j].path, files[k - 1].path, files[k].path);
        }
      }
    }
  }

  lemma TooLarge(files: seq<FileEntry>, k: nat)
    requires k <= |files| && Sum(files[..k]) > MAX_TOTAL_BYTES
    ensures Sum(files) > MAX_TOTAL_BYTES || exists j :: 0 <= j < |files| && !GoodEntry(files[j])
  {
    if forall j | 0 <= j < |files| :: GoodEntry(files[j]) { SumGrows(files, k); }
  }

  method Validate(seal: Seal, v: Inventory) returns (r: Result<Inventory>)
    ensures r.Ok? <==> ValidInventory(seal, v)
    ensures r.Ok? ==> r.value == v
  {
    if !GoodRoot(v.root) || |v.files| > MAX_FILES { return Err(SchemaInvalid); }
    var total, i := 0, 0;
    while i < |v.files|
      invariant 0 <= i <= |v.files| && total == Sum(v.files[..i]) <= MAX_TOTAL_BYTES
      invariant forall k | 0 <= k < i :: GoodEntry(v.files[k])
      invariant forall k | 0 < k < i :: Before(v.files[k - 1].path, v.files[k].path)
    {
      var item := v.files[i];
      if !Relative(item.path) { return Err(SchemaInvalid); }
      if 0 < i && !Before(v.files[i - 1].path, item.path) { return Err(SchemaInvalid); }
      if item.size < 0 || item.size > MAX_FILE_BYTES { return Err(SchemaInvalid); }
      total := total + item.size;
      assert v.files[..i + 1][..i] == v.files[..i];
      if total > MAX_TOTAL_BYTES {
        TooLarge(v.files, i + 1);
        return Err(TotalTooLarge);
      }
      i := i + 1;
    }
    assert v.files[..i] == v.files;
    IncreasingBy(v.files);
    if v.fileCount != |v.files| || v.totalBytes != total { return Err(SchemaInvalid); }
    if v.sha != seal(v.root, v.files, v.fileCount, v.totalBytes) { return Err(DigestMismatch); }
    return Ok(v);
  }

  // ------------------------------------------------------------ sorting the records

  function Insert(e: FileEntry, files: seq<FileEntry>): (r: seq<FileEntry>)
    requires Increasing(files) && forall k | 0 <= k < |files| :: files[k].path != e.path
    ensures |r| == |files| + 1 && Sum(r) == Sum(files) + e.size
    ensures forall x :: x in r <==> x == e || x in files
    ensures Increasing(r)
  {
    if files == [] then assert [e][..0] == []; [e] else
    var init, last := files[..|files| - 1], files[|files| - 1];
    if Before(last.path, e.path) then
      assert (files + [e])[..|files|] == files;
      assert forall x | x in files :: Before(x.path, e.path) by {
        forall x | x in files ensures Before(x.path, e.path) {
          var k :| 0 <= k < |files| && files[k] == x;
          if k < |files| - 1 { BeforeTransitive(x.path, last.path, e.path); }
        }
      }
      InsertLast(files, e);
      files + [e]
    else
      BeforeTotal(last.path, e.path);
      var r := Insert(e, init);
      assert (r + [last])[..|r|] == r && files == init + [last];
      assert forall x | x in init :: Before(x.path, last.path) by {
        forall x | x in init ensures Before(x.path, last.path) {
          var k :| 0 <= k < |init| && init[k] == x;
          assert files[k] == x;
        }
      }
      InsertLast(r, last);
      r + [last]
  }

  lemma InsertLast(files: seq<FileEntry>, e: FileEntry)
    requires Increasing(files) && forall x | x in files :: Before(x.path, e.path)
    ensures Increasing(files + [e])
  {
  }

  function EntryOf(r: Record): FileEntry { FileEntry(Join(r.path), r.size, r.digest) }

  ghost predicate JoinsDiffer(records: seq<Record>) {
    forall j, k | 0 <= j < k < |records| :: Join(records[j].path) != Join(records[k].path)
  }

  ghost predicate FromRecord(records: seq<Record>, x: FileEntry) {
    exists k :: 0 <= k < |records| && x == EntryOf(records[k])
  }

  lemma FromLast(records: seq<Record>, x: FileEntry)
    requires |records| > 0
    ensures var n := |records| - 1;
            FromRecord(records, x) <==> x == EntryOf(records[n]) || FromRecord(records[..n], x)
  {
    var n := |records| - 1;
    if FromRecord(records, x) && x != EntryOf(records[n]) {
      var k :| 0 <= k < |records| && x == EntryOf(records[k]);
      assert records[..n][k] == records[k];
    }
    if FromRecord(records[..n], x) {
      var k :| 0 <= k < n && x == EntryOf(records[..n][k]);
      assert records[k] == records[..n][k];
    }
  }

  lemma NewPath(records: seq<Record>, x: FileEntry)
    requires |records| > 0 && JoinsDiffer(records) && FromRecord(records[..|records| - 1], x)
    ensures x.path != Join(records[|records| - 1].path)
  {
    var n := |records| - 1;
    var k :| 0 <= k < n && x == EntryOf(records[..n][k]);
    assert records[k] == records[..n][k];
  }

  function SortedFiles(records: seq<Record>): (files: seq<FileEntry>)
    requires JoinsDiffer(records)
    ensures |files| == |records| && Sum(files) == Bytes(records) && Increasing(files)
    ensures forall x {:trigger x in files} {:trigger FromRecord(records, x)} :: x in files <==> FromRecord(records, x)
  {
    if records == [] then [] else
    var init, last := records[..|records| - 1], EntryOf(records[|records| - 1]);
    var files := SortedFiles(init);
    assert forall k | 0 <= k < |files| :: files[k].path != last.path by {
      forall k | 0 <= k < |files| ensures files[k].path != last.path {
        assert files[k] in files;
        NewPath(records, files[k]);
      }
    }
    var all := Insert(last, files);
    assert forall x :: x in all <==> FromRecord(records, x) by {
      forall x ensures x in all <==> FromRecord(records, x) { FromLast(records, x); }
    }
    all
  }

  lemma InitOf(a: seq<FileEntry>, z: FileEntry)
    requires Increasing(a) && |a| > 0
    ensures z in a[..|a| - 1] <==> z in a && z != a[|a| - 1]
  {
    BeforeTotal(z.path, z.path);
    if z in a[..|a| - 1] {
      var k :| 0 <= k < |a| - 1 && a[k] == z;
      assert Before(a[k].path, a[|a| - 1].path);
    }
  }

  /** Two increasing lists with the same entries are the same list. */
  lemma {:induction false} SameList(a: seq<FileEntry>, b: seq<FileEntry>)
    requires Increasing(a) && Increasing(b) && forall x :: x in a <==> x in b
    ensures a == b
    decreases |a|
  {
    assert |b| > 0 ==> b[0] in b;
    if a != [] {
      assert a[0] in b;
      LastOf(a, b);
      var a', b' := a[..|a| - 1], b[..|b| - 1];
      forall z ensures z in a' <==> z in b' {
        InitOf(a, z);
        InitOf(b, z);
      }
      SameList(a', b');
      assert a == a' + [a[|a| - 1]] && b == b' + [b[|b| - 1]];
    }
  }

  lemma LastOf(a: seq<FileEntry>, b: seq<FileEntry>)
    requires Increasing(a) && Increasing(b) && |a| > 0 && |b| > 0 && forall x :: x in a <==> x in b
    ensures a[|a| - 1] == b[|b| - 1]
  {
    var x, y := a[|a| - 1], b[|b| - 1];
    assert x in b && y in a;
    var j :| 0 <= j < |b| && b[j] == x;
    var k :| 0 <= k < |a| && a[k] == y;
    BeforeTotal(x.path, y.path);
  }

  // ------------------------------------------------------------ the inventory and the audit

  ghost predicate EntryPath(h: History, T: nat, rootIno: Ino, e: FileEntry, p: Path) {
    IsFile(h, T, rootIno, p) && Join(p) == e.path
  }

  ghost predicate EntryBytes(h: History, hash: seq<Byte> -> Digest, T: nat, rootIno: Ino, e: FileEntry, p: Path)
    requires EntryPath(h, T, rootIno, e, p)
  {
    var bytes := h(T, Resolve(h, T, rootIno, p).value).node.bytes;
    e.size == |bytes| && e.digest == hash(bytes)
  }

  /** Entry e is a file of the tree at instant T; its size and digest are right, below the root or if whole. */
  ghost predicate EntryRight(h: History, hash: seq<Byte> -> Digest, T: nat, rootIno: Ino, e: FileEntry, whole: bool) {
    exists p :: EntryPath(h, T, rootIno, e, p) && (whole || |p| > 1 ==> EntryBytes(h, hash, T, rootIno, e, p))
  }

  ghost predicate HasEntry(files: seq<FileEntry>, s: string) {
    exists k :: 0 <= k < |files| && files[k].path == s
  }

  /** The files are exactly the regular files of the tree at instant T. */
  ghost predicate Describes(h: History, hash: seq<Byte> -> Digest, T: nat, rootIno: Ino, files: seq<FileEntry>, whole: bool) {
    && Increasing(files)
    && (forall p | IsFile(h, T, rootIno, p) :: p != [] && GoodNames(p) && HasEntry(files, Join(p)))
    && (forall k | 0 <= k < |files| :: EntryRight(h, hash, T, rootIno, files[k], whole))
  }

  lemma RecordsJoinApart(h: History, hash: seq<Byte> -> Digest, l: Log)
    requires LogOk(h, hash, l, [], 0)
    ensures JoinsDiffer(l.records)
  {
    forall j, k | 0 <= j < k < |l.records| ensures Join(l.records[j].path) != Join(l.records[k].path) {
      assert RecordOk(h, hash, l, l.records[j]) && RecordOk(h, hash, l, l.records[k]);
      assert FetchOk(l, l.records[j].path) && FetchOk(l, l.records[k].path);
      SplitJoin(l.records[j].path);
      SplitJoin(l.records[k].path);
    }
  }

  lemma SortedDescribes(h: History, hash: seq<Byte> -> Digest, l: Log, rootIno: Ino, T: nat)
    requires Stamped(h) && Gathered(h, hash, l, rootIno) && Confirmed(h, l, T) && JoinsDiffer(l.records)
    ensures Describes(h, hash, T, rootIno, SortedFiles(l.records), h(l.visits[[]].at, rootIno).stamp == h(T, rootIno).stamp)
  {
    var files, whole := SortedFiles(l.records), h(l.visits[[]].at, rootIno).stamp == h(T, rootIno).stamp;
    PathsExact(h, hash, l, rootIno, T);
    forall p | IsFile(h, T, rootIno, p) ensures p != [] && GoodNames(p) && HasEntry(files, Join(p)) {
      assert Recorded(l.records, p);
      var k :| 0 <= k < |l.records| && l.records[k].path == p;
      assert RecordOk(h, hash, l, l.records[k]) && FetchOk(l, p);
      assert FromRecord(l.records, EntryOf(l.records[k]));
      assert EntryOf(l.records[k]) in files;
    }
    forall k | 0 <= k < |files| ensures EntryRight(h, hash, T, rootIno, files[k], whole) {
      assert files[k] in files;
      assert FromRecord(l.records, files[k]);
      var j :| 0 <= j < |l.records| && files[k] == EntryOf(l.records[j]);
      var p := l.records[j].path;
      assert Recorded(l.records, p);
      assert EntryPath(h, T, rootIno, files[k], p);
      if whole || |p| > 1 { RecordsRight(h, hash, l, rootIno, T, j); }
    }
  }

  lemma EntriesGood(h: History, hash: seq<Byte> -> Digest, l: Log)
    requires LogOk(h, hash, l, [], 0) && JoinsDiffer(l.records)
    ensures forall k | 0 <= k < |SortedFiles(l.records)| :: GoodEntry(SortedFiles(l.records)[k])
  {
    var files := SortedFiles(l.records);
    forall k | 0 <= k < |files| ensures GoodEntry(files[k]) {
      assert files[k] in files;
      assert FromRecord(l.records, files[k]);
      var j :| 0 <= j < |l.records| && files[k] == EntryOf(l.records[j]);
      assert RecordOk(h, hash, l, l.records[j]);
    }
  }

  /** After both passes the log is what the snapshot theorem starts from. */
  lemma PassesDone(h: History, hash: seq<Byte> -> Digest, a: Log, b: Log, rootIno: Ino, t: nat)
    requires LogOk(h, hash, a, [], 0) && Past(a, t) && [] in a.visits && a.visits[[]].ino == rootIno
    requires Reviewed(h, a, b, [], t)
    ensures Gathered(h, hash, b, rootIno) && Confirmed(h, b, b.checks[[]])
  {
    ChecksOnly(h, hash, a, b);
    var T := b.checks[[]];
    forall p | p in b.visits ensures VisitOk(h, b, p) && Rechecked(h, b, p) && Straddled(b, T, p) {
      assert !Open([], 0, p) && VisitOk(h, b, p);
      assert Under([], p) && Again(h, b, T, p) && Dated(a, t, p);
    }
    forall q | q in b.fetches ensures b.fetches[q].at <= T { assert Dated(a, t, q); }
  }

  /** What an inventory that was returned says, and about which instant. */
  ghost predicate Witnessed(h: History, hash: seq<Byte> -> Digest, seal: Seal, rootIno: Ino, root: string,
                            v: Inventory, start: nat, first: nat, T: nat, end: nat) {
    && start <= first <= T <= end && ValidInventory(seal, v) && v.root == root
    && h(T, rootIno).node.Dir?
    && Describes(h, hash, T, rootIno, v.files, h(first, rootIno).stamp == h(T, rootIno).stamp)
  }

  function Report(seal: Seal, root: string, records: seq<Record>): Inventory
    requires JoinsDiffer(records)
  {
    var files := SortedFiles(records);
    Inventory(root, files, |records|, Bytes(records), seal(root, files, |records|, Bytes(records)))
  }

  lemma BothPasses(h: History, hash: seq<Byte> -> Digest, seal: Seal, root: string, a: Log, b: Log, rootIno: Ino,
                   t: nat, start: nat, end: nat)
    requires Stamped(h) && LogOk(h, hash, a, [], 0) && Past(a, t) && Reviewed(h, a, b, [], t)
    requires [] in a.visits && a.visits[[]].ino == rootIno && start <= a.visits[[]].at && b.checks[[]] <= end
    requires GoodRoot(root) && |b.records| <= MAX_FILES && Bytes(b.records) <= MAX_TOTAL_BYTES
    ensures JoinsDiffer(b.records)
    ensures Witnessed(h, hash, seal, rootIno, root, Report(seal, root, b.records), start, b.visits[[]].at, b.checks[[]], end)
  {
    PassesDone(h, hash, a, b, rootIno, t);
    ChecksOnly(h, hash, a, b);
    RecordsJoinApart(h, hash, b);
    SortedDescribes(h, hash, b, rootIno, b.checks[[]]);
    EntriesGood(h, hash, b);
    assert Rechecked(h, b, []) && Straddled(b, b.checks[[]], []);
  }

  /** The tree can be walked, within all three allowances. */
  ghost predicate Within(h: History, t: nat, rootIno: Ino) {
    Walkable(h, t, rootIno, [], MAX_DEPTH + 1) && Affordable(TreeCost(h, t, rootIno, MAX_DEPTH + 1))
  }

  /** Nothing was listed before the root. */
  lemma {:induction false} ListedAfterRoot(h: History, hash: seq<Byte> -> Digest, l: Log, p: Path)
    requires LogOk(h, hash, l, [], 0) && p in l.visits && [] in l.visits
    ensures l.visits[[]].at <= l.visits[p].at
    decreases |p|
  {
    if p != [] {
      var q, n := p[..|p| - 1], p[|p| - 1];
      assert !Open([], 0, p) && VisitOk(h, l, p);
      assert q in l.visits && !Open([], 0, q) && VisitOk(h, l, q) && Followed(h, l, q, n) && q + [n] == p;
      ListedAfterRoot(h, hash, l, q);
    }
  }

  lemma AllSince(h: History, hash: seq<Byte> -> Digest, l: Log, t: nat)
    requires LogOk(h, hash, l, [], 0) && [] in l.visits && t <= l.visits[[]].at
    ensures Since(l, t)
  {
    forall p ensures SinceAt(l, t, p) {
      if p in l.visits { ListedAfterRoot(h, hash, l, p); }
    }
  }

  /** The first pass over the root settles whether the tree is within the allowances. */
  lemma RootSettled(h: History, t: nat, rootIno: Ino, after: Cost, ok: bool)
    requires Settles(ok, Cost(0, 0, 0), after, Walkable(h, t, rootIno, [], MAX_DEPTH + 1), TreeCost(h, t, rootIno, MAX_DEPTH + 1))
    ensures ok <==> Within(h, t, rootIno)
  {
  }

  method TakeInventory(h: History, hash: seq<Byte> -> Digest, seal: Seal, faulty: bool, start: nat, root: string, rootIno: Ino)
    returns (r: Result<Inventory>, ghost first: nat, ghost T: nat, ghost end: nat)
    requires Stamped(h)
    ensures r.Ok? ==> ValidInventory(seal, r.value) && r.value.root == root
    ensures r.Ok? ==> Witnessed(h, hash, seal, rootIno, root, r.value, start, first, T, end)
    ensures !faulty && Still(h, start) ==> (r.Ok? <==> GoodRoot(root) && Within(h, start, rootIno))
  {
    first, T, end := start, start, start;
    if !GoodRoot(root) { return Err(RootUnsafe), first, T, end; }
    var fault: bool := *;
    if fault && faulty { return Err(RootUnsafe), first, T, end; }
    var w := new Walker(h, hash, faulty, start);
    var walked, a, t := w.BothWalks(rootIno);
    if walked.Err? { return Err(walked.code), first, T, end; }
    fault := *;
    if fault && faulty { return Err(RootChanged), first, T, end; }
    first, T, end := w.log.visits[[]].at, w.log.checks[[]], w.now;
    BothPasses(h, hash, seal, root, a, w.log, rootIno, t, start, end);
    var files := SortedFiles(w.records);
    r := Ok(Inventory(root, files, |w.records|, w.total, seal(root, files, |w.records|, w.total)));
  }

  ghost predicate SameEntries(a: seq<FileEntry>, b: seq<FileEntry>) {
    forall e :: e in a <==> e in b
  }

  /** The two trees hold the same regular files with the same bytes. */
  ghost predicate SameFiles(h: History, t: nat, u: nat, rootIno: Ino) {
    forall p ::
      && (IsFile(h, t, rootIno, p) <==> IsFile(h, u, rootIno, p))
      && (IsFile(h, t, rootIno, p) ==>
            h(t, Resolve(h, t, rootIno, p).value).node.bytes == h(u, Resolve(h, u, rootIno, p).value).node.bytes)
  }

  ghost predicate InjectiveHash(hash: seq<Byte> -> Digest) {
    forall a, b {:trigger hash(a), hash(b)} :: hash(a) == hash(b) ==> a == b
  }

  /** The path behind the entry that a description holds for the file p. */
  lemma EntryFor(h: History, hash: seq<Byte> -> Digest, T: nat, rootIno: Ino, files: seq<FileEntry>, p: Path) returns (e: FileEntry)
    requires Describes(h, hash, T, rootIno, files, true) && IsFile(h, T, rootIno, p)
    ensures e in files && EntryPath(h, T, rootIno, e, p) && EntryBytes(h, hash, T, rootIno, e, p)
  {
    assert HasEntry(files, Join(p));
    var k :| 0 <= k < |files| && files[k].path == Join(p);
    e := files[k];
    assert EntryRight(h, hash, T, rootIno, e, true);
    var q :| EntryPath(h, T, rootIno, e, q) && EntryBytes(h, hash, T, rootIno, e, q);
    SplitJoin(p);
    SplitJoin(q);
  }

  lemma EntryShared(h: History, hash: seq<Byte> -> Digest, t: nat, u: nat, rootIno: Ino,
                    before: seq<FileEntry>, after: seq<FileEntry>, e: FileEntry)
    requires Describes(h, hash, t, rootIno, before, true) && Describes(h, hash, u, rootIno, after, true)
    requires SameFiles(h, t, u, rootIno) && e in before
    ensures e in after
  {
    var k :| 0 <= k < |before| && before[k] == e;
    assert EntryRight(h, hash, t, rootIno, before[k], true);
    var p :| EntryPath(h, t, rootIno, e, p) && EntryBytes(h, hash, t, rootIno, e, p);
    var f := EntryFor(h, hash, u, rootIno, after, p);
  }

  lemma FileShared(h: History, hash: seq<Byte> -> Digest, t: nat, u: nat, rootIno: Ino,
                   before: seq<FileEntry>, after: seq<FileEntry>, p: Path)
    requires Describes(h, hash, t, rootIno, before, true) && Describes(h, hash, u, rootIno, after, true)
    requires InjectiveHash(hash) && SameEntries(before, after) && IsFile(h, t, rootIno, p)
    ensures IsFile(h, u, rootIno, p)
    ensures h(t, Resolve(h, t, rootIno, p).value).node.bytes == h(u, Resolve(h, u, rootIno, p).value).node.bytes
  {
    var e := EntryFor(h, hash, t, rootIno, before, p);
    assert e in after;
    var k :| 0 <= k < |after| && after[k] == e;
    assert EntryRight(h, hash, u, rootIno, after[k], true);
    var q :| EntryPath(h, u, rootIno, e, q) && EntryBytes(h, hash, u, rootIno, e, q);
    SplitJoin(p);
    SplitJoin(q);
  }

  /** Two descriptions agree exactly when the trees they describe hold the same files. */
  lemma AuditDecides(h: History, hash: seq<Byte> -> Digest, t: nat, u: nat, rootIno: Ino,
                     before: seq<FileEntry>, after: seq<FileEntry>)
    requires Describes(h, hash, t, rootIno, before, true) && Describes(h, hash, u, rootIno, after, true)
    requires InjectiveHash(hash)
    ensures SameEntries(before, after) <==> SameFiles(h, t, u, rootIno)
  {
    if SameFiles(h, t, u, rootIno) {
      forall e ensures e in before <==> e in after {
        if e in before { EntryShared(h, hash, t, u, rootIno, before, after, e); }
        if e in after { EntryShared(h, hash, u, t, rootIno, after, before, e); }
      }
    }
    if SameEntries(before, after) {
      forall p
        ensures IsFile(h, t, rootIno, p) <==> IsFile(h, u, rootIno, p)
        ensures IsFile(h, t, rootIno, p) ==>
          h(t, Resolve(h, t, rootIno, p).value).node.bytes == h(u, Resolve(h, u, rootIno, p).value).node.bytes
      {
        if IsFile(h, t, rootIno, p) { FileShared(h, hash, t, u, rootIno, before, after, p); }
        if IsFile(h, u, rootIno, p) { FileShared(h, hash, u, t, rootIno, after, before, p); }
      }
    }
  }

  lemma {:induction false} StillResolves(h: History, t: nat, u: nat, rootIno: Ino, p: Path)
    requires Still(h, t) && t <= u
    ensures Resolve(h, u, rootIno, p) == Resolve(h, t, rootIno, p)
    ensures IsFile(h, u, rootIno, p) <==> IsFile(h, t, rootIno, p)
    ensures IsFile(h, t, rootIno, p) ==> h(u, Resolve(h, t, rootIno, p).value) == h(t, Resolve(h, t, rootIno, p).value)
    decreases |p|
  {
    if p != [] {
      StillResolves(h, t, u, rootIno, p[..|p| - 1]);
      var d := Resolve(h, t, rootIno, p[..|p| - 1]);
      if d.Some? { assert Same(h, t, u, d.value); }
    }
    var i := Resolve(h, t, rootIno, p);
    if i.Some? { assert Same(h, t, u, i.value); }
  }

  lemma StillFiles(h: History, t: nat, start: nat, T: nat, rootIno: Ino)
    requires Still(h, start) && start <= T
    ensures SameFiles(h, t, T, rootIno) <==> SameFiles(h, t, start, rootIno)
  {
    forall p
      ensures IsFile(h, T, rootIno, p) <==> IsFile(h, start, rootIno, p)
      ensures IsFile(h, start, rootIno, p) ==>
        h(T, Resolve(h, T, rootIno, p).value).node == h(start, Resolve(h, start, rootIno, p).value).node
    {
      StillResolves(h, start, T, rootIno, p);
    }
  }

  /** On a tree that no longer changes, an audit's own entries agree with an earlier description exactly when no file changed. */
  lemma QuietAuditDecides(h: History, hash: seq<Byte> -> Digest, seal: Seal, rootIno: Ino, root: string, t: nat, expected: seq<FileEntry>,
                          observed: Inventory, start: nat, first: nat, T: nat, end: nat)
    requires InjectiveHash(hash) && Describes(h, hash, t, rootIno, expected, true)
    requires Still(h, start) && Witnessed(h, hash, seal, rootIno, root, observed, start, first, T, end)
    ensures SameEntries(expected, observed.files) <==> SameFiles(h, t, start, rootIno)
  {
    assert Same(h, start, first, rootIno) && Same(h, start, T, rootIno);
    AuditDecides(h, hash, t, T, rootIno, expected, observed.files);
    StillFiles(h, t, start, T, rootIno);
  }

  /**
    audit_campaign_directory. On a tree that no longer changes, against an inventory that described it at an
    earlier instant past, the audit verifies exactly when the tree is within limits and holds the same files as then.
  */
  method Audit(h: History, hash: seq<Byte> -> Digest, seal: Seal, faulty: bool, start: nat, root: string, rootIno: Ino,
               expected: Inventory, ghost past: nat)
    returns (r: Result<Inventory>, ghost observed: Result<Inventory>, ghost first: nat, ghost T: nat, ghost end: nat)
    requires Stamped(h)
    ensures r.Ok? ==> r.value == expected && ValidInventory(seal, expected) && expected.root == root
    ensures r.Ok? <==> observed.Ok? && ValidInventory(seal, expected) && expected.root == root && SameEntries(expected.files, observed.value.files)
    ensures observed.Ok? ==> Witnessed(h, hash, seal, rootIno, root, observed.value, start, first, T, end)
    ensures (!faulty && Still(h, start) && InjectiveHash(hash) && ValidInventory(seal, expected) && expected.root == root
      && Describes(h, hash, past, rootIno, expected.files, true)) ==>
      (r.Ok? <==> Within(h, start, rootIno) && SameFiles(h, past, start, rootIno))
  {
    observed, first, T, end := Err(Invalid), start, start, start;
    var parsed := Validate(seal, expected);
    if parsed.Err? { return Err(parsed.code), observed, first, T, end; }
    var taken, f, u, e := TakeInventory(h, hash, seal, faulty, start, root, rootIno);
    observed, first, T, end := taken, f, u, e;
    if taken.Err? { return Err(taken.code), observed, first, T, end; }
    if Still(h, start) && InjectiveHash(hash) && Describes(h, hash, past, rootIno, expected.files, true) {
      QuietAuditDecides(h, hash, seal, rootIno, root, past, expected.files, taken.value, start, first, T, end);
    }
    if SameEntries(expected.files, taken.value.files) { SameList(expected.files, taken.value.files); }
    if taken.value != parsed.value { return Err(InventoryMismatch), observed, first, T, end; }
    return Ok(expected), observed, first, T, end;
  }
}
