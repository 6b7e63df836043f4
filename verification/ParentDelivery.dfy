/**
  Delivery of a scored bundle to its solve parent, by any number of calls that may each stop
  at any step: publish a copy, pin it, register its files, publish the outputs as one batch,
  and record the terminal event.

  The parent and child runs, the materials and the contract are the same in every call; the
  delivery lock makes the calls follow one another, and no one else writes to the ledger.
*/
module ParentDelivery {

  datatype Option<+T> = None | Some(value: T)

  type Copy = nat       // one published directory under the delivery root
  type Name = string

  datatype Kind = Manifest | Report | Source | Other | Output

  /** Artifact paths: a file of a published copy, or any other path of the workspace. */
  datatype ArtifactPath = InCopy(copy: Copy, name: Name) | Plain(path: string)

  /** A file to deliver: its name in the copy, or its path as an output. */
  datatype Item = Item(name: Name, size: nat, sha: nat)

  datatype Row = Row(path: ArtifactPath, kind: Kind, size: nat, sha: nat, owner: nat)

  datatype Payload =
    | Pinned(copy: Copy)                                        // bundle_delivery_prepared
    | Delivered(failed: bool, copy: Copy, outputs: seq<Item>)   // bundle_candidate_delivered
    | Unrelated

  datatype EventType = Prepared | Terminal | OtherType
  datatype Event = Event(id: nat, kind: EventType, payload: Payload)

  /** The batch of outputs: Torn, its directory is there and its journal is not; Pending, the journal is there. */
  datatype Batch = Absent | Torn | Pending | Committed | RolledBack

  const PREPARED_ID := 0
  const TERMINAL_ID := 1

  // ------------------------------------------------------------ the ledger

  function Sum(rows: seq<Row>): nat {
    if rows == [] then 0 else Sum(rows[..|rows| - 1]) + rows[|rows| - 1].size
  }

  predicate HasPath(rows: seq<Row>, path: ArtifactPath) {
    exists i :: 0 <= i < |rows| && rows[i].path == path
  }

  predicate HasOutput(rows: seq<Row>, path: string) {
    exists i :: 0 <= i < |rows| && rows[i].path == Plain(path) && rows[i].kind == Output
  }

  predicate OutputRowAt(rows: seq<Row>, i: int, path: string) {
    0 <= i < |rows| && rows[i].path == Plain(path) && rows[i].kind == Output
  }

  /** No two output rows have this output's path, and one that has it gives its size and digest. */
  predicate Unclashed(rows: seq<Row>, f: Item) {
    && (forall i, j {:trigger OutputRowAt(rows, i, f.name), OutputRowAt(rows, j, f.name)} |
          0 <= i < |rows| && 0 <= j < |rows| && OutputRowAt(rows, i, f.name) && OutputRowAt(rows, j, f.name) :: i == j)
    && (forall i {:trigger OutputRowAt(rows, i, f.name)} | 0 <= i < |rows| && OutputRowAt(rows, i, f.name) :: rows[i].size == f.size && rows[i].sha == f.sha)
  }

  /** What every call checks about the outputs' rows. */
  predicate Clean(outputs: seq<Item>, rows: seq<Row>) {
    forall i {:trigger Unclashed(rows, outputs[i])} | 0 <= i < |outputs| :: Unclashed(rows, outputs[i])
  }

  /** Exactly one row says that this output was delivered, with its size and digest. */
  predicate Published(rows: seq<Row>, f: Item) {
    exists i :: 0 <= i < |rows| && rows[i].path == Plain(f.name) && rows[i].kind.Output? && rows[i].size == f.size && rows[i].sha == f.sha
                && forall j | 0 <= j < |rows| && rows[j].path == Plain(f.name) && rows[j].kind.Output? :: j == i
  }

  lemma PublishedMeans(rows: seq<Row>, f: Item)
    ensures Published(rows, f) <==> HasOutput(rows, f.name) && Unclashed(rows, f)
  {
    if HasOutput(rows, f.name) && Unclashed(rows, f) {
      var i :| 0 <= i < |rows| && rows[i].path == Plain(f.name) && rows[i].kind == Output;
      assert OutputRowAt(rows, i, f.name);
      forall j | 0 <= j < |rows| && rows[j].path == Plain(f.name) && rows[j].kind.Output? ensures j == i { assert OutputRowAt(rows, j, f.name); }
    }
    if Published(rows, f) {
      var i :| 0 <= i < |rows| && rows[i].path == Plain(f.name) && rows[i].kind.Output? && rows[i].size == f.size && rows[i].sha == f.sha
               && forall j | 0 <= j < |rows| && rows[j].path == Plain(f.name) && rows[j].kind.Output? :: j == i;
      forall j | OutputRowAt(rows, j, f.name) ensures j == i && rows[j].size == f.size && rows[j].sha == f.sha {}
    }
  }

  predicate AllPublished(outputs: seq<Item>, rows: seq<Row>) {
    forall i {:trigger Published(rows, outputs[i])} | 0 <= i < |outputs| :: Published(rows, outputs[i])
  }

  /** The bytes that the files of the copy will still add to the ledger. */
  function CopyCost(files: seq<Item>, rows: seq<Row>, pinned: Option<Copy>): nat {
    if files == [] then 0 else
    var f := files[|files| - 1];
    CopyCost(files[..|files| - 1], rows, pinned) +
    if pinned.Some? && HasPath(rows, InCopy(pinned.value, f.name)) then 0 else f.size
  }

  /** The bytes that the outputs will still add. */
  function OutputCost(outputs: seq<Item>, rows: seq<Row>): nat {
    if outputs == [] then 0 else
    var f := outputs[|outputs| - 1];
    OutputCost(outputs[..|outputs| - 1], rows) + if HasOutput(rows, f.name) then 0 else f.size
  }

  /** A row of another path or kind, or the first one of this output, does not clash. */
  lemma UnclashedAppend(rows: seq<Row>, r: Row, f: Item)
    requires Unclashed(rows, f)
    requires r.path == Plain(f.name) && r.kind == Output ==> !HasOutput(rows, f.name) && r.size == f.size && r.sha == f.sha
    ensures Unclashed(rows + [r], f)
  {
    var more := rows + [r];
    forall i | OutputRowAt(more, i, f.name) ensures more[i].size == f.size && more[i].sha == f.sha {
      if i < |rows| { assert OutputRowAt(rows, i, f.name); }
    }
    forall i, j | OutputRowAt(more, i, f.name) && OutputRowAt(more, j, f.name) ensures i == j {
      if i < |rows| { assert OutputRowAt(rows, i, f.name); }
      if j < |rows| { assert OutputRowAt(rows, j, f.name); }
    }
  }

  lemma PublishedAppend(outputs: seq<Item>, rows: seq<Row>, r: Row)
    requires AllPublished(outputs, rows) && r.path.InCopy?
    ensures AllPublished(outputs, rows + [r])
  {
    HasAppend(rows, r);
    forall i | 0 <= i < |outputs| ensures Published(rows + [r], outputs[i]) {
      assert Published(rows, outputs[i]);
      PublishedMeans(rows, outputs[i]);
      UnclashedAppend(rows, r, outputs[i]);
      PublishedMeans(rows + [r], outputs[i]);
    }
  }

  lemma CleanAppend(outputs: seq<Item>, rows: seq<Row>, r: Row)
    requires Clean(outputs, rows) && r.path.InCopy?
    ensures Clean(outputs, rows + [r])
  {
    forall i | 0 <= i < |outputs| ensures Unclashed(rows + [r], outputs[i]) { UnclashedAppend(rows, r, outputs[i]); }
  }

  lemma {:induction false} NothingToCopy(files: seq<Item>, rows: seq<Row>, c: Copy)
    requires forall f | f in files :: HasPath(rows, InCopy(c, f.name))
    ensures CopyCost(files, rows, Some(c)) == 0
  {
    if files != [] { NothingToCopy(files[..|files| - 1], rows, c); }
  }

  lemma {:induction false} NothingToPublish(outputs: seq<Item>, rows: seq<Row>)
    requires AllPublished(outputs, rows)
    ensures OutputCost(outputs, rows) == 0
  {
    if outputs != [] {
      var init := outputs[..|outputs| - 1];
      forall i | 0 <= i < |init| ensures Published(rows, init[i]) { assert Published(rows, outputs[i]); }
      NothingToPublish(init, rows);
      assert Published(rows, outputs[|outputs| - 1]);
      PublishedMeans(rows, outputs[|outputs| - 1]);
    }
  }

  /** When everything has its row, the demand is what the ledger holds. */
  lemma Settled(files: seq<Item>, outputs: seq<Item>, rows: seq<Row>, c: Copy)
    requires forall f | f in files :: HasPath(rows, InCopy(c, f.name))
    ensures Demand(files, outputs, rows, Some(c)) == Sum(rows) + OutputCost(outputs, rows)
    ensures AllPublished(outputs, rows) ==> Demand(files, outputs, rows, Some(c)) == Sum(rows)
  {
    NothingToCopy(files, rows, c);
    if AllPublished(outputs, rows) { NothingToPublish(outputs, rows); }
  }

  /** What the budget check compares with the limit. */
  function Demand(files: seq<Item>, outputs: seq<Item>, rows: seq<Row>, pinned: Option<Copy>): nat {
    Sum(rows) + CopyCost(files, rows, pinned) + OutputCost(outputs, rows)
  }

  function KindOf(name: Name): Kind {
    if name == "delivery.json" then Manifest
    else if name == "evaluation/report.json" then Report
    else if |name| >= 7 && name[..7] == "source/" then Source else Other
  }

  function CopyRow(c: Copy, f: Item, owner: nat): Row {
    Row(InCopy(c, f.name), KindOf(f.name), f.size, f.sha, owner)
  }

  function OutputRow(f: Item, owner: nat): Row {
    Row(Plain(f.name), Output, f.size, f.sha, owner)
  }

  predicate DistinctNames(items: seq<Item>) {
    forall i, j | 0 <= i < j < |items| :: items[i].name != items[j].name
  }

  // ------------------------------------------------------------ the budget never moves

  lemma {:induction false} SumSplits(a: seq<Row>, b: seq<Row>)
    ensures Sum(a + b) == Sum(a) + Sum(b) && (|b| == 1 ==> Sum(b) == b[0].size)
  {
    if b == [] {
      assert a + b == a;
    } else {
      SumSplits(a, b[..|b| - 1]);
      assert (a + b)[..|a + b| - 1] == a + b[..|b| - 1];
    }
  }

  lemma SumAppend(rows: seq<Row>, r: Row)
    ensures Sum(rows + [r]) == Sum(rows) + r.size
  {
    assert (rows + [r])[..|rows|] == rows;
  }

  lemma PathsStay(rows: seq<Row>, more: seq<Row>)
    requires rows <= more
    ensures forall p | HasPath(rows, p) :: HasPath(more, p)
  {
    forall p | HasPath(rows, p) ensures HasPath(more, p) {
      var i :| 0 <= i < |rows| && rows[i].path == p;
      assert more[i] == rows[i];
    }
  }

  lemma HasAppend(rows: seq<Row>, r: Row)
    ensures forall p :: HasPath(rows + [r], p) <==> HasPath(rows, p) || r.path == p
    ensures forall s :: HasOutput(rows + [r], s) <==> HasOutput(rows, s) || (r.path == Plain(s) && r.kind == Output)
  {
    var more := rows + [r];
    assert forall i | 0 <= i < |rows| :: more[i] == rows[i];
    assert more[|rows|] == r;
  }

  /** Registering one file of the copy moves its bytes from the pending side to the ledger. */
  lemma {:induction false} CopyCostAppend(files: seq<Item>, rows: seq<Row>, c: Copy, f: Item, r: Row)
    requires DistinctNames(files) && r.path == InCopy(c, f.name) && !HasPath(rows, r.path)
    ensures f in files ==> CopyCost(files, rows + [r], Some(c)) + f.size == CopyCost(files, rows, Some(c))
    ensures (forall i | 0 <= i < |files| :: files[i].name != f.name) ==>
      CopyCost(files, rows + [r], Some(c)) == CopyCost(files, rows, Some(c))
  {
    if files != [] {
      var init, last := files[..|files| - 1], files[|files| - 1];
      CopyCostAppend(init, rows, c, f, r);
      HasAppend(rows, r);
      assert f in files <==> f in init || f == last;
    }
  }

  lemma {:induction false} CopyCostSame(files: seq<Item>, rows: seq<Row>, pinned: Option<Copy>, r: Row)
    requires r.path.Plain?
    ensures CopyCost(files, rows + [r], pinned) == CopyCost(files, rows, pinned)
  {
    if files != [] {
      CopyCostSame(files[..|files| - 1], rows, pinned, r);
      HasAppend(rows, r);
    }
  }

  lemma {:induction false} OutputCostAppend(outputs: seq<Item>, rows: seq<Row>, r: Row)
    requires r.path.InCopy?
    ensures OutputCost(outputs, rows + [r]) == OutputCost(outputs, rows)
  {
    if outputs != [] {
      OutputCostAppend(outputs[..|outputs| - 1], rows, r);
      HasAppend(rows, r);
    }
  }

  /** A copy that no row mentions costs as much as one that does not exist yet. */
  lemma {:induction false} FreshCopyCost(files: seq<Item>, rows: seq<Row>, c: Copy)
    requires forall n :: !HasPath(rows, InCopy(c, n))
    ensures CopyCost(files, rows, Some(c)) == CopyCost(files, rows, None)
  {
    if files != [] { FreshCopyCost(files[..|files| - 1], rows, c); }
  }

  /** The rows that a committed batch leaves: every output that had none gets one. */
  function CommitRows(outputs: seq<Item>, rows: seq<Row>, owner: nat): (after: seq<Row>)
    ensures rows <= after
  {
    if outputs == [] then rows else
    var f, before := outputs[|outputs| - 1], CommitRows(outputs[..|outputs| - 1], rows, owner);
    if HasOutput(before, f.name) then before else before + [OutputRow(f, owner)]
  }

  lemma {:induction false} OutputCostOne(outputs: seq<Item>, rows: seq<Row>, f: Item, owner: nat)
    requires DistinctNames(outputs + [f]) && !HasOutput(rows, f.name)
    ensures OutputCost(outputs, rows + [OutputRow(f, owner)]) == OutputCost(outputs, rows)
  {
    if outputs != [] {
      var init, last := outputs[..|outputs| - 1], outputs[|outputs| - 1];
      assert DistinctNames(init + [f]) && last.name != f.name by {
        var all := outputs + [f];
        assert all[|outputs|] == f && all[|outputs| - 1] == last;
        assert forall i | 0 <= i < |init| :: (init + [f])[i] == all[i];
      }
      OutputCostOne(init, rows, f, owner);
      HasAppend(rows, OutputRow(f, owner));
    }
  }

  lemma {:induction false} CommitKeepsTotal(outputs: seq<Item>, rows: seq<Row>, owner: nat)
    requires DistinctNames(outputs)
    ensures var after := CommitRows(outputs, rows, owner);
            Sum(after) + OutputCost(outputs, after) == Sum(rows) + OutputCost(outputs, rows)
  {
    if outputs != [] {
      var init, f := outputs[..|outputs| - 1], outputs[|outputs| - 1];
      assert outputs == init + [f];
      CommitKeepsTotal(init, rows, owner);
      var before := CommitRows(init, rows, owner);
      CommitKeepsCost(init, f, rows, owner);
      if !HasOutput(before, f.name) {
        OutputCostOne(init, before, f, owner);
        SumAppend(before, OutputRow(f, owner));
        HasAppend(before, OutputRow(f, owner));
      }
    }
  }

  /** Committing other outputs does not give f its row. */
  lemma {:induction false} CommitKeepsCost(outputs: seq<Item>, f: Item, rows: seq<Row>, owner: nat)
    requires DistinctNames(outputs + [f])
    ensures HasOutput(CommitRows(outputs, rows, owner), f.name) <==> HasOutput(rows, f.name)
  {
    if outputs != [] {
      var init, last := outputs[..|outputs| - 1], outputs[|outputs| - 1];
      var all := outputs + [f];
      assert all[|outputs|] == f && all[|outputs| - 1] == last;
      assert forall i | 0 <= i < |init| :: (init + [f])[i] == all[i];
      CommitKeepsCost(init, f, rows, owner);
      HasAppend(CommitRows(init, rows, owner), OutputRow(last, owner));
    }
  }

  /** A commit adds output rows only, and leaves none missing. */
  lemma {:induction false} CommitAdds(outputs: seq<Item>, rows: seq<Row>, owner: nat, files: seq<Item>, pinned: Option<Copy>)
    ensures var after := CommitRows(outputs, rows, owner);
            && (forall i | |rows| <= i < |after| :: after[i].path.Plain?)
            && (forall f | f in outputs :: HasOutput(after, f.name))
            && CopyCost(files, after, pinned) == CopyCost(files, rows, pinned)
  {
    if outputs != [] {
      var init, f := outputs[..|outputs| - 1], outputs[|outputs| - 1];
      CommitAdds(init, rows, owner, files, pinned);
      var before := CommitRows(init, rows, owner);
      assert forall g | g in outputs :: g in init || g == f;
      HasAppend(before, OutputRow(f, owner));
      CopyCostSame(files, before, pinned, OutputRow(f, owner));
    }
  }

  /** Committing some outputs leaves an output unclashed. */
  lemma {:induction false} CommitUnclashed(outputs: seq<Item>, rows: seq<Row>, owner: nat, f: Item)
    requires Unclashed(rows, f) && forall i | 0 <= i < |outputs| && outputs[i].name == f.name :: outputs[i] == f
    ensures Unclashed(CommitRows(outputs, rows, owner), f)
  {
    if outputs != [] {
      var init, last := outputs[..|outputs| - 1], outputs[|outputs| - 1];
      CommitUnclashed(init, rows, owner, f);
      var before := CommitRows(init, rows, owner);
      if !HasOutput(before, last.name) { UnclashedAppend(before, OutputRow(last, owner), f); }
    }
  }

  /** A commit publishes every output. */
  lemma CommitPublishes(outputs: seq<Item>, rows: seq<Row>, owner: nat)
    requires DistinctNames(outputs) && Clean(outputs, rows)
    ensures AllPublished(outputs, CommitRows(outputs, rows, owner)) && Clean(outputs, CommitRows(outputs, rows, owner))
  {
    var after := CommitRows(outputs, rows, owner);
    CommitAdds(outputs, rows, owner, [], None);
    forall i | 0 <= i < |outputs| ensures Published(after, outputs[i]) && Unclashed(after, outputs[i]) {
      assert Unclashed(rows, outputs[i]) && outputs[i] in outputs;
      CommitUnclashed(outputs, rows, owner, outputs[i]);
      PublishedMeans(after, outputs[i]);
    }
  }

  // ------------------------------------------------------------ events

  /** The events that the look-up of one record considers: the same id, or the same type. */
  function Matching(events: seq<Event>, id: nat, kind: EventType): seq<Event> {
    if events == [] then [] else
    var rest, e := Matching(events[..|events| - 1], id, kind), events[|events| - 1];
    if e.id == id || e.kind == kind then rest + [e] else rest
  }

  lemma MatchingAppend(events: seq<Event>, e: Event, id: nat, kind: EventType)
    ensures Matching(events + [e], id, kind) ==
            if e.id == id || e.kind == kind then Matching(events, id, kind) + [e] else Matching(events, id, kind)
  {
    assert (events + [e])[..|events|] == events;
  }

  lemma {:induction false} MatchingEmpty(events: seq<Event>, id: nat, kind: EventType)
    ensures Matching(events, id, kind) == [] <==> forall i | 0 <= i < |events| :: events[i].id != id && events[i].kind != kind
  {
    if events != [] { MatchingEmpty(events[..|events| - 1], id, kind); }
  }

  /** At most one event matches, and it is well-formed. */
  predicate Single(events: seq<Event>, id: nat, kind: EventType) {
    var m := Matching(events, id, kind);
    m == [] || (|m| == 1 && m[0].id == id && m[0].kind == kind)
  }

  function PayloadOf(events: seq<Event>, id: nat, kind: EventType): Option<Payload> {
    var m := Matching(events, id, kind);
    if m == [] then None else Some(m[0].payload)
  }

  function PinnedIn(events: seq<Event>): Option<Copy> {
    match PayloadOf(events, PREPARED_ID, Prepared)
    case Some(Pinned(c)) => Some(c)
    case _ => None
  }

  function TerminalIn(events: seq<Event>): Option<Payload> {
    PayloadOf(events, TERMINAL_ID, Terminal)
  }

  datatype Result<+T> = Ok(value: T) | Stopped {
    predicate IsFailure() { Stopped? }
    function PropagateFailure<U>(): Result<U> requires Stopped? { Stopped }
    function Extract(): T requires Ok? { value }
  }

  // ------------------------------------------------------------ the parent run

  class Parent {
    const files: seq<Item>      // the materials and the manifest
    const outputs: seq<Item>
    const owner: nat
    const limit: nat
    const faulty: bool          // a call may stop, fail or be refused at any step
    var events: seq<Event>
    var rows: seq<Row>
    var copies: set<Copy>
    var nextCopy: nat
    var batch: Batch

    constructor (files: seq<Item>, outputs: seq<Item>, owner: nat, limit: nat, faulty: bool, events: seq<Event>, rows: seq<Row>, nextCopy: nat)
      requires DistinctNames(files) && DistinctNames(outputs)
      requires Matching(events, PREPARED_ID, Prepared) == [] && Matching(events, TERMINAL_ID, Terminal) == []
      requires forall i | 0 <= i < |rows| && rows[i].path.InCopy? :: rows[i].path.copy < nextCopy
      ensures Valid() && this.files == files && this.outputs == outputs && this.owner == owner && this.limit == limit
      ensures this.faulty == faulty && this.events == events && this.rows == rows && batch == Absent
    {
      this.files, this.outputs, this.owner, this.limit, this.faulty := files, outputs, owner, limit, faulty;
      this.events, this.rows, this.nextCopy := events, rows, nextCopy;
      copies, batch := {}, Absent;
    }

    ghost function Total(): nat
      reads this
    {
      Demand(files, outputs, rows, PinnedIn(events))
    }

    ghost predicate Valid()
      reads this
    {
      && DistinctNames(files) && DistinctNames(outputs)
      && EventsOk(events, outputs, batch)
      && RowsOk(rows, files, owner, PinnedIn(events), nextCopy)
      && (forall c | c in copies :: c < nextCopy)
      && (PinnedIn(events).Some? ==> PinnedIn(events).value in copies && Total() <= limit)
      && (batch != Absent || TerminalIn(events).Some? ==> PinnedIn(events).Some? && Registered(files, rows, PinnedIn(events).value))
      && (batch == Committed ==> AllPublished(outputs, rows))
      && (outputs == [] ==> batch == Absent)
    }

    /** A place where a call may be cut off, refused or fail: whatever follows does not happen. */
    method Stop() returns (stop: bool)
      ensures !faulty ==> !stop
    {
      stop := *;
      stop := stop && faulty;
    }

    /** What never changes in one call: the records, the budget demand, and what a finished call left. */
    twostate predicate Kept()
      reads this
    {
      && Valid() && Total() == old(Total())
      && old(events) <= events && old(rows) <= rows && old(copies) <= copies
      && (old(PinnedIn(events)).Some? ==> PinnedIn(events) == old(PinnedIn(events)))
      && (old(TerminalIn(events)).Some? ==> unchanged(this))
      && (Clean(outputs, old(rows)) ==> Clean(outputs, rows))
      && (old(batch) == Torn || old(batch) == Committed || old(batch) == RolledBack ==> batch == old(batch))
    }

    /** _append: insert the event unless a matching one is there, which must then be this one. */
    method Append(id: nat, kind: EventType, payload: Payload) returns (r: Result<()>)
      requires Single(events, id, kind) && kind != OtherType
      modifies `events
      ensures r.Ok? ==> PayloadOf(events, id, kind) == Some(payload)
      ensures r.Stopped? ==> events == old(events) || events == old(events) + [Event(id, kind, payload)]
      ensures events == old(events) || (events == old(events) + [Event(id, kind, payload)] && Matching(old(events), id, kind) == [])
      ensures !faulty && (PayloadOf(old(events), id, kind).None? || PayloadOf(old(events), id, kind) == Some(payload)) ==> r.Ok?
    {
      var found := PayloadOf(events, id, kind);
      if found.Some? && found.value != payload { return Stopped; }
      if found.None? {
        var stop := Stop();
        if stop { return Stopped; }
        MatchingAppend(events, Event(id, kind, payload), id, kind);
        if forall i | 0 <= i < |events| :: events[i].id != id { events := events + [Event(id, kind, payload)]; }
        MatchingEmpty(old(events), id, kind);
      }
      var stop := Stop();
      if stop { return Stopped; }
      if PayloadOf(events, id, kind).None? { return Stopped; }
      return Ok(());
    }

    /** One file of the pinned copy gets its row, unless it has it already. */
    method RegisterFile(c: Copy, f: Item) returns (r: Result<()>)
      requires Valid() && PinnedIn(events) == Some(c) && TerminalIn(events).None? && f in files
      modifies `rows
      ensures Valid() && Total() == old(Total()) && old(rows) <= rows
      ensures Clean(outputs, old(rows)) ==> Clean(outputs, rows)
      ensures r.Ok? ==> HasPath(rows, InCopy(c, f.name))
      ensures !faulty ==> r.Ok?
    {
      var stop := Stop();
      if stop { return Stopped; }
      if !HasPath(rows, InCopy(c, f.name)) {
        RowAdded(files, outputs, rows, c, f, owner, nextCopy);
        if Clean(outputs, rows) { CleanAppend(outputs, rows, CopyRow(c, f, owner)); }
        if batch == Committed { PublishedAppend(outputs, rows, CopyRow(c, f, owner)); }
        rows := rows + [CopyRow(c, f, owner)];
      }
      ExactRow(files, rows, c, f, owner, nextCopy);
      return if Exact(rows, CopyRow(c, f, owner)) then Ok(()) else Stopped;
    }

    /** _artifacts with register on: every file of the pinned copy gets its row, once. */
    method RegisterFiles(c: Copy) returns (r: Result<()>)
      requires Valid() && PinnedIn(events) == Some(c) && TerminalIn(events).None?
      modifies `rows
      ensures Kept() && events == old(events) && batch == old(batch)
      ensures r.Ok? ==> Registered(files, rows, c) && forall f | f in files :: FileRow(rows, c, f, owner)
      ensures !faulty ==> r.Ok?
    {
      var i := 0;
      while i < |files|
        invariant 0 <= i <= |files| && Valid() && Total() == old(Total()) && old(rows) <= rows
        invariant Clean(outputs, old(rows)) ==> Clean(outputs, rows)
        invariant Registered(files[..i], rows, c)
      {
        ghost var before := rows;
        var registered :- RegisterFile(c, files[i]);
        PathsStay(before, rows);
        assert files[..i + 1] == files[..i] + [files[i]];
        i := i + 1;
      }
      assert files[..i] == files;
      forall f | f in files ensures FileRow(rows, c, f, owner) { ExactRow(files, rows, c, f, owner, nextCopy); }
      var stop := Stop();
      if stop { return Stopped; }
      return Ok(());
    }

    /**
      publish_outputs: true when the batch is committed or there is nothing to publish, false when it was rolled back.
      Without faults a first publication commits, and one that an earlier call left unfinished is rolled back.
    */
    method PublishOutputs() returns (r: Result<bool>)
      requires Valid() && PinnedIn(events).Some? && TerminalIn(events).None? && Clean(outputs, rows)
      requires Registered(files, rows, PinnedIn(events).value)
      modifies `rows, `batch
      ensures Kept() && events == old(events) && Registered(files, rows, PinnedIn(events).value)
      ensures r.Ok? ==> if r.value then outputs == [] || batch == Committed else outputs != [] && batch == RolledBack
      ensures if old(batch) == Torn then r.Stopped? else !faulty ==> r.Ok?
      ensures r.Ok? && (old(batch) == Pending || old(batch) == RolledBack) ==> !r.value
      ensures !faulty && (old(batch) == Absent || old(batch) == Committed) ==> r == Ok(true) && AllPublished(outputs, rows)
    {
      var stop := Stop();
      if stop { return Stopped; }
      if outputs == [] { return Ok(true); }
      if batch == Torn { return Stopped; }         // there is no journal to reconcile
      if batch == Committed { return Ok(true); }
      if batch == RolledBack { return Ok(false); }
      if batch == Pending {
        batch := RolledBack;                       // an unfinished batch is undone, never redone
        return Ok(false);
      }
      if Sum(rows) + OutputCost(outputs, rows) > limit { return Stopped; }
      batch := Torn;
      stop := Stop();
      if stop { return Stopped; }                  // cut off between the journal's directory and the journal
      batch := Pending;
      r := CommitOutputs();
    }

    /** The part of publish_outputs that follows the journal. */
    method CommitOutputs() returns (r: Result<bool>)
      requires Valid() && PinnedIn(events).Some? && TerminalIn(events).None? && Clean(outputs, rows)
      requires Registered(files, rows, PinnedIn(events).value) && outputs != [] && batch == Pending
      modifies `rows, `batch
      ensures Kept() && Registered(files, rows, PinnedIn(events).value)
      ensures r.Ok? ==> if r.value then batch == Committed else batch == RolledBack
      ensures !faulty ==> r == Ok(true)
    {
      var stop := Stop();
      if stop { return Stopped; }                  // cut off between the journal and the commit
      var failed := Stop();
      if failed {
        stop := Stop();
        if stop { return Stopped; }                // the rollback itself is uncertain
        batch := RolledBack;
        stop := Stop();
        if stop { return Stopped; }                // cancelled: rolled back, no terminal record yet
        return Ok(false);
      }
      BatchCommitted(files, outputs, rows, owner, PinnedIn(events), nextCopy);
      rows := CommitRows(outputs, rows, owner);
      batch := Committed;
      stop := Stop();
      if stop { return Stopped; }
      return Ok(true);
    }

    /** _inspect_terminal: the record must be the one that the pinned copy and the batch call for. */
    method InspectTerminal(c: Copy) returns (r: Result<Option<Payload>>)
      requires Valid() && PinnedIn(events) == Some(c)
      ensures r.Ok? ==> r.value == TerminalIn(events)
      ensures !faulty ==> r.Ok?
    {
      var terminal := TerminalIn(events);
      if terminal.None? { return Ok(None); }
      var stop := Stop();
      if stop || (outputs != [] && batch != Committed && batch != RolledBack) { return Stopped; }
      if terminal != TerminalFor(c, outputs, batch) { return Stopped; }
      var i := 0;
      while i < |files|
        invariant 0 <= i <= |files|
      {
        ExactRow(files, rows, c, files[i], owner, nextCopy);
        if !Exact(rows, CopyRow(c, files[i], owner)) { return Stopped; }
        i := i + 1;
      }
      return Ok(terminal);
    }

    /** publish_bundle_delivery: a copy that no row mentions. */
    method PublishCopy() returns (r: Result<Copy>)
      requires Valid() && PinnedIn(events).None?
      modifies `copies, `nextCopy
      ensures Valid() && Total() == old(Total()) && old(copies) <= copies
      ensures r.Ok? ==>
        && r.value in copies && RowsOk(rows, files, owner, Some(r.value), nextCopy)
        && Demand(files, outputs, rows, Some(r.value)) == Total()
      ensures !faulty ==> r.Ok?
    {
      var c := nextCopy;
      CopyPinned(files, outputs, rows, owner, c);
      nextCopy := nextCopy + 1;
      var stop := Stop();
      if stop { return Stopped; }
      copies := copies + {c};
      return Ok(c);
    }

    /** A fresh copy and its PREPARED record. */
    method PinCopy() returns (r: Result<Copy>)
      requires Valid() && PinnedIn(events).None? && Total() <= limit
      modifies `copies, `nextCopy, `events
      ensures Kept() && rows == old(rows) && batch == old(batch) && TerminalIn(events).None?
      ensures r.Ok? ==> PinnedIn(events) == Some(r.value)
      ensures !faulty ==> r.Ok?
    {
      var c :- PublishCopy();
      PinnedAppend(events, outputs, batch, c);
      var appended :- Append(PREPARED_ID, Prepared, Pinned(c));
      return Ok(c);
    }

    /** The TERMINAL record, once the batch is decided. */
    method RecordTerminal(c: Copy, committed: bool) returns (r: Result<Payload>)
      requires Valid() && PinnedIn(events) == Some(c) && TerminalIn(events).None? && Registered(files, rows, c)
      requires if committed then outputs == [] || batch == Committed else outputs != [] && batch == RolledBack
      modifies `events
      ensures Kept() && rows == old(rows)
      ensures r.Ok? ==> TerminalIn(events) == Some(r.value)
      ensures !faulty ==> r.Ok?
    {
      var payload := if committed then Delivered(false, c, outputs) else Delivered(true, c, []);
      var stop := Stop();
      if stop { return Stopped; }
      var e := Event(TERMINAL_ID, Terminal, payload);
      MatchingAppend(events, e, PREPARED_ID, Prepared);
      MatchingAppend(events, e, TERMINAL_ID, Terminal);
      var appended :- Append(TERMINAL_ID, Terminal, payload);
      var terminal :- InspectTerminal(c);
      return Ok(terminal.value);
    }

    /** The part of a call that follows the pinned copy. */
    method Complete(c: Copy) returns (r: Result<Payload>)
      requires Valid() && PinnedIn(events) == Some(c) && TerminalIn(events).None? && Clean(outputs, rows)
      modifies `rows, `batch, `events
      ensures Kept()
      ensures r.Ok? ==> TerminalIn(events) == Some(r.value) && Sum(rows) <= limit
      ensures if old(batch) == Torn then r.Stopped? else !faulty ==> r.Ok?
      ensures r.Ok? && (old(batch) == Pending || old(batch) == RolledBack) ==> outputs != [] && batch == RolledBack
      ensures !faulty && (old(batch) == Absent || old(batch) == Committed) ==> outputs == [] || batch == Committed
    {
      var stop := Stop();
      if stop { return Stopped; }
      var registered :- RegisterFiles(c);
      if Demand(files, outputs, rows, PinnedIn(events)) > limit { return Stopped; }
      var committed :- PublishOutputs();
      r := RecordTerminal(c, committed);
    }

    /** The files of the pinned copy are registered, and the outputs published, as a delivery says that did not fail. */
    ghost predicate DeliveredWhole(c: Copy)
      reads this
    {
      (forall f | f in files :: HasPath(rows, InCopy(c, f.name))) && AllPublished(outputs, rows)
    }

    /**
      finish_bundle_parent_delivery: one call, which may stop at any step. A payload that it returns names the pinned
      copy; it says that the outputs were delivered when they were, and that the delivery failed when they were not.
    */
    method Finish() returns (r: Result<Payload>)
      requires Valid()
      modifies this
      ensures Kept()
      ensures r.Ok? ==> TerminalIn(events) == Some(r.value) && Sum(rows) <= limit
      ensures old(batch) == Torn || !Clean(outputs, old(rows)) ==> r.Stopped?
      ensures !faulty && old(Total()) <= limit ==> (r.Ok? <==> old(batch) != Torn && Clean(outputs, old(rows)))
      ensures r.Ok? ==> r.value.Delivered? && PinnedIn(events) == Some(r.value.copy)
      ensures r.Ok? && !r.value.failed ==> r.value.outputs == outputs && DeliveredWhole(r.value.copy)
      ensures r.Ok? && !r.value.failed ==> Sum(rows) == old(Total())
      ensures r.Ok? && r.value.failed ==> Sum(rows) + OutputCost(outputs, rows) == old(Total())
      ensures r.Ok? && r.value.failed ==> r.value.outputs == [] && outputs != [] && batch == RolledBack
      ensures r.Ok? && (old(batch) == Pending || old(batch) == RolledBack) ==> r.value.failed
      ensures r.Ok? && !faulty && (old(batch) == Absent || old(batch) == Committed) ==> !r.value.failed
    {
      var stop := Stop();
      if stop || !Clean(outputs, rows) || Demand(files, outputs, rows, PinnedIn(events)) > limit { return Stopped; }
      var pinned := PinnedIn(events);
      if pinned.None? {
        if TerminalIn(events).Some? { return Stopped; }
        var c :- PinCopy();
        r := Complete(c);
        if r.Ok? { Settled(files, outputs, rows, r.value.copy); }
        return;
      }
      if pinned.value !in copies { return Stopped; }
      var terminal :- InspectTerminal(pinned.value);
      if terminal.Some? {
        Settled(files, outputs, rows, pinned.value);
        return Ok(terminal.value);
      }
      r := Complete(pinned.value);
      if r.Ok? { Settled(files, outputs, rows, r.value.copy); }
    }

    /** Any number of calls, each cut off wherever it may be. */
    method Calls(n: nat) returns (results: seq<Result<Payload>>)
      requires Valid()
      modifies this
      ensures Kept() && |results| == n
      ensures forall i, j {:trigger results[i], results[j]} | 0 <= i < j < n && results[i].Ok? && results[j].Ok? :: results[i] == results[j]
      ensures (exists i :: 0 <= i < n && results[i].Ok?) ==> TerminalIn(events).Some? && Sum(rows) <= limit
      ensures old(batch) == Torn ==> batch == Torn && forall i | 0 <= i < n :: results[i].Stopped?
    {
      results := [];
      while |results| < n
        invariant |results| <= n && Kept()
        invariant old(batch) == Torn ==> forall i | 0 <= i < |results| :: results[i].Stopped?
        invariant forall i | 0 <= i < |results| && results[i].Ok? :: TerminalIn(events) == Some(results[i].value) && Sum(rows) <= limit
      {
        var r := Finish();
        results := results + [r];
      }
    }
  }

  lemma PinnedAppend(events: seq<Event>, outputs: seq<Item>, batch: Batch, c: Copy)
    requires EventsOk(events, outputs, batch) && PinnedIn(events).None?
    ensures var after := events + [Event(PREPARED_ID, Prepared, Pinned(c))];
            EventsOk(after, outputs, batch) && PinnedIn(after) == Some(c) && TerminalIn(after).None?
  {
    var e := Event(PREPARED_ID, Prepared, Pinned(c));
    MatchingAppend(events, e, PREPARED_ID, Prepared);
    MatchingAppend(events, e, TERMINAL_ID, Terminal);
  }

  /** The terminal record names the pinned copy and agrees with the batch. */
  predicate EventsOk(events: seq<Event>, outputs: seq<Item>, batch: Batch) {
    && Single(events, PREPARED_ID, Prepared) && Single(events, TERMINAL_ID, Terminal)
    && (PayloadOf(events, PREPARED_ID, Prepared).Some? ==> PayloadOf(events, PREPARED_ID, Prepared).value.Pinned?)
    && (TerminalIn(events).Some? ==>
          PinnedIn(events).Some? && TerminalIn(events) == TerminalFor(PinnedIn(events).value, outputs, batch))
  }

  /** The terminal record that a finished batch calls for. */
  function TerminalFor(c: Copy, outputs: seq<Item>, batch: Batch): Option<Payload> {
    if outputs == [] then Some(Delivered(false, c, []))
    else if batch == Committed then Some(Delivered(false, c, outputs))
    else if batch == RolledBack then Some(Delivered(true, c, []))
    else None
  }

  predicate Registered(files: seq<Item>, rows: seq<Row>, c: Copy) {
    forall f | f in files :: HasPath(rows, InCopy(c, f.name))
  }

  predicate RowOk(rows: seq<Row>, files: seq<Item>, owner: nat, pinned: Option<Copy>, nextCopy: nat, i: int)
    requires 0 <= i < |rows|
  {
    rows[i].path.InCopy? ==>
      && rows[i].path.copy < nextCopy
      && (pinned == Some(rows[i].path.copy) ==>
            && (exists f :: f in files && rows[i] == CopyRow(rows[i].path.copy, f, owner))
            && forall j | 0 <= j < |rows| && rows[j].path == rows[i].path :: j == i)
  }

  predicate RowsOk(rows: seq<Row>, files: seq<Item>, owner: nat, pinned: Option<Copy>, nextCopy: nat) {
    forall i {:trigger RowOk(rows, files, owner, pinned, nextCopy, i)} | 0 <= i < |rows| :: RowOk(rows, files, owner, pinned, nextCopy, i)
  }

  /** Registering a file of the pinned copy keeps the ledger in order and the demand where it is. */
  lemma RowAdded(files: seq<Item>, outputs: seq<Item>, rows: seq<Row>, c: Copy, f: Item, owner: nat, nextCopy: nat)
    requires DistinctNames(files) && f in files && !HasPath(rows, InCopy(c, f.name)) && c < nextCopy
    requires RowsOk(rows, files, owner, Some(c), nextCopy)
    ensures var after := rows + [CopyRow(c, f, owner)];
            && RowsOk(after, files, owner, Some(c), nextCopy)
            && Demand(files, outputs, after, Some(c)) == Demand(files, outputs, rows, Some(c))
            && (forall p :: HasPath(after, p) <==> HasPath(rows, p) || p == InCopy(c, f.name))
            && (forall n :: HasOutput(after, n) <==> HasOutput(rows, n))
  {
    var r := CopyRow(c, f, owner);
    var after := rows + [r];
    SumAppend(rows, r);
    HasAppend(rows, r);
    CopyCostAppend(files, rows, c, f, r);
    OutputCostAppend(outputs, rows, r);
    forall i | 0 <= i < |after| ensures RowOk(after, files, owner, Some(c), nextCopy, i) {
      if i < |rows| {
        assert RowOk(rows, files, owner, Some(c), nextCopy, i);
        assert rows[i].path != r.path;
      }
    }
  }

  /** Exactly one row has this path, and it is this row. */
  predicate Exact(rows: seq<Row>, r: Row) {
    r in rows && forall i, j | 0 <= i < |rows| && 0 <= j < |rows| && rows[i].path == r.path && rows[j].path == r.path :: i == j
  }

  /** The kind of a delivered file follows from its name. */
  predicate KindRight(kind: Kind, name: Name) {
    && (kind.Manifest? <==> name == "delivery.json") && (kind.Report? <==> name == "evaluation/report.json")
    && (kind.Source? <==> "source/" <= name) && !kind.Output?
  }

  lemma KindNames(name: Name)
    ensures KindRight(KindOf(name), name)
  {
    var source := "source/";
    assert source[0] == 's' && "delivery.json"[0] == 'd' && "evaluation/report.json"[0] == 'e';
    if source <= name { assert name[..7] == source && name[0] == source[0]; }
  }

  /** Exactly one row tells of this file of the copy, with its size, digest, owner and kind. */
  predicate FileRow(rows: seq<Row>, c: Copy, f: Item, owner: nat) {
    && (exists i :: 0 <= i < |rows| && rows[i].path == InCopy(c, f.name) && rows[i].size == f.size && rows[i].sha == f.sha
                    && rows[i].owner == owner && KindRight(rows[i].kind, f.name))
    && (forall i, j | 0 <= i < |rows| && 0 <= j < |rows| && rows[i].path == InCopy(c, f.name) && rows[j].path == InCopy(c, f.name) :: i == j)
  }

  /** A registered file always passes the artifact check. */
  lemma ExactRow(files: seq<Item>, rows: seq<Row>, c: Copy, f: Item, owner: nat, nextCopy: nat)
    requires DistinctNames(files) && f in files && RowsOk(rows, files, owner, Some(c), nextCopy)
    requires HasPath(rows, InCopy(c, f.name))
    ensures Exact(rows, CopyRow(c, f, owner)) && FileRow(rows, c, f, owner)
  {
    var i :| 0 <= i < |rows| && rows[i].path == InCopy(c, f.name);
    assert RowOk(rows, files, owner, Some(c), nextCopy, i);
    var g :| g in files && rows[i] == CopyRow(c, g, owner);
    assert g == f;
    KindNames(f.name);
    assert KindRight(rows[i].kind, f.name);
  }

  lemma BatchCommitted(files: seq<Item>, outputs: seq<Item>, rows: seq<Row>, owner: nat, pinned: Option<Copy>, nextCopy: nat)
    requires DistinctNames(outputs) && RowsOk(rows, files, owner, pinned, nextCopy) && pinned.Some? && Clean(outputs, rows)
    requires Registered(files, rows, pinned.value)
    ensures var after := CommitRows(outputs, rows, owner);
            && RowsOk(after, files, owner, pinned, nextCopy) && Registered(files, after, pinned.value)
            && Demand(files, outputs, after, pinned) == Demand(files, outputs, rows, pinned)
            && AllPublished(outputs, after) && Clean(outputs, after)
  {
    var after := CommitRows(outputs, rows, owner);
    CommitPublishes(outputs, rows, owner);
    CommitKeepsTotal(outputs, rows, owner);
    CommitAdds(outputs, rows, owner, files, pinned);
    forall i | 0 <= i < |after| ensures RowOk(after, files, owner, pinned, nextCopy, i) {
      if i < |rows| { assert after[i] == rows[i] && RowOk(rows, files, owner, pinned, nextCopy, i); }
    }
    forall f | f in files ensures HasPath(after, InCopy(pinned.value, f.name)) {
      var i :| 0 <= i < |rows| && rows[i].path == InCopy(pinned.value, f.name);
      assert after[i] == rows[i];
    }
  }

  /** Pinning a copy that no row mentions changes neither the ledger nor the demand. */
  lemma CopyPinned(files: seq<Item>, outputs: seq<Item>, rows: seq<Row>, owner: nat, c: Copy)
    requires RowsOk(rows, files, owner, None, c)
    ensures RowsOk(rows, files, owner, None, c + 1) && RowsOk(rows, files, owner, Some(c), c + 1)
    ensures Demand(files, outputs, rows, Some(c)) == Demand(files, outputs, rows, None)
  {
    var d := c + 1;
    forall i | 0 <= i < |rows| ensures RowOk(rows, files, owner, None, d, i) && RowOk(rows, files, owner, Some(c), d, i) {
      assert RowOk(rows, files, owner, None, c, i);
    }
    forall i, n | 0 <= i < |rows| ensures rows[i].path != InCopy(c, n) {
      assert RowOk(rows, files, owner, None, c, i);
    }
    FreshCopyCost(files, rows, c);
  }
}
