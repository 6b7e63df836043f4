/**
  The evaluation record of a candidate: what the evaluator writes and what an inspection accepts.

  Encoding, parsing, digests, output formats and the source evidence are parameters. Tables keyed
  by path are maps.
*/
module EvaluationRecord {
  import opened PathText
  import opened RetainedTrees

  datatype Option<+T> = None | Some(value: T)

  newtype Byte = x: int | 0 <= x < 256
  type Content = seq<Byte>

  datatype FileName = Request | Evaluator | Report | Checks | Input(target: string) | Output(path: string)

  datatype OutputSpec = OutputSpec(format: nat, required: bool)
  datatype Contract = Contract(outputs: map<string, OutputSpec>, sourceChecked: bool)
  datatype Spec = Spec(id: string, harnessSize: nat, harnessSha: string, maxFile: nat)
  datatype Stamp = Stamp(size: nat, sha: string)

  type Binding = nat
  type ReportDoc = nat
  datatype Evidence = Evidence(valid: bool, body: nat)

  /** The request: the declared inputs, and for each output of the contract what was observed. */
  datatype RequestDoc = RequestDoc(
    binding: Binding, contract: Contract, spec: Spec, inputs: map<string, Stamp>, outputs: map<string, Option<Stamp>>)

  datatype Descriptor = Descriptor(size: nat, sha: string, node: nat)

  datatype Manifest = Manifest(
    root: nat, binding: Binding, files: map<FileName, Descriptor>, report: ReportDoc,
    outputValid: bool, invoked: bool, sourceValid: Option<bool>)   // sourceValid only with source checks

  /** A retained file: its bytes and its identity. */
  datatype File = File(content: Content, node: nat)

  /** An evaluation directory. */
  datatype Tree = Tree(root: nat, disk: Disk<File>)

  const RECORD_PATH: Path := ["evaluation.json"]

  function PathOf(n: FileName): Path {
    match n
    case Request => ["request.json"]
    case Evaluator => ["evaluator.py"]
    case Report => ["report.json"]
    case Checks => ["source-checks.json"]
    case Input(target) => ["inputs"] + Split(target)
    case Output(path) => Split(path)
  }

  predicate HoldsFile(tree: Tree, p: Path) { p in tree.disk && tree.disk[p].Regular? }

  predicate Has(tree: Tree, n: FileName) { HoldsFile(tree, PathOf(n)) }

  function At(tree: Tree, n: FileName): File requires Has(tree, n) { tree.disk[PathOf(n)].file }

  datatype Env = Env(
    sha: Content -> string,
    encodeRequest: RequestDoc -> Content, decodeRequest: Content -> Option<RequestDoc>,
    encodeManifest: Manifest -> Content, decodeManifest: Content -> Option<Manifest>,
    encodeReport: ReportDoc -> Content, parseReport: (Content, string) -> Option<ReportDoc>,
    encodeEvidence: Evidence -> Content, parseEvidence: (Content, Contract, Binding) -> Option<Evidence>,
    evidenceFor: (Contract, Binding) -> Evidence,
    formatOk: (OutputSpec, Content) -> bool,
    harnessText: Content -> bool,                    // UTF-8 without NUL
    requestOk: RequestDoc -> bool,                   // the digests and totals inside a request agree
    invalidReport: string -> ReportDoc,
    failureReport: (string, Evidence) -> ReportDoc)

  const MAX_DOCUMENT_BYTES := 128 * 1024
  const MAX_REPORT_BYTES := 32 * 1024
  const MAX_CHECK_BYTES := 256 * 1024
  const MAX_FILE_BYTES := 16 * 1024 * 1024
  const MAX_RECORD_FILES := 100

  /** The parsers undo the encoders on what the writer produces. */
  ghost predicate Faithful(env: Env) {
    && (forall q {:trigger env.encodeRequest(q)} :: env.decodeRequest(env.encodeRequest(q)) == Some(q))
    && (forall m {:trigger env.encodeManifest(m)} :: env.decodeManifest(env.encodeManifest(m)) == Some(m))
    && (forall id: string {:trigger env.invalidReport(id)} :: env.parseReport(env.encodeReport(env.invalidReport(id)), id) == Some(env.invalidReport(id)))
    && (forall id: string, e: Evidence {:trigger env.failureReport(id, e)} ::
          env.parseReport(env.encodeReport(env.failureReport(id, e)), id) == Some(env.failureReport(id, e)))
    && (forall c: Contract, b: Binding {:trigger env.evidenceFor(c, b)} ::
          env.parseEvidence(env.encodeEvidence(env.evidenceFor(c, b)), c, b) == Some(env.evidenceFor(c, b)))
  }

  ghost predicate ForcedFor(env: Env, id: string, r: ReportDoc) {
    r == env.invalidReport(id) || exists e :: r == env.failureReport(id, e)
  }

  /** No two documents that the writer produces for one reader look the same. */
  ghost predicate Readable(env: Env) {
    && (forall p, q {:trigger env.encodeRequest(p), env.encodeRequest(q)} :: env.encodeRequest(p) == env.encodeRequest(q) ==> p == q)
    && (forall m, n {:trigger env.encodeManifest(m), env.encodeManifest(n)} :: env.encodeManifest(m) == env.encodeManifest(n) ==> m == n)
    && (forall id: string, r: ReportDoc, s: ReportDoc {:trigger ForcedFor(env, id, r), ForcedFor(env, id, s)} | ForcedFor(env, id, r) && ForcedFor(env, id, s) ::
          env.encodeReport(r) == env.encodeReport(s) ==> r == s)
  }

  ghost predicate RequestWrites(env: Env, q: RequestDoc, raw: Content) { env.encodeRequest(q) == raw }

  ghost predicate ManifestWrites(env: Env, m: Manifest, raw: Content) { env.encodeManifest(m) == raw }

  ghost predicate ReportWrites(env: Env, id: string, r: ReportDoc, raw: Content) { ForcedFor(env, id, r) && env.encodeReport(r) == raw }

  ghost function RequestBack(env: Env, raw: Content): Option<RequestDoc> {
    if exists q :: RequestWrites(env, q, raw) then (var q :| RequestWrites(env, q, raw); Some(q)) else None
  }

  ghost function ManifestBack(env: Env, raw: Content): Option<Manifest> {
    if exists m :: ManifestWrites(env, m, raw) then (var m :| ManifestWrites(env, m, raw); Some(m)) else None
  }

  ghost function ReportBack(env: Env, raw: Content, id: string): Option<ReportDoc> {
    if exists r: ReportDoc :: ReportWrites(env, id, r, raw) then (var r: ReportDoc :| ReportWrites(env, id, r, raw); Some(r)) else None
  }

  /** The same environment with parsers that look for what was written. */
  ghost function WithParsers(env: Env): Env {
    env.(decodeRequest := raw => RequestBack(env, raw),
         decodeManifest := raw => ManifestBack(env, raw),
         parseReport := (raw, id) => ReportBack(env, raw, id),
         parseEvidence := (raw: Content, c: Contract, b: Binding) =>
           if raw == env.encodeEvidence(env.evidenceFor(c, b)) then Some(env.evidenceFor(c, b)) else None)
  }

  lemma ReportReadBack(env: Env, id: string, r: ReportDoc)
    requires Readable(env) && ForcedFor(env, id, r)
    ensures ReportBack(env, env.encodeReport(r), id) == Some(r)
  {
    assert ReportWrites(env, id, r, env.encodeReport(r));
    var s := ReportBack(env, env.encodeReport(r), id).value;
    assert ReportWrites(env, id, s, env.encodeReport(r));
  }

  /** Parsers that undo the encoders exist exactly for encoders that keep documents apart. */
  lemma FaithfulParsers(env: Env)
    ensures Readable(env) ==> Faithful(WithParsers(env))
    ensures Faithful(env) ==> Readable(env)
  {
    if Readable(env) {
      forall q ensures RequestBack(env, env.encodeRequest(q)) == Some(q) { assert RequestWrites(env, q, env.encodeRequest(q)); }
      forall m ensures ManifestBack(env, env.encodeManifest(m)) == Some(m) { assert ManifestWrites(env, m, env.encodeManifest(m)); }
      forall id: string, r: ReportDoc | ForcedFor(env, id, r) ensures ReportBack(env, env.encodeReport(r), id) == Some(r) { ReportReadBack(env, id, r); }
    }
    if Faithful(env) {
      forall p, q | env.encodeRequest(p) == env.encodeRequest(q) ensures p == q {
        assert Some(p) == env.decodeRequest(env.encodeRequest(q)) == Some(q);
      }
      forall m, n | env.encodeManifest(m) == env.encodeManifest(n) ensures m == n {
        assert Some(m) == env.decodeManifest(env.encodeManifest(n)) == Some(n);
      }
      forall id: string, r: ReportDoc, s: ReportDoc | ForcedFor(env, id, r) && ForcedFor(env, id, s) && env.encodeReport(r) == env.encodeReport(s) ensures r == s {
        assert env.parseReport(env.encodeReport(r), id) == Some(r) && env.parseReport(env.encodeReport(s), id) == Some(s);
      }
    }
  }

  // ------------------------------------------------------------ requests

  predicate InputStamp(q: RequestDoc, t: string) { t in q.inputs ==> q.inputs[t].size <= MAX_FILE_BYTES }

  predicate OutputStamp(q: RequestDoc, p: string) {
    p in q.outputs && q.outputs[p].Some? ==> q.outputs[p].value.size <= q.spec.maxFile
  }

  /** An output of a contract lies below output/. */
  predicate OutputPath(p: string) { |Split(p)| > 1 && Split(p)[0] == "output" }

  predicate Below(a: string, b: string) { Within(Split(a), Split(b)) }

  /** No input and no output lies below another. */
  predicate TargetsApart(q: RequestDoc) {
    && (forall a, b {:trigger Below(a, b)} | a in q.inputs && b in q.inputs :: !Below(a, b))
    && (forall a, b {:trigger Below(a, b)} | a in q.outputs && b in q.outputs :: !Below(a, b))
  }

  /** _request_values. */
  predicate RequestValid(env: Env, q: RequestDoc) {
    && env.requestOk(q) && |q.inputs| <= 64 && |q.outputs| <= 32 && q.spec.maxFile <= MAX_FILE_BYTES
    && q.outputs.Keys == q.contract.outputs.Keys && (forall p | p in q.outputs :: OutputPath(p)) && TargetsApart(q)
    && (forall t {:trigger InputStamp(q, t)} | t in q.inputs :: InputStamp(q, t))
    && (forall p {:trigger OutputStamp(q, p)} | p in q.outputs :: OutputStamp(q, p))
  }

  lemma {:induction false} SplitSlash(head: string, rest: string)
    ensures Split(head + "/" + rest) == Split(head) + Split(rest)
    decreases |rest|
  {
    var whole := head + "/" + rest;
    if rest == "" {
      assert whole == head + "/" + "";
      SplitAfterSlash(head, "");
    } else {
      SplitSlash(head, rest[..|rest| - 1]);
      assert whole[..|whole| - 1] == head + "/" + rest[..|rest| - 1];
    }
  }

  lemma {:induction false} JoinBegins(parts: seq<string>, k: nat)
    requires 0 < k < |parts|
    ensures Join(parts[..k]) + "/" <= Join(parts)
  {
    var init := parts[..|parts| - 1];
    if k < |init| {
      JoinBegins(init, k);
      assert init[..k] == parts[..k];
    }
  }

  /** A name lies below another exactly if it continues it after a slash. */
  lemma BelowMeans(a: string, b: string)
    ensures Below(a, b) <==> a + "/" <= b
  {
    if Below(a, b) {
      JoinSplit(a);
      JoinSplit(b);
      JoinBegins(Split(b), |Split(a)|);
    }
    if a + "/" <= b {
      assert b == a + "/" + b[|a| + 1..];
      SplitSlash(a, b[|a| + 1..]);
    }
  }

  lemma OutputPathMeans(p: string)
    ensures OutputPath(p) <==> "output/" <= p
  {
    SplitPlain("output");
    BelowMeans("output", p);
    assert "output" + "/" == "output/";
    assert |Split(p)| > 1 ==> Split(p)[..1] == [Split(p)[0]];
  }

  lemma OutputsMean(q: RequestDoc)
    ensures (forall p | p in q.outputs :: OutputPath(p)) <==> (forall p | p in q.outputs :: "output/" <= p)
    ensures (forall p | p in q.outputs :: OutputStamp(q, p)) <==> (forall p | p in q.outputs && q.outputs[p].Some? :: q.outputs[p].value.size <= q.spec.maxFile)
  {
    forall p ensures OutputPath(p) <==> "output/" <= p { OutputPathMeans(p); }
    if forall p | p in q.outputs :: "output/" <= p {
      forall p | p in q.outputs ensures OutputPath(p) { assert "output/" <= p; }
    }
    if forall p | p in q.outputs :: OutputStamp(q, p) {
      forall p | p in q.outputs && q.outputs[p].Some? ensures q.outputs[p].value.size <= q.spec.maxFile { assert OutputStamp(q, p); }
    }
  }

  lemma InputsMean(q: RequestDoc)
    ensures (forall t | t in q.inputs :: InputStamp(q, t)) <==> (forall t | t in q.inputs :: q.inputs[t].size <= 16 * 1024 * 1024)
  {
    if forall t | t in q.inputs :: InputStamp(q, t) {
      forall t | t in q.inputs ensures q.inputs[t].size <= 16 * 1024 * 1024 { assert InputStamp(q, t); }
    }
  }

  ghost predicate NoneBelow(names: set<string>) {
    forall a, b | a in names && b in names :: !(a + "/" <= b)
  }

  lemma NamesMean(names: set<string>)
    ensures (forall a, b | a in names && b in names :: !Below(a, b)) <==> NoneBelow(names)
  {
    forall a, b ensures Below(a, b) <==> a + "/" <= b { BelowMeans(a, b); }
    if forall a, b | a in names && b in names :: !Below(a, b) {
      forall a, b | a in names && b in names ensures !(a + "/" <= b) { assert !Below(a, b); }
    }
  }

  /** Which requests are valid: bounded tables, outputs below output/, every size in its bound, and no name below another. */
  lemma RequestMeans(env: Env, q: RequestDoc)
    ensures RequestValid(env, q) <==>
      && env.requestOk(q) && |q.inputs| <= 64 && |q.outputs| <= 32 && q.spec.maxFile <= 16 * 1024 * 1024
      && q.outputs.Keys == q.contract.outputs.Keys && (forall p | p in q.outputs :: "output/" <= p)
      && (forall t | t in q.inputs :: q.inputs[t].size <= 16 * 1024 * 1024)
      && (forall p | p in q.outputs && q.outputs[p].Some? :: q.outputs[p].value.size <= q.spec.maxFile)
      && NoneBelow(q.inputs.Keys) && NoneBelow(q.outputs.Keys)
  {
    OutputsMean(q);
    InputsMean(q);
    NamesMean(q.inputs.Keys);
    NamesMean(q.outputs.Keys);
  }

  predicate Declares(q: RequestDoc, n: FileName) {
    match n
    case Request => true
    case Evaluator => true
    case Report => true
    case Checks => q.contract.sourceChecked
    case Input(t) => t in q.inputs
    case Output(p) => p in q.outputs && q.outputs[p].Some?
  }

  /** The files that a record of this request must have. */
  function DeclaredNames(q: RequestDoc): (s: set<FileName>)
    ensures forall n {:trigger n in s} {:trigger Declares(q, n)} :: n in s <==> Declares(q, n)
  {
    {Request, Evaluator, Report} + (if q.contract.sourceChecked then {Checks} else {})
    + (set t | t in q.inputs :: Input(t)) + (set p | p in q.outputs && q.outputs[p].Some? :: Output(p))
  }

  lemma {:induction false} ImageFits(s: set<FileName>, keys: set<string>, inputs: bool)
    requires forall n | n in s :: if inputs then n.Input? && n.target in keys else n.Output? && n.path in keys
    ensures |s| <= |keys|
    decreases |s|
  {
    if s != {} {
      var n :| n in s;
      var k := if inputs then n.target else n.path;
      ImageFits(s - {n}, keys - {k}, inputs);
    }
  }

  lemma InputNamesFit(q: RequestDoc)
    ensures |set t | t in q.inputs :: Input(t)| <= |q.inputs|
  {
    ImageFits(set t | t in q.inputs :: Input(t), q.inputs.Keys, true);
  }

  lemma OutputNamesFit(q: RequestDoc)
    ensures |set p | p in q.outputs && q.outputs[p].Some? :: Output(p)| <= |q.outputs|
  {
    ImageFits(set p | p in q.outputs && q.outputs[p].Some? :: Output(p), q.outputs.Keys, false);
  }

  lemma ThreeNamesFit(a: set<FileName>, b: set<FileName>, c: set<FileName>)
    ensures |a + b + c| <= |a| + |b| + |c|
  {
    assert |a + b| <= |a| + |b|;
  }

  /** Never more than the cap of the inspection: 64 inputs, 32 outputs and 4 fixed files. */
  lemma DeclaredFit(env: Env, q: RequestDoc)
    requires RequestValid(env, q)
    ensures |DeclaredNames(q)| <= MAX_RECORD_FILES
  {
    var fixed := {Request, Evaluator, Report} + if q.contract.sourceChecked then {Checks} else {};
    assert |fixed| <= 4;
    InputNamesFit(q);
    OutputNamesFit(q);
    ThreeNamesFit(fixed, set t | t in q.inputs :: Input(t), set p | p in q.outputs && q.outputs[p].Some? :: Output(p));
  }

  /** Where they lie, with the record itself. */
  function ExpectedPaths(q: RequestDoc): set<Path> {
    {RECORD_PATH} + set n | n in DeclaredNames(q) :: PathOf(n)
  }

  // ------------------------------------------------------------ what an inspection accepts

  function Describe(env: Env, f: File): Descriptor { Descriptor(|f.content|, env.sha(f.content), f.node) }

  function Limit(q: RequestDoc, n: FileName): nat {
    match n
    case Evaluator => q.spec.harnessSize
    case Report => MAX_REPORT_BYTES
    case Checks => MAX_CHECK_BYTES
    case Request => MAX_DOCUMENT_BYTES
    case Input(_) => MAX_FILE_BYTES
    case Output(_) => MAX_FILE_BYTES
  }

  predicate Stamped(env: Env, c: Content, s: Stamp) { |c| == s.size && env.sha(c) == s.sha }

  /** One declared file: within its limit, described by the manifest, and what the request says of it. */
  predicate FileOk(env: Env, q: RequestDoc, m: Manifest, tree: Tree, n: FileName) {
    && Has(tree, n) && n in m.files && |At(tree, n).content| <= Limit(q, n) && m.files[n] == Describe(env, At(tree, n))
    && match n
       case Input(t) => t in q.inputs && Stamped(env, At(tree, n).content, q.inputs[t])
       case Output(p) => p in q.outputs && q.outputs[p].Some? && Stamped(env, At(tree, n).content, q.outputs[p].value)
       case Evaluator => HarnessOk(env, q.spec, At(tree, n).content)
       case _ => true
  }

  predicate HarnessOk(env: Env, spec: Spec, content: Content) {
    |content| == spec.harnessSize && env.sha(content) == spec.harnessSha && env.harnessText(content)
  }

  /** The file at this path has this length and digest, which its descriptor repeats with its identity. */
  predicate RetainedAs(env: Env, tree: Tree, p: Path, m: Manifest, n: FileName, size: nat, sha: string) {
    && p in tree.disk && tree.disk[p].Regular? && n in m.files
    && |tree.disk[p].file.content| == size && env.sha(tree.disk[p].file.content) == sha
    && m.files[n] == Descriptor(size, sha, tree.disk[p].file.node)
  }

  /** The same for a file that the request does not describe. */
  predicate RetainedFree(env: Env, tree: Tree, p: Path, m: Manifest, n: FileName, limit: nat) {
    p in tree.disk && tree.disk[p].Regular? &&
    var content := tree.disk[p].file.content;
    |content| <= limit && RetainedAs(env, tree, p, m, n, |content|, env.sha(content))
  }

  /** _format_valid for the output p: of the file observed for it, if the request says that there is one. */
  predicate FormatValid(env: Env, q: RequestDoc, tree: Tree, p: string) {
    p in q.contract.outputs ==>
      if Declares(q, Output(p)) then Has(tree, Output(p)) && env.formatOk(q.contract.outputs[p], At(tree, Output(p)).content)
      else !q.contract.outputs[p].required
  }

  predicate OutputsValid(env: Env, q: RequestDoc, tree: Tree) {
    forall p {:trigger FormatValid(env, q, tree, p)} | p in q.contract.outputs :: FormatValid(env, q, tree, p)
  }

  /** The report that a record must carry, whatever the evaluator process said; outputs come first. */
  function Forced(env: Env, id: string, outputsValid: bool, evidence: Option<Evidence>): Option<ReportDoc> {
    if !outputsValid then Some(env.invalidReport(id))
    else if evidence.Some? && !evidence.value.valid then Some(env.failureReport(id, evidence.value))
    else None
  }

  /** The verdict part of a record: flags, evidence and report agree. */
  predicate VerdictOk(env: Env, q: RequestDoc, m: Manifest, tree: Tree)
    requires Has(tree, Report) && (q.contract.sourceChecked ==> Has(tree, Checks))
  {
    && (m.sourceValid.Some? <==> q.contract.sourceChecked)
    && m.outputValid == OutputsValid(env, q, tree)
    && var evidence := if q.contract.sourceChecked then env.parseEvidence(At(tree, Checks).content, q.contract, q.binding) else None;
       && (q.contract.sourceChecked ==> evidence.Some? && m.sourceValid == Some(evidence.value.valid))
       && m.invoked == (m.outputValid && (evidence.Some? ==> evidence.value.valid))
       && env.parseReport(At(tree, Report).content, q.spec.id) == Some(m.report)
       && (Forced(env, q.spec.id, m.outputValid, evidence).Some? ==> m.report == Forced(env, q.spec.id, m.outputValid, evidence).value)
  }

  /** Names, files and bindings of a record agree with its request. */
  ghost predicate FilesOk(env: Env, q: RequestDoc, m: Manifest, tree: Tree) {
    && m.root == tree.root && m.binding == q.binding
    && m.files.Keys == DeclaredNames(q) && Exactly(tree.disk, ExpectedPaths(q))
    && forall n {:trigger FileOk(env, q, m, tree, n)} | n in DeclaredNames(q) :: FileOk(env, q, m, tree, n)
  }

  predicate InputRetained(env: Env, q: RequestDoc, m: Manifest, tree: Tree, t: string)
    requires t in q.inputs
  {
    q.inputs[t].size <= 16777216 && RetainedAs(env, tree, ["inputs"] + Split(t), m, Input(t), q.inputs[t].size, q.inputs[t].sha)
  }

  predicate OutputRetained(env: Env, q: RequestDoc, m: Manifest, tree: Tree, p: string)
    requires p in q.outputs && q.outputs[p].Some?
  {
    var stamp := q.outputs[p].value;
    stamp.size <= 16777216 && RetainedAs(env, tree, Split(p), m, Output(p), stamp.size, stamp.sha)
  }

  predicate HarnessRetained(env: Env, q: RequestDoc, m: Manifest, tree: Tree) {
    && RetainedAs(env, tree, ["evaluator.py"], m, Evaluator, q.spec.harnessSize, q.spec.harnessSha)
    && env.harnessText(tree.disk[["evaluator.py"]].file.content)
  }

  /** One kind after the other. */
  lemma FileMeans(env: Env, q: RequestDoc, m: Manifest, tree: Tree, n: FileName)
    ensures FileOk(env, q, m, tree, n) <==>
      match n
      case Request => RetainedFree(env, tree, ["request.json"], m, Request, 131072)
      case Evaluator => HarnessRetained(env, q, m, tree)
      case Report => RetainedFree(env, tree, ["report.json"], m, Report, 32768)
      case Checks => RetainedFree(env, tree, ["source-checks.json"], m, Checks, 262144)
      case Input(t) => t in q.inputs && InputRetained(env, q, m, tree, t)
      case Output(p) => p in q.outputs && q.outputs[p].Some? && OutputRetained(env, q, m, tree, p)
  {
    match n
    case Request =>
    case Evaluator =>
    case Report =>
    case Checks =>
    case Input(t) =>
    case Output(p) =>
  }

  /** The six kinds of files under their paths, of the admitted sizes and digests. */
  ghost predicate AllRetained(env: Env, q: RequestDoc, m: Manifest, tree: Tree) {
    && RetainedFree(env, tree, ["request.json"], m, Request, 131072)
    && HarnessRetained(env, q, m, tree)
    && RetainedFree(env, tree, ["report.json"], m, Report, 32768)
    && (q.contract.sourceChecked ==> RetainedFree(env, tree, ["source-checks.json"], m, Checks, 262144))
    && (forall t | t in q.inputs :: InputRetained(env, q, m, tree, t))
    && (forall p | p in q.outputs && q.outputs[p].Some? :: OutputRetained(env, q, m, tree, p))
  }

  lemma RetainedDeclared(env: Env, q: RequestDoc, m: Manifest, tree: Tree)
    requires AllRetained(env, q, m, tree)
    ensures forall n | n in DeclaredNames(q) :: n in m.files && FileOk(env, q, m, tree, n)
  {
    forall n | n in DeclaredNames(q) ensures n in m.files && FileOk(env, q, m, tree, n) {
      assert Declares(q, n);
      FileMeans(env, q, m, tree, n);
    }
  }

  lemma DeclaredRetained(env: Env, q: RequestDoc, m: Manifest, tree: Tree)
    requires forall n | n in DeclaredNames(q) :: FileOk(env, q, m, tree, n)
    ensures AllRetained(env, q, m, tree)
  {
    forall n | Declares(q, n) ensures FileOk(env, q, m, tree, n) { assert n in DeclaredNames(q); }
    FileMeans(env, q, m, tree, Request);
    FileMeans(env, q, m, tree, Evaluator);
    FileMeans(env, q, m, tree, Report);
    FileMeans(env, q, m, tree, Checks);
    forall t | t in q.inputs ensures InputRetained(env, q, m, tree, t) { FileMeans(env, q, m, tree, Input(t)); }
    forall p | p in q.outputs && q.outputs[p].Some? ensures OutputRetained(env, q, m, tree, p) { FileMeans(env, q, m, tree, Output(p)); }
  }

  /** The files of a record agree with its request exactly if all of them are there as admitted, and nothing else is. */
  lemma FilesMean(env: Env, q: RequestDoc, m: Manifest, tree: Tree)
    ensures FilesOk(env, q, m, tree) <==>
      && m.root == tree.root && m.binding == q.binding && Exactly(tree.disk, ExpectedPaths(q))
      && (forall n | n in m.files :: Declares(q, n)) && AllRetained(env, q, m, tree)
  {
    if FilesOk(env, q, m, tree) {
      DeclaredRetained(env, q, m, tree);
    } else if AllRetained(env, q, m, tree) {
      RetainedDeclared(env, q, m, tree);
    }
  }

  /** Where the files of a record lie. */
  lemma PathsMean(q: RequestDoc, p: Path)
    ensures p in ExpectedPaths(q) <==>
      || p in [["evaluation.json"], ["request.json"], ["evaluator.py"], ["report.json"]]
      || (q.contract.sourceChecked && p == ["source-checks.json"])
      || (exists t :: t in q.inputs && p == ["inputs"] + Split(t))
      || (exists o :: o in q.outputs && q.outputs[o].Some? && p == Split(o))
  {
    assert forall n | Declares(q, n) :: PathOf(n) in ExpectedPaths(q);
    assert Declares(q, Request) && Declares(q, Evaluator) && Declares(q, Report);
    assert q.contract.sourceChecked ==> Declares(q, Checks);
    forall t | t in q.inputs ensures ["inputs"] + Split(t) in ExpectedPaths(q) { assert Declares(q, Input(t)) && PathOf(Input(t)) == ["inputs"] + Split(t); }
    forall o | o in q.outputs && q.outputs[o].Some? ensures Split(o) in ExpectedPaths(q) { assert Declares(q, Output(o)) && PathOf(Output(o)) == Split(o); }
  }

  ghost predicate BodyOk(env: Env, q: RequestDoc, m: Manifest, tree: Tree) {
    FilesOk(env, q, m, tree) && FileOk(env, q, m, tree, Report) && (q.contract.sourceChecked ==> FileOk(env, q, m, tree, Checks))
    && VerdictOk(env, q, m, tree)
  }

  /** What inspect_candidate_evaluation accepts: the manifest and the request it decodes. */
  ghost predicate AcceptedAs(env: Env, tree: Tree, pin: Option<string>, m: Manifest, q: RequestDoc) {
    && HoldsFile(tree, RECORD_PATH) && Has(tree, Request)
    && var raw := tree.disk[RECORD_PATH].file.content;
       && |raw| <= MAX_DOCUMENT_BYTES && (pin.Some? ==> env.sha(raw) == pin.value)
       && env.decodeManifest(raw) == Some(m) && env.encodeManifest(m) == raw
       && |m.files| <= MAX_RECORD_FILES && |At(tree, Request).content| <= MAX_DOCUMENT_BYTES
       && env.decodeRequest(At(tree, Request).content) == Some(q) && env.encodeRequest(q) == At(tree, Request).content
       && RequestValid(env, q) && BodyOk(env, q, m, tree)
  }

  ghost predicate Accepted(env: Env, tree: Tree, pin: Option<string>) {
    exists m, q :: AcceptedAs(env, tree, pin, m, q)
  }

  // ------------------------------------------------------------ the writer

  /** One scoring job: the observed contents, absent outputs missing from the map. */
  datatype Job = Job(
    binding: Binding, contract: Contract, spec: Spec, harness: Content, declared: map<string, Stamp>,
    inputs: map<string, Content>, outputs: map<string, Content>)

  function OutputTable(env: Env, job: Job): map<string, Option<Stamp>> {
    map p | p in job.contract.outputs ::
      if p in job.outputs then Some(Stamp(|job.outputs[p]|, env.sha(job.outputs[p]))) else None
  }

  function RequestOf(env: Env, job: Job): RequestDoc {
    RequestDoc(job.binding, job.contract, job.spec, job.declared, OutputTable(env, job))
  }

  predicate InputObserved(env: Env, job: Job, t: string) {
    t in job.declared ==> t in job.inputs && Stamped(env, job.inputs[t], job.declared[t])
  }

  /** The observed harness and inputs are the admitted ones. */
  predicate Observed(env: Env, job: Job) {
    && HarnessOk(env, job.spec, job.harness) && job.inputs.Keys == job.declared.Keys && job.outputs.Keys <= job.contract.outputs.Keys
    && forall t {:trigger InputObserved(env, job, t)} | t in job.declared :: InputObserved(env, job, t)
  }

  predicate OutputFine(env: Env, job: Job, p: string) {
    p in job.contract.outputs ==>
      if p in job.outputs then env.formatOk(job.contract.outputs[p], job.outputs[p]) else !job.contract.outputs[p].required
  }

  predicate JobValid(env: Env, job: Job) {
    forall p {:trigger OutputFine(env, job, p)} | p in job.contract.outputs :: OutputFine(env, job, p)
  }

  predicate SourceValid(env: Env, job: Job) {
    !job.contract.sourceChecked || env.evidenceFor(job.contract, job.binding).valid
  }

  /** The report of a job: forced when an output or the sources are invalid, outputs first. */
  function ReportFor(env: Env, job: Job, stdout: Option<Content>): Option<ReportDoc> {
    if !JobValid(env, job) then Some(env.invalidReport(job.spec.id))
    else if !SourceValid(env, job) then Some(env.failureReport(job.spec.id, env.evidenceFor(job.contract, job.binding)))
    else if stdout.None? then None
    else env.parseReport(stdout.value, job.spec.id)
  }

  /** An output of the contract that is missing though required, or there in the wrong format. */
  predicate Faulty(env: Env, job: Job, p: string)
    requires p in job.contract.outputs
  {
    || (p !in job.outputs && job.contract.outputs[p].required)
    || (p in job.outputs && !env.formatOk(job.contract.outputs[p], job.outputs[p]))
  }

  /** A faulty output decides the report, then invalid sources, and only then does the evaluator's own answer count. */
  lemma ReportMeans(env: Env, job: Job, stdout: Option<Content>)
    ensures (exists p :: p in job.contract.outputs && Faulty(env, job, p)) ==>
      !JobValid(env, job) && ReportFor(env, job, stdout) == Some(env.invalidReport(job.spec.id))
    ensures (forall p | p in job.contract.outputs :: !Faulty(env, job, p)) ==>
      && JobValid(env, job)
      && var evidence := env.evidenceFor(job.contract, job.binding);
         if job.contract.sourceChecked && !evidence.valid then ReportFor(env, job, stdout) == Some(env.failureReport(job.spec.id, evidence))
         else ReportFor(env, job, stdout) == match stdout case None => None case Some(raw) => env.parseReport(raw, job.spec.id)
  {
    forall p | p in job.contract.outputs ensures OutputFine(env, job, p) <==> !Faulty(env, job, p) {}
  }

  /** What was observed is what was admitted: harness and inputs byte for byte, and no output outside the contract. */
  lemma ObservedMeans(env: Env, job: Job)
    ensures Observed(env, job) <==>
      && |job.harness| == job.spec.harnessSize && env.sha(job.harness) == job.spec.harnessSha && env.harnessText(job.harness)
      && job.inputs.Keys == job.declared.Keys
      && (forall t | t in job.inputs :: Stamp(|job.inputs[t]|, env.sha(job.inputs[t])) == job.declared[t])
      && (forall p | p in job.outputs :: p in job.contract.outputs)
  {
    if Observed(env, job) {
      forall t | t in job.inputs ensures Stamp(|job.inputs[t]|, env.sha(job.inputs[t])) == job.declared[t] { assert InputObserved(env, job, t); }
    }
  }

  /** What the writer puts under a declared name. */
  function ContentOf(env: Env, job: Job, report: Content, n: FileName): Content
    requires Observed(env, job) && Declares(RequestOf(env, job), n)
  {
    match n
    case Request => env.encodeRequest(RequestOf(env, job))
    case Evaluator => job.harness
    case Report => report
    case Checks => env.encodeEvidence(env.evidenceFor(job.contract, job.binding))
    case Input(t) =>
      assert InputObserved(env, job, t);
      job.inputs[t]
    case Output(p) => job.outputs[p]
  }

  /** The file that the writer puts under a declared name, with an identity of its own. */
  function FileOf(env: Env, job: Job, report: Content, node: FileName -> nat, n: FileName): File
    requires Observed(env, job) && Declares(RequestOf(env, job), n)
  {
    File(ContentOf(env, job, report, n), node(n))
  }

  function ManifestOf(env: Env, job: Job, root: nat, bytes: Content, node: FileName -> nat, report: ReportDoc): Manifest
    requires Observed(env, job)
  {
    Manifest(root, job.binding, map n | n in DeclaredNames(RequestOf(env, job)) :: Describe(env, FileOf(env, job, bytes, node, n)),
             report, JobValid(env, job), JobValid(env, job) && SourceValid(env, job),
             if job.contract.sourceChecked then Some(SourceValid(env, job)) else None)
  }

  /** The tree holds exactly what the writer put there: the declared files and the record. */
  ghost predicate Written(env: Env, job: Job, bytes: Content, node: FileName -> nat, report: ReportDoc, tree: Tree)
    requires Observed(env, job)
  {
    var q := RequestOf(env, job);
    && Exactly(tree.disk, ExpectedPaths(q))
    && (forall n {:trigger PutAt(env, job, bytes, node, tree, n)} | n in DeclaredNames(q) :: PutAt(env, job, bytes, node, tree, n))
    && HoldsFile(tree, RECORD_PATH)
    && tree.disk[RECORD_PATH].file.content == env.encodeManifest(ManifestOf(env, job, tree.root, bytes, node, report))
  }

  predicate PutAt(env: Env, job: Job, bytes: Content, node: FileName -> nat, tree: Tree, n: FileName)
    requires Observed(env, job)
  {
    Declares(RequestOf(env, job), n) ==> Has(tree, n) && At(tree, n) == FileOf(env, job, bytes, node, n)
  }

  /** What the writer has made sure of before it writes the record itself. */
  ghost predicate Prepared(env: Env, job: Job, stdout: Option<Content>, report: ReportDoc, bytes: Content) {
    && Observed(env, job) && RequestValid(env, RequestOf(env, job))
    && |env.encodeRequest(RequestOf(env, job))| <= MAX_DOCUMENT_BYTES && |bytes| <= MAX_REPORT_BYTES
    && Some(report) == ReportFor(env, job, stdout) && env.parseReport(bytes, job.spec.id) == Some(report)
    && (job.contract.sourceChecked ==> |env.encodeEvidence(env.evidenceFor(job.contract, job.binding))| <= MAX_CHECK_BYTES)
  }

  lemma WrittenFile(env: Env, job: Job, stdout: Option<Content>, report: ReportDoc, bytes: Content, tree: Tree, node: FileName -> nat, n: FileName)
    requires Prepared(env, job, stdout, report, bytes) && Written(env, job, bytes, node, report, tree)
    requires n in DeclaredNames(RequestOf(env, job))
    ensures FileOk(env, RequestOf(env, job), ManifestOf(env, job, tree.root, bytes, node, report), tree, n)
  {
    var q := RequestOf(env, job);
    assert PutAt(env, job, bytes, node, tree, n);
    if n.Input? { assert InputObserved(env, job, n.target) && InputStamp(q, n.target); }
    if n.Output? { assert OutputStamp(q, n.path); }
  }

  lemma WrittenOutputs(env: Env, job: Job, bytes: Content, tree: Tree, node: FileName -> nat, report: ReportDoc)
    requires Observed(env, job) && Written(env, job, bytes, node, report, tree)
    ensures OutputsValid(env, RequestOf(env, job), tree) == JobValid(env, job)
  {
    var q := RequestOf(env, job);
    forall p | p in job.contract.outputs ensures FormatValid(env, q, tree, p) <==> OutputFine(env, job, p) {
      assert Declares(q, Output(p)) <==> p in job.outputs;
      if p in job.outputs { assert PutAt(env, job, bytes, node, tree, Output(p)); }
    }
    assert forall p | p in job.contract.outputs :: FormatValid(env, q, tree, p) <==> OutputFine(env, job, p);
  }

  /** The verdict of a record follows from its report, its evidence and the validity of the outputs. */
  lemma VerdictFrom(env: Env, job: Job, stdout: Option<Content>, report: ReportDoc, bytes: Content, node: FileName -> nat, tree: Tree)
    requires Observed(env, job)
    requires Has(tree, Report) && env.parseReport(At(tree, Report).content, job.spec.id) == Some(report)
    requires Some(report) == ReportFor(env, job, stdout)
    requires OutputsValid(env, RequestOf(env, job), tree) == JobValid(env, job)
    requires job.contract.sourceChecked ==>
      && Has(tree, Checks)
      && env.parseEvidence(At(tree, Checks).content, job.contract, job.binding) == Some(env.evidenceFor(job.contract, job.binding))
    ensures VerdictOk(env, RequestOf(env, job), ManifestOf(env, job, tree.root, bytes, node, report), tree)
  {
  }

  lemma WrittenVerdict(env: Env, job: Job, stdout: Option<Content>, report: ReportDoc, bytes: Content, tree: Tree, node: FileName -> nat)
    requires Prepared(env, job, stdout, report, bytes) && Written(env, job, bytes, node, report, tree)
    requires env.parseEvidence(env.encodeEvidence(env.evidenceFor(job.contract, job.binding)), job.contract, job.binding)
             == Some(env.evidenceFor(job.contract, job.binding))
    ensures Has(tree, Report) && (job.contract.sourceChecked ==> Has(tree, Checks))
    ensures VerdictOk(env, RequestOf(env, job), ManifestOf(env, job, tree.root, bytes, node, report), tree)
  {
    var q := RequestOf(env, job);
    assert Declares(q, Report) && PutAt(env, job, bytes, node, tree, Report);
    WrittenOutputs(env, job, bytes, tree, node, report);
    if job.contract.sourceChecked {
      assert Declares(q, Checks) && PutAt(env, job, bytes, node, tree, Checks);
    }
    VerdictFrom(env, job, stdout, report, bytes, node, tree);
  }

  lemma WrittenBody(env: Env, job: Job, stdout: Option<Content>, report: ReportDoc, bytes: Content, tree: Tree, node: FileName -> nat)
    requires Faithful(env) && Prepared(env, job, stdout, report, bytes) && Written(env, job, bytes, node, report, tree)
    ensures BodyOk(env, RequestOf(env, job), ManifestOf(env, job, tree.root, bytes, node, report), tree)
  {
    var q, m := RequestOf(env, job), ManifestOf(env, job, tree.root, bytes, node, report);
    forall n | n in DeclaredNames(q) ensures FileOk(env, q, m, tree, n) {
      WrittenFile(env, job, stdout, report, bytes, tree, node, n);
    }
    assert env.evidenceFor(job.contract, job.binding) == env.evidenceFor(job.contract, job.binding);
    WrittenVerdict(env, job, stdout, report, bytes, tree, node);
  }

  /** Every record that the writer completes is accepted, with the same binding and report. */
  lemma WrittenAccepted(env: Env, job: Job, stdout: Option<Content>, report: ReportDoc, bytes: Content, tree: Tree, node: FileName -> nat)
    requires Faithful(env) && Prepared(env, job, stdout, report, bytes) && Written(env, job, bytes, node, report, tree)
    requires |tree.disk[RECORD_PATH].file.content| <= MAX_DOCUMENT_BYTES
    ensures var m, q, raw := ManifestOf(env, job, tree.root, bytes, node, report), RequestOf(env, job), tree.disk[RECORD_PATH].file.content;
            AcceptedAs(env, tree, None, m, q) && AcceptedAs(env, tree, Some(env.sha(raw)), m, q)
  {
    var m, q := ManifestOf(env, job, tree.root, bytes, node, report), RequestOf(env, job);
    WrittenBody(env, job, stdout, report, bytes, tree, node);
    DeclaredFit(env, q);
    assert env.decodeManifest(env.encodeManifest(m)) == Some(m) && env.decodeRequest(env.encodeRequest(q)) == Some(q);
    assert Declares(q, Request) && PutAt(env, job, bytes, node, tree, Request);
    assert m.files.Keys == DeclaredNames(q) && |m.files| == |m.files.Keys|;
  }

  // ------------------------------------------------------------ writing the tree

  /** Declared names lead to different places, none below another, and none at or below the record. */
  lemma PlacesApart(env: Env, q: RequestDoc, m: FileName, n: FileName)
    requires RequestValid(env, q) && Declares(q, m) && Declares(q, n) && m != n
    ensures PathOf(m) != PathOf(n) && !Within(PathOf(m), PathOf(n))
  {
    var a, b := PathOf(m), PathOf(n);
    if m.Output? { assert OutputPath(m.path); }
    if n.Output? { assert OutputPath(n.path); }
    if m.Input? && n.Input? {
      assert a[1..] == Split(m.target) && b[1..] == Split(n.target);
      JoinSplit(m.target);
      JoinSplit(n.target);
      assert !Below(m.target, n.target);
      assert |a| <= |b| ==> b[..|a|][1..] == b[1..][..|a| - 1];
    } else if m.Output? && n.Output? {
      JoinSplit(m.path);
      JoinSplit(n.path);
      assert !Below(m.path, n.path);
    } else {
      assert a[0] != b[0];
      assert |a| <= |b| ==> b[..|a|][0] == b[0];
    }
  }

  lemma RecordApart(env: Env, q: RequestDoc, n: FileName)
    requires RequestValid(env, q) && Declares(q, n)
    ensures PathOf(n) != [] && PathOf(n) != RECORD_PATH && !Within(PathOf(n), RECORD_PATH) && !Within(RECORD_PATH, PathOf(n))
  {
    if n.Output? { assert OutputPath(n.path); }
    assert PathOf(n)[0] != RECORD_PATH[0];
    assert PathOf(n)[..1][0] == PathOf(n)[0];
  }

  ghost predicate Lists(order: seq<FileName>, names: set<FileName>) {
    && (forall i, j | 0 <= i < j < |order| :: order[i] != order[j])
    && (forall n :: n in order <==> n in names)
  }

  method InSomeOrder(names: set<FileName>) returns (order: seq<FileName>)
    ensures Lists(order, names)
  {
    order := [];
    var rest := names;
    while rest != {}
      invariant rest <= names && Lists(order, names - rest)
    {
      var n :| n in rest;
      order, rest := order + [n], rest - {n};
    }
  }

  function PutsOf(env: Env, job: Job, bytes: Content, node: FileName -> nat, order: seq<FileName>, record: File): (puts: seq<Put<File>>)
    requires Observed(env, job) && forall n | n in order :: Declares(RequestOf(env, job), n)
    ensures |puts| == |order| + 1 && puts[|order|] == Put(RECORD_PATH, record)
    ensures forall i | 0 <= i < |order| :: puts[i] == Put(PathOf(order[i]), FileOf(env, job, bytes, node, order[i]))
  {
    seq(|order| + 1, i requires 0 <= i <= |order| =>
      if i < |order| then assert order[i] in order; Put(PathOf(order[i]), FileOf(env, job, bytes, node, order[i])) else Put(RECORD_PATH, record))
  }

  lemma PutsApart(env: Env, job: Job, bytes: Content, node: FileName -> nat, order: seq<FileName>, record: File)
    requires Observed(env, job) && RequestValid(env, RequestOf(env, job)) && Lists(order, DeclaredNames(RequestOf(env, job)))
    ensures Apart(PutsOf(env, job, bytes, node, order, record))
    ensures forall i | 0 <= i <= |order| :: PutsOf(env, job, bytes, node, order, record)[i].path != []
  {
    var q, puts := RequestOf(env, job), PutsOf(env, job, bytes, node, order, record);
    forall i | 0 <= i < |order| ensures Declares(q, order[i]) { assert order[i] in order && order[i] in DeclaredNames(q); }
    forall i, j | 0 <= i <= |order| && 0 <= j <= |order| && i != j ensures puts[i].path != puts[j].path && !Within(puts[i].path, puts[j].path) {
      if i < |order| { RecordApart(env, q, order[i]); }
      if j < |order| { RecordApart(env, q, order[j]); }
      if i < |order| && j < |order| { PlacesApart(env, q, order[i], order[j]); }
    }
    forall i | 0 <= i < |order| ensures puts[i].path != [] { RecordApart(env, q, order[i]); }
  }

  lemma PutsWritten(env: Env, job: Job, bytes: Content, node: FileName -> nat, order: seq<FileName>, record: File, report: ReportDoc, tree: Tree)
    requires Observed(env, job) && Lists(order, DeclaredNames(RequestOf(env, job)))
    requires record.content == env.encodeManifest(ManifestOf(env, job, tree.root, bytes, node, report))
    requires HoldsPuts(tree.disk, PutsOf(env, job, bytes, node, order, record))
    ensures Written(env, job, bytes, node, report, tree)
  {
    var q, puts := RequestOf(env, job), PutsOf(env, job, bytes, node, order, record);
    assert HoldsPut(tree.disk, puts[|order|]);
    forall n | n in DeclaredNames(q) ensures PutAt(env, job, bytes, node, tree, n) && PathOf(n) in PutPaths(puts) {
      assert n in order;
      var i :| 0 <= i < |order| && order[i] == n;
      assert HoldsPut(tree.disk, puts[i]) && puts[i].path == PathOf(n);
    }
    assert PutPaths(puts) == ExpectedPaths(q) by {
      forall p | p in PutPaths(puts) ensures p in ExpectedPaths(q) {
        var i :| 0 <= i < |puts| && puts[i].path == p;
        if i < |order| { assert order[i] in order; }
      }
      assert puts[|order|].path == RECORD_PATH;
    }
  }

  /** The bytes of the report: what the evaluator printed, or the forced report's encoding. */
  function ReportBytes(env: Env, job: Job, stdout: Option<Content>, report: ReportDoc): Content {
    if JobValid(env, job) && SourceValid(env, job) && stdout.Some? then stdout.value else env.encodeReport(report)
  }

  /** Everything that a completed record needs: what was admitted is what is there, and every document fits. */
  predicate Completes(env: Env, job: Job, stdout: Option<Content>, root: nat, node: FileName -> nat) {
    && Observed(env, job) && RequestValid(env, RequestOf(env, job))
    && |env.encodeRequest(RequestOf(env, job))| <= MAX_DOCUMENT_BYTES
    && (job.contract.sourceChecked ==> |env.encodeEvidence(env.evidenceFor(job.contract, job.binding))| <= MAX_CHECK_BYTES)
    && ReportFor(env, job, stdout).Some? &&
    var report := ReportFor(env, job, stdout).value;
    var bytes := ReportBytes(env, job, stdout, report);
    && |bytes| <= MAX_REPORT_BYTES
    && |env.encodeManifest(ManifestOf(env, job, root, bytes, node, report))| <= MAX_DOCUMENT_BYTES
  }

  lemma CompletesPrepared(env: Env, job: Job, stdout: Option<Content>, root: nat, node: FileName -> nat)
    requires Faithful(env) && Completes(env, job, stdout, root, node)
    ensures var report := ReportFor(env, job, stdout).value; Prepared(env, job, stdout, report, ReportBytes(env, job, stdout, report))
  {
    var id, e := job.spec.id, env.evidenceFor(job.contract, job.binding);
    assert env.parseReport(env.encodeReport(env.invalidReport(id)), id) == Some(env.invalidReport(id));
    assert env.parseReport(env.encodeReport(env.failureReport(id, e)), id) == Some(env.failureReport(id, e));
  }

  /**
    evaluate_candidate_execution without interference: stdout is what the evaluator process would
    print, None if it fails; node gives every new file its identity. A record is completed exactly when
    everything that it needs is there, and it has passed its own inspection.
  */
  method Evaluate(env: Env, job: Job, stdout: Option<Content>, root: nat, node: FileName -> nat, recordNode: nat) returns (tree: Option<Tree>)
    ensures Faithful(env) ==> (tree.Some? <==> Completes(env, job, stdout, root, node))
    ensures tree.Some? ==>
      && HoldsFile(tree.value, RECORD_PATH)
      && Accepted(env, tree.value, Some(env.sha(tree.value.disk[RECORD_PATH].file.content)))
    ensures tree.Some? && Faithful(env) ==>
      var m := env.decodeManifest(tree.value.disk[RECORD_PATH].file.content);
      && m.Some? && AcceptedAs(env, tree.value, None, m.value, RequestOf(env, job))
      && m.value.binding == job.binding && Some(m.value.report) == ReportFor(env, job, stdout)
      && m.value.outputValid == JobValid(env, job) && m.value.invoked == (JobValid(env, job) && SourceValid(env, job))
  {
    if !Observed(env, job) { return None; }
    var q := RequestOf(env, job);
    if !RequestValid(env, q) || |env.encodeRequest(q)| > MAX_DOCUMENT_BYTES { return None; }
    var report := ReportFor(env, job, stdout);
    if report.None? { return None; }
    var bytes := ReportBytes(env, job, stdout, report.value);
    if |bytes| > MAX_REPORT_BYTES { return None; }
    if job.contract.sourceChecked && |env.encodeEvidence(env.evidenceFor(job.contract, job.binding))| > MAX_CHECK_BYTES { return None; }
    var raw := env.encodeManifest(ManifestOf(env, job, root, bytes, node, report.value));
    if |raw| > MAX_DOCUMENT_BYTES { return None; }
    var order := InSomeOrder(DeclaredNames(q));
    var record := File(raw, recordNode);
    PutsApart(env, job, bytes, node, order, record);
    var written, disk := WriteTree(PutsOf(env, job, bytes, node, order, record));
    if !written { return None; }
    var whole := Tree(root, disk);
    PutsWritten(env, job, bytes, node, order, record, report.value, whole);
    if Faithful(env) {
      CompletesPrepared(env, job, stdout, root, node);
      WrittenAccepted(env, job, stdout, report.value, bytes, whole, node);
      assert env.decodeManifest(raw) == Some(ManifestOf(env, job, root, bytes, node, report.value));
    }
    var inspected := Inspect(env, whole, Some(env.sha(raw)));
    return if inspected.Some? then Some(whole) else None;
  }

  // ------------------------------------------------------------ the inspection

  /** Once every declared file was observed, every expected name is a file. */
  lemma ExpectedRegular(env: Env, q: RequestDoc, m: Manifest, tree: Tree)
    requires RequestValid(env, q) && HoldsFile(tree, RECORD_PATH)
    requires forall n {:trigger FileOk(env, q, m, tree, n)} | n in DeclaredNames(q) :: FileOk(env, q, m, tree, n)
    ensures [] !in ExpectedPaths(q) && forall p | p in ExpectedPaths(q) && p in tree.disk :: tree.disk[p].Regular?
  {
    forall p | p in ExpectedPaths(q) ensures p != [] && HoldsFile(tree, p) {
      if p != RECORD_PATH {
        var n :| n in DeclaredNames(q) && PathOf(n) == p;
        assert FileOk(env, q, m, tree, n);
        RecordApart(env, q, n);
      }
    }
  }

  /** The loop over the declared names. */
  method CheckFiles(env: Env, q: RequestDoc, m: Manifest, tree: Tree) returns (ok: bool)
    requires RequestValid(env, q) && HoldsFile(tree, RECORD_PATH)
    ensures ok <==> FilesOk(env, q, m, tree)
  {
    var expected := DeclaredNames(q);
    if m.root != tree.root || m.binding != q.binding || m.files.Keys != expected { return false; }
    var rest := expected;
    while rest != {}
      invariant rest <= expected
      invariant forall n {:trigger FileOk(env, q, m, tree, n)} | n in expected && n !in rest :: FileOk(env, q, m, tree, n)
    {
      var n :| n in rest;
      if !FileOk(env, q, m, tree, n) { return false; }
      rest := rest - {n};
    }
    ExpectedRegular(env, q, m, tree);
    ok := TreeNames(tree.disk, ExpectedPaths(q));      // nothing beside the declared names
  }

  /** The loop over the contract's outputs. */
  method CheckOutputs(env: Env, q: RequestDoc, tree: Tree) returns (valid: bool)
    ensures valid <==> OutputsValid(env, q, tree)
  {
    valid := true;
    var rest := q.contract.outputs.Keys;
    while rest != {}
      invariant rest <= q.contract.outputs.Keys
      invariant valid <==> forall p {:trigger FormatValid(env, q, tree, p)} | p in q.contract.outputs && p !in rest :: FormatValid(env, q, tree, p)
    {
      var p :| p in rest;
      valid := FormatValid(env, q, tree, p) && valid;
      rest := rest - {p};
    }
  }

  method CheckVerdict(env: Env, q: RequestDoc, m: Manifest, tree: Tree) returns (ok: bool)
    requires Has(tree, Report) && (q.contract.sourceChecked ==> Has(tree, Checks))
    ensures ok <==> VerdictOk(env, q, m, tree)
  {
    var valid := CheckOutputs(env, q, tree);
    var evidence: Option<Evidence> := None;
    if q.contract.sourceChecked {
      evidence := env.parseEvidence(At(tree, Checks).content, q.contract, q.binding);
      if evidence.None? || m.sourceValid != Some(evidence.value.valid) { return false; }
    } else if m.sourceValid.Some? {
      return false;
    }
    var sourceValid := evidence.None? || evidence.value.valid;
    if m.outputValid != valid || m.invoked != (valid && sourceValid) { return false; }
    if env.parseReport(At(tree, Report).content, q.spec.id) != Some(m.report) { return false; }
    var forced := Forced(env, q.spec.id, valid, evidence);
    return forced.None? || m.report == forced.value;
  }

  /** inspect_candidate_evaluation. */
  method Inspect(env: Env, tree: Tree, pin: Option<string>) returns (r: Option<(Binding, ReportDoc)>)
    ensures r.Some? <==> Accepted(env, tree, pin)
    ensures forall m, q {:trigger AcceptedAs(env, tree, pin, m, q)} | AcceptedAs(env, tree, pin, m, q) :: r == Some((m.binding, m.report))
  {
    if !HoldsFile(tree, RECORD_PATH) || |tree.disk[RECORD_PATH].file.content| > MAX_DOCUMENT_BYTES { return None; }
    var raw := tree.disk[RECORD_PATH].file.content;
    var manifest := env.decodeManifest(raw);
    if manifest.None? || env.encodeManifest(manifest.value) != raw { return None; }
    var m := manifest.value;
    if pin.Some? && env.sha(raw) != pin.value { return None; }
    if |m.files| > MAX_RECORD_FILES { return None; }
    if !Has(tree, Request) || |At(tree, Request).content| > MAX_DOCUMENT_BYTES { return None; }
    var request := env.decodeRequest(At(tree, Request).content);
    if request.None? || env.encodeRequest(request.value) != At(tree, Request).content { return None; }
    var q := request.value;
    if !RequestValid(env, q) { return None; }
    var files := CheckFiles(env, q, m, tree);
    if !files { return None; }
    assert FileOk(env, q, m, tree, Report) && (q.contract.sourceChecked ==> FileOk(env, q, m, tree, Checks)) by {
      assert Declares(q, Report) && (q.contract.sourceChecked ==> Declares(q, Checks));
    }
    var verdict := CheckVerdict(env, q, m, tree);
    if !verdict { return None; }
    assert AcceptedAs(env, tree, pin, m, q);
    return Some((m.binding, m.report));
  }

  /** Two trees hold something different under one path, which the digest maps to the same value. */
  ghost predicate Collides(env: Env, a: Tree, b: Tree) {
    exists p :: HoldsFile(a, p) && HoldsFile(b, p)
      && a.disk[p].file.content != b.disk[p].file.content && env.sha(a.disk[p].file.content) == env.sha(b.disk[p].file.content)
  }

  lemma SameFile(env: Env, p: RequestDoc, q: RequestDoc, m: Manifest, a: Tree, b: Tree, n: FileName)
    requires !Collides(env, a, b) && FileOk(env, p, m, a, n) && FileOk(env, q, m, b, n)
    ensures At(a, n) == At(b, n)
  {
    assert env.sha(At(a, n).content) == env.sha(At(b, n).content);
    assert HoldsFile(a, PathOf(n)) && HoldsFile(b, PathOf(n));
  }

  lemma SameRequest(env: Env, a: Tree, b: Tree, m: Manifest, p: RequestDoc, q: RequestDoc)
    requires !Collides(env, a, b) && FilesOk(env, p, m, a) && FilesOk(env, q, m, b) && Has(a, Request) && Has(b, Request)
    requires env.decodeRequest(At(a, Request).content) == Some(p) && env.decodeRequest(At(b, Request).content) == Some(q)
    ensures p == q
  {
    assert Declares(p, Request) && Declares(q, Request);
    assert FileOk(env, p, m, a, Request) && FileOk(env, q, m, b, Request);
    SameFile(env, p, q, m, a, b, Request);
  }

  /** The same tree, but for the identity of the record, which nothing pins. */
  predicate AlikeAt(a: Tree, b: Tree, p: Path) {
    && (p in a.disk <==> p in b.disk)
    && (p in a.disk && p != RECORD_PATH ==> a.disk[p] == b.disk[p])
  }

  ghost predicate Alike(a: Tree, b: Tree) {
    && a.root == b.root && HoldsFile(a, RECORD_PATH) && HoldsFile(b, RECORD_PATH)
    && a.disk[RECORD_PATH].file.content == b.disk[RECORD_PATH].file.content
    && forall p {:trigger AlikeAt(a, b, p)} :: AlikeAt(a, b, p)
  }

  lemma SameTrees(env: Env, a: Tree, b: Tree, m: Manifest, q: RequestDoc)
    requires !Collides(env, a, b) && FilesOk(env, q, m, a) && FilesOk(env, q, m, b)
    requires HoldsFile(a, RECORD_PATH) && HoldsFile(b, RECORD_PATH)
    requires a.disk[RECORD_PATH].file.content == b.disk[RECORD_PATH].file.content
    ensures Alike(a, b)
  {
    forall p ensures AlikeAt(a, b, p) {
      assert ExactAt(a.disk, ExpectedPaths(q), p) && ExactAt(b.disk, ExpectedPaths(q), p);
      if p in ExpectedPaths(q) && p != RECORD_PATH {
        var n :| n in DeclaredNames(q) && PathOf(n) == p;
        assert FileOk(env, q, m, a, n) && FileOk(env, q, m, b, n);
        SameFile(env, q, q, m, a, b, n);
      }
    }
  }

  lemma PinnedOnly(env: Env, a: Tree, b: Tree, m: Manifest, q: RequestDoc, n: Manifest, p: RequestDoc)
    requires AcceptedAs(env, a, None, m, q) && !Collides(env, a, b)
    requires AcceptedAs(env, b, Some(env.sha(a.disk[RECORD_PATH].file.content)), n, p)
    ensures Alike(a, b)
  {
    assert a.disk[RECORD_PATH].file.content == b.disk[RECORD_PATH].file.content;
    SameRequest(env, a, b, m, q, p);
    SameTrees(env, a, b, m, q);
  }

  lemma AlikeFile(env: Env, a: Tree, b: Tree, m: Manifest, q: RequestDoc, n: FileName)
    requires RequestValid(env, q) && FileOk(env, q, m, a, n) && Alike(a, b) && Declares(q, n)
    ensures FileOk(env, q, m, b, n) && At(b, n) == At(a, n)
  {
    assert AlikeAt(a, b, PathOf(n));
    RecordApart(env, q, n);
  }

  lemma AlikeFiles(env: Env, a: Tree, b: Tree, m: Manifest, q: RequestDoc)
    requires RequestValid(env, q) && FilesOk(env, q, m, a) && Alike(a, b)
    ensures FilesOk(env, q, m, b)
    ensures forall n | n in DeclaredNames(q) :: Has(a, n) && Has(b, n) && At(b, n) == At(a, n)
  {
    forall p ensures ExactAt(b.disk, ExpectedPaths(q), p) {
      assert ExactAt(a.disk, ExpectedPaths(q), p) && AlikeAt(a, b, p);
    }
    forall n | n in DeclaredNames(q) ensures FileOk(env, q, m, b, n) && Has(a, n) && Has(b, n) && At(b, n) == At(a, n) {
      AlikeFile(env, a, b, m, q, n);
    }
  }

  lemma AlikeAccepted(env: Env, a: Tree, b: Tree, m: Manifest, q: RequestDoc)
    requires AcceptedAs(env, a, None, m, q) && Alike(a, b)
    ensures AcceptedAs(env, b, Some(env.sha(a.disk[RECORD_PATH].file.content)), m, q)
  {
    AlikeFiles(env, a, b, m, q);
    assert Declares(q, Request) && Declares(q, Report);
    forall p | p in q.contract.outputs ensures FormatValid(env, q, a, p) <==> FormatValid(env, q, b, p) {
      if Declares(q, Output(p)) { assert Output(p) in DeclaredNames(q); }
    }
    assert OutputsValid(env, q, a) <==> OutputsValid(env, q, b) by {
      assert forall p | p in q.contract.outputs :: FormatValid(env, q, a, p) <==> FormatValid(env, q, b, p);
    }
  }

  /**
    Pinned by an accepted record's digest, a tree passes if it is that tree, but for the identity of the record
    file; any other one passes only if one of its files collides with that tree's under the digest: no
    declared name is missing, added or changed.
  */
  lemma PinnedExact(env: Env, a: Tree, b: Tree, m: Manifest, q: RequestDoc)
    requires AcceptedAs(env, a, None, m, q)
    ensures var pin := Some(env.sha(a.disk[RECORD_PATH].file.content));
            && (Alike(a, b) ==> Accepted(env, b, pin))
            && (Accepted(env, b, pin) ==> Alike(a, b) || Collides(env, a, b))
  {
    var pin := Some(env.sha(a.disk[RECORD_PATH].file.content));
    if Alike(a, b) { AlikeAccepted(env, a, b, m, q); }
    if Accepted(env, b, pin) && !Collides(env, a, b) {
      var n, p :| AcceptedAs(env, b, pin, n, p);
      PinnedOnly(env, a, b, m, q, n, p);
    }
  }
}
