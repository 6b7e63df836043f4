/**
  Portable copies of a scored bundle: the manifest that pins every file, its length, and the
  inspection that accepts a copy.

  The digest, JSON parsing, character classes, normalization and the check of source evidence are
  parameters.
*/
module BundleDelivery {
  import C = PathCollisions
  import opened PathText
  import opened RetainedTrees

  datatype Option<+T> = None | Some(value: T)

  newtype Byte = x: int | 0 <= x < 256
  type Content = seq<Byte>

  datatype Material = Material(path: string, content: Content)

  /** A dictionary is its items in path order. */
  type Materials = s: seq<Material> | InOrder(MaterialPaths(s)) witness []
  type Table = s: seq<Descriptor> | InOrder(PathsOf(s)) witness []

  datatype Descriptor = Descriptor(path: string, size: nat, sha: string)
  datatype Identity = Identity(bundle: string, candidate: string, contract: string, evaluation: string, receipt: string)

  /** withChecks: the protocol that carries source-check evidence. */
  datatype Manifest = Manifest(withChecks: bool, identity: Identity, files: Table)

  datatype Env = Env(
    sha: Content -> Sha,
    decode: Content -> Option<Manifest>,                          // strict JSON of the manifest's shape
    forbidden: char -> bool,                                      // other control, format and surrogate characters
    normal: string -> bool,                                       // already in NFC
    gitName: string -> bool,                                      // folds to .git
    fold: C.Fold,
    sourceOk: (Identity, map<string, Content>, bool) -> bool)     // source evidence against the materials

  predicate IsSha(s: string) {
    |s| == 64 && forall i | 0 <= i < 64 :: '0' <= s[i] <= '9' || 'a' <= s[i] <= 'f'
  }

  type Sha = s: string | IsSha(s) witness seq(64, _ => '0')

  const MANIFEST := "delivery.json"
  const CHECKS := "evaluation/source-checks.json"
  const MAX_PATH_BYTES := 1024
  const MAX_FILES := 64 + 64 + 32 + 6
  const MAX_MANIFEST_BYTES := 4096 + MAX_FILES * (2 * (MAX_PATH_BYTES + 7) + 128)
  const MAX_FILE_BYTES := 16 * 1024 * 1024
  const MAX_TOTAL_BYTES := 99 * 1024 * 1024

  // ------------------------------------------------------------ paths

  predicate StartsWith(s: string, p: string) { |p| <= |s| && s[..|p|] == p }

  function RemovePrefix(s: string, p: string): string { if StartsWith(s, p) then s[|p|..] else s }

  /** The part of a delivery path that the source-path rules are applied to. */
  function Strip(path: string): string { RemovePrefix(RemovePrefix(path, "source/"), "inputs/") }

  /** No character that JSON would have to write as a code. */
  predicate Plain(s: string) { forall i | 0 <= i < |s| :: s[i] as int >= 0x20 }

  /** _relative_path of candidate bundles. */
  predicate SourcePath(env: Env, s: string) {
    && 0 < |s| <= MAX_PATH_BYTES && '\\' !in s && ':' !in s && '\0' !in s
    && Plain(s) && (forall i | 0 <= i < |s| :: !env.forbidden(s[i])) && env.normal(s)
    && Utf8Length(s) <= MAX_PATH_BYTES
    && forall i | 0 <= i < |Split(s)| :: Split(s)[i] !in ["", ".", ".."] && !env.gitName(Split(s)[i])
  }

  predicate Allowed(path: string) {
    || path in ["source-bundle.json", "evaluation/report.json", "evaluation/evaluator.py", "evaluation/spec.json", CHECKS, "contract.json"]
    || StartsWith(path, "source/") || StartsWith(path, "output/") || StartsWith(path, "inputs/")
  }

  function Parts(paths: seq<string>): seq<C.Path> { seq(|paths|, i requires 0 <= i < |paths| => Split(paths[i])) }

  predicate PathAt(env: Env, paths: seq<string>, i: int) {
    0 <= i < |paths| ==> SourcePath(env, Strip(paths[i])) && Allowed(paths[i])
  }

  predicate IsChecks(path: string) { path == CHECKS }

  predicate HasChecks(paths: seq<string>) { exists i {:trigger IsChecks(paths[i])} :: 0 <= i < |paths| && IsChecks(paths[i]) }

  predicate Complete(paths: seq<string>) {
    && "source-bundle.json" in paths && "evaluation/report.json" in paths
    && exists i {:trigger StartsWith(paths[i], "source/")} :: 0 <= i < |paths| && StartsWith(paths[i], "source/")
  }

  /** _paths. */
  predicate PathsOk(env: Env, paths: seq<string>) {
    && 3 <= |paths| <= (if HasChecks(paths) then MAX_FILES else MAX_FILES - 1)
    && (forall i {:trigger PathAt(env, paths, i)} | 0 <= i < |paths| :: PathAt(env, paths, i))
    && C.Accepted(env.fold, Parts(paths))
    && Complete(paths)
  }

  lemma {:induction false} PartsPlain(s: string)
    ensures forall i | 0 <= i < |Split(s)| :: '/' !in Split(s)[i]
  {
    if s != "" { PartsPlain(s[..|s| - 1]); }
  }

  /** A delivery path is checked without the first of source/ and inputs/ that it starts with, or without both in this order. */
  lemma StripMeans(path: string)
    ensures path == (if "source/inputs/" <= path then "source/inputs/" else if "source/" <= path then "source/"
                     else if "inputs/" <= path then "inputs/" else "") + Strip(path)
  {
    var rest := RemovePrefix(path, "source/");
    assert "source/" + "inputs/" == "source/inputs/";
    if "source/inputs/" <= path {
      assert path[..14] == "source/inputs/" && rest == path[7..] && rest[..7] == path[..14][7..];
    }
    if "source/" <= path {
      assert path == "source/" + rest;
      if "inputs/" <= rest { assert path == "source/" + ("inputs/" + Strip(path)) == "source/inputs/" + Strip(path); }
    }
  }

  /** A character that a source path may hold. */
  predicate PathChar(env: Env, c: char) { c as int >= 0x20 && c != '\\' && c != ':' && !env.forbidden(c) }

  lemma {:induction false} LengthBytes(s: string)
    ensures |s| <= Utf8Length(s)
  {
    if s != "" { LengthBytes(s[1..]); }
  }

  /** A source path: short, of permitted characters, in normal form, and made of proper names. */
  lemma SourcePathMeans(env: Env, s: string)
    ensures SourcePath(env, s) <==>
      && s != "" && Utf8Length(s) <= 1024 && env.normal(s) && (forall i | 0 <= i < |s| :: PathChar(env, s[i]))
      && GoodNames(Split(s)) && forall i | 0 <= i < |Split(s)| :: !env.gitName(Split(s)[i])
  {
    PartsPlain(s);
    LengthBytes(s);
    if forall i | 0 <= i < |s| :: PathChar(env, s[i]) {
      assert forall i | 0 <= i < |s| :: s[i] as int >= 0x20 by { assert forall i | 0 <= i < |s| :: PathChar(env, s[i]); }
      assert '\\' !in s && ':' !in s && '\0' !in s;
    }
  }

  const FIXED_NAMES := ["source-bundle.json", "evaluation/report.json", "evaluation/evaluator.py", "evaluation/spec.json",
                        "evaluation/source-checks.json", "contract.json"]

  predicate Placed(p: string) { "source/" <= p || "output/" <= p || "inputs/" <= p || p in FIXED_NAMES }

  lemma AllowedMeans(p: string)
    ensures Allowed(p) <==> Placed(p)
    ensures StartsWith(p, "source/") <==> "source/" <= p
  {
  }

  lemma EachMeans(env: Env, paths: seq<string>)
    ensures (forall i | 0 <= i < |paths| :: PathAt(env, paths, i)) <==> forall p | p in paths :: SourcePath(env, Strip(p)) && Placed(p)
  {
    forall p { AllowedMeans(p); }
    if forall i | 0 <= i < |paths| :: PathAt(env, paths, i) {
      forall p | p in paths ensures SourcePath(env, Strip(p)) && Placed(p) {
        var i :| 0 <= i < |paths| && paths[i] == p;
        assert PathAt(env, paths, i);
      }
    }
  }

  lemma CompleteMeans(paths: seq<string>)
    ensures HasChecks(paths) <==> "evaluation/source-checks.json" in paths
    ensures Complete(paths) <==>
      "source-bundle.json" in paths && "evaluation/report.json" in paths && exists p :: p in paths && "source/" <= p
  {
    forall p { AllowedMeans(p); }
    if "evaluation/source-checks.json" in paths {
      var i :| 0 <= i < |paths| && paths[i] == "evaluation/source-checks.json";
      assert IsChecks(paths[i]);
    }
    if Complete(paths) {
      var i :| 0 <= i < |paths| && StartsWith(paths[i], "source/");
      assert paths[i] in paths && "source/" <= paths[i];
    }
    if p :| p in paths && "source/" <= p {
      var i :| 0 <= i < |paths| && paths[i] == p;
      assert StartsWith(paths[i], "source/");
    }
  }

  /** What the paths of a delivery may be: the two required ones, a source, and otherwise only these names and these three places. */
  lemma PathsMean(env: Env, paths: seq<string>)
    ensures PathsOk(env, paths) <==>
      && 3 <= |paths| <= 165 + (if "evaluation/source-checks.json" in paths then 1 else 0)
      && C.Accepted(env.fold, Parts(paths))
      && "source-bundle.json" in paths && "evaluation/report.json" in paths && (exists p :: p in paths && "source/" <= p)
      && forall p | p in paths :: SourcePath(env, Strip(p)) && Placed(p)
  {
    EachMeans(env, paths);
    CompleteMeans(paths);
  }

  // ------------------------------------------------------------ the encoder

  function Digit(n: nat): char requires n < 10 { ('0' as int + n) as char }

  function Decimal(n: nat): string {
    if n < 10 then [Digit(n)] else Decimal(n / 10) + [Digit(n % 10)]
  }

  /** JSON escaping of a character that is no control character (section 7 of RFC 8259). */
  function Escape(c: char): string {
    if c == '"' || c == '\\' then ['\\', c] else [c]
  }

  function EscapeAll(s: string): string {
    if s == "" then "" else Escape(s[0]) + EscapeAll(s[1..])
  }

  const SHA_KEY := "\":{\"sha256\":\""
  const SIZE_KEY := "\",\"size\":"

  /** The rest of a text after the path of an entry; the texts nest to the right, as a reader takes them apart. */
  function EntryTail(d: Descriptor, rest: string): string {
    SHA_KEY + (d.sha + (SIZE_KEY + (Decimal(d.size) + ("}" + rest))))
  }

  function Entry(d: Descriptor, rest: string): string {
    "\"" + (EscapeAll(d.path) + EntryTail(d, rest))
  }

  function Entries(files: seq<Descriptor>, rest: string): string {
    if files == [] then rest else Entry(files[0], if |files| == 1 then rest else "," + Entries(files[1..], rest))
  }

  const HEAD := "{\"files\":{"
  const BUNDLE_KEY := "},\"identity\":{\"bundle_sha256\":\""
  const CANDIDATE_KEY := "\",\"candidate_id\":\""
  const CONTRACT_KEY := "\",\"contract_sha256\":\""
  const EVALUATION_KEY := "\",\"evaluation_sha256\":\""
  const RECEIPT_KEY := "\",\"receipt_sha256\":\""
  const PROTOCOL_KEY := "\"},\"observation\":\"evaluation-time\",\"protocol\":\""
  const TAIL := "\",\"schema_version\":\"1\"}"

  function Protocol(withChecks: bool): string {
    if withChecks then "lunar-bundle-delivery-source-v1" else "lunar-bundle-delivery-v1"
  }

  function AfterEvaluation(id: Identity, withChecks: bool): string {
    EVALUATION_KEY + (id.evaluation + (RECEIPT_KEY + (id.receipt + (PROTOCOL_KEY + (Protocol(withChecks) + TAIL)))))
  }

  function AfterCandidate(id: Identity, withChecks: bool): string {
    CONTRACT_KEY + (id.contract + AfterEvaluation(id, withChecks))
  }

  function AfterFiles(id: Identity, withChecks: bool): string {
    BUNDLE_KEY + (id.bundle + (CANDIDATE_KEY + (id.candidate + AfterCandidate(id, withChecks))))
  }

  /** canonical_json of the manifest: compact, keys in order, nothing but ASCII structure and escaped paths. */
  function Encode(m: Manifest): string {
    HEAD + Entries(m.files, AfterFiles(m.identity, m.withChecks))
  }

  predicate Ends(s: string, end: string) { |end| <= |s| && s[|s| - |end|..] == end }

  lemma EndsAfter(a: string, s: string, end: string)
    requires Ends(s, end)
    ensures Ends(a + s, end)
  {
    assert (a + s)[|a + s| - |end|..] == s[|s| - |end|..];
  }

  lemma EntryEnds(d: Descriptor, rest: string, end: string)
    requires Ends(rest, end)
    ensures Ends(Entry(d, rest), end)
  {
    var e := "}" + rest;
    EndsAfter("}", rest, end);
    EndsAfter(Decimal(d.size), e, end);
    EndsAfter(SIZE_KEY, Decimal(d.size) + e, end);
    EndsAfter(d.sha, SIZE_KEY + (Decimal(d.size) + e), end);
    EndsAfter(SHA_KEY, d.sha + (SIZE_KEY + (Decimal(d.size) + e)), end);
    EndsAfter(EscapeAll(d.path), EntryTail(d, rest), end);
    EndsAfter("\"", EscapeAll(d.path) + EntryTail(d, rest), end);
  }

  lemma {:induction false} EntriesEnd(files: seq<Descriptor>, rest: string, end: string)
    requires Ends(rest, end)
    ensures Ends(Entries(files, rest), end)
  {
    if |files| == 1 {
      EntryEnds(files[0], rest, end);
    } else if files != [] {
      EntriesEnd(files[1..], rest, end);
      EndsAfter(",", Entries(files[1..], rest), end);
      EntryEnds(files[0], "," + Entries(files[1..], rest), end);
    }
  }

  lemma IdentityEnds(id: Identity, withChecks: bool, end: string)
    requires Ends(Protocol(withChecks) + TAIL, end)
    ensures Ends(AfterFiles(id, withChecks), end)
  {
    var p := Protocol(withChecks) + TAIL;
    EndsAfter(PROTOCOL_KEY, p, end);
    EndsAfter(id.receipt, PROTOCOL_KEY + p, end);
    EndsAfter(RECEIPT_KEY, id.receipt + (PROTOCOL_KEY + p), end);
    EndsAfter(id.evaluation, RECEIPT_KEY + (id.receipt + (PROTOCOL_KEY + p)), end);
    EndsAfter(EVALUATION_KEY, id.evaluation + (RECEIPT_KEY + (id.receipt + (PROTOCOL_KEY + p))), end);
    var e := AfterEvaluation(id, withChecks);
    EndsAfter(id.contract, e, end);
    EndsAfter(CONTRACT_KEY, id.contract + e, end);
    var c := AfterCandidate(id, withChecks);
    EndsAfter(id.candidate, c, end);
    EndsAfter(CANDIDATE_KEY, id.candidate + c, end);
    EndsAfter(id.bundle, CANDIDATE_KEY + (id.candidate + c), end);
    EndsAfter(BUNDLE_KEY, id.bundle + (CANDIDATE_KEY + (id.candidate + c)), end);
  }

  /** Every manifest ends with its protocol, which says whether it carries source checks, and the schema version. */
  lemma ProtocolWritten(m: Manifest)
    ensures m.withChecks ==> Ends(Encode(m), "lunar-bundle-delivery-source-v1" + TAIL)
    ensures !m.withChecks ==> Ends(Encode(m), "lunar-bundle-delivery-v1" + TAIL)
  {
    var p := Protocol(m.withChecks);
    IdentityEnds(m.identity, m.withChecks, p + TAIL);
    EntriesEnd(m.files, AfterFiles(m.identity, m.withChecks), p + TAIL);
    EndsAfter(HEAD, Entries(m.files, AfterFiles(m.identity, m.withChecks)), p + TAIL);
  }

  function Utf8Char(c: char): (b: Content)
    ensures |b| == Utf8Bytes(c)
  {
    var n := c as int;
    if n < 0x80 then [n as Byte]
    else if n < 0x800 then [(0xC0 + n / 0x40) as Byte, (0x80 + n % 0x40) as Byte]
    else if n < 0x10000 then [(0xE0 + n / 0x1000) as Byte, (0x80 + n / 0x40 % 0x40) as Byte, (0x80 + n % 0x40) as Byte]
    else [(0xF0 + n / 0x40000) as Byte, (0x80 + n / 0x1000 % 0x40) as Byte, (0x80 + n / 0x40 % 0x40) as Byte, (0x80 + n % 0x40) as Byte]
  }

  function Utf8(s: string): (b: Content)
    ensures |b| == Utf8Length(s)
  {
    if s == "" then [] else Utf8Char(s[0]) + Utf8(s[1..])
  }

  // ------------------------------------------------------------ what a manifest may hold

  predicate SafeChar(c: char) { 'A' <= c <= 'Z' || 'a' <= c <= 'z' || '0' <= c <= '9' }

  predicate IdentityOk(id: Identity) {
    && IsSha(id.bundle) && IsSha(id.contract) && IsSha(id.evaluation) && IsSha(id.receipt)
    && 0 < |id.candidate| <= 128 && SafeChar(id.candidate[0])
    && forall i | 0 < i < |id.candidate| :: SafeChar(id.candidate[i]) || id.candidate[i] in "_.-"
  }

  function MaterialPaths(materials: seq<Material>): (r: seq<string>)
    ensures |r| == |materials| && forall i | 0 <= i < |materials| :: r[i] == materials[i].path
  {
    seq(|materials|, i requires 0 <= i < |materials| => materials[i].path)
  }

  predicate InOrder(paths: seq<string>) { forall i, j | 0 <= i < j < |paths| :: Before(paths[i], paths[j]) }

  function PathsOf(files: seq<Descriptor>): (r: seq<string>)
    ensures |r| == |files| && forall i | 0 <= i < |files| :: r[i] == files[i].path
  {
    seq(|files|, i requires 0 <= i < |files| => files[i].path)
  }

  function Total(files: seq<Descriptor>): nat {
    if files == [] then 0 else Total(files[..|files| - 1]) + files[|files| - 1].size
  }

  predicate FilesOk(env: Env, files: seq<Descriptor>) {
    && PathsOk(env, PathsOf(files)) && Total(files) <= MAX_TOTAL_BYTES
    && forall i | 0 <= i < |files| :: files[i].size <= MAX_FILE_BYTES
  }

  predicate ShaAt(files: seq<Descriptor>, i: int) { 0 <= i < |files| ==> IsSha(files[i].sha) }

  predicate Digests(files: seq<Descriptor>) { forall i {:trigger ShaAt(files, i)} | 0 <= i < |files| :: ShaAt(files, i) }

  // ------------------------------------------------------------ the manifest always fits

  lemma {:induction false} EscapeAppend(a: string, b: string)
    ensures EscapeAll(a + b) == EscapeAll(a) + EscapeAll(b)
  {
    if a == "" {
      assert a + b == b;
    } else {
      assert (a + b)[1..] == a[1..] + b;
      EscapeAppend(a[1..], b);
    }
  }

  /** At most two bytes for each byte: only quotes (and backslashes) grow. */
  lemma {:induction false} EscapeDoubles(s: string)
    ensures Utf8Length(EscapeAll(s)) <= 2 * Utf8Length(s)
  {
    if s != "" {
      EscapeDoubles(s[1..]);
      Utf8Append(Escape(s[0]), EscapeAll(s[1..]));
      var e := Escape(s[0]);
      assert |e| == 2 ==> e[1..] == [s[0]] && [s[0]][1..] == "";
      assert |e| == 1 ==> e[1..] == "";
      assert Utf8Length("") == 0;
    }
  }

  lemma {:induction false} EscapePlain(s: string)
    requires forall i | 0 <= i < |s| :: s[i] != '"' && s[i] != '\\'
    ensures EscapeAll(s) == s
  {
    if s != "" { EscapePlain(s[1..]); }
  }

  lemma PrefixAdds(p: string, s: string)
    requires |p| == 7 && Ascii(p) && forall i | 0 <= i < |p| :: p[i] != '"' && p[i] != '\\'
    ensures Utf8Length(EscapeAll(s)) <= 7 + Utf8Length(EscapeAll(RemovePrefix(s, p)))
  {
    if StartsWith(s, p) {
      assert s == p + s[7..];
      EscapeAppend(p, s[7..]);
      EscapePlain(p);
      AsciiLength(p);
      Utf8Append(p, EscapeAll(s[7..]));
    }
  }

  /** Both prefixes together cost fourteen bytes, and they never need escaping. */
  lemma PathFits(env: Env, path: string)
    requires SourcePath(env, Strip(path))
    ensures Utf8Length(EscapeAll(path)) <= 14 + 2 * MAX_PATH_BYTES
  {
    PrefixAdds("source/", path);
    PrefixAdds("inputs/", RemovePrefix(path, "source/"));
    EscapeDoubles(Strip(path));
  }

  function Pow10(k: nat): nat { if k == 0 then 1 else 10 * Pow10(k - 1) }

  lemma {:induction false} DecimalFits(n: nat, k: nat)
    requires k >= 1 && n < Pow10(k)
    ensures |Decimal(n)| <= k && Ascii(Decimal(n))
    decreases k
  {
    if n >= 10 {
      assert k > 1;
      DecimalFits(n / 10, k - 1);
    }
  }

  lemma ShaLength(sha: string)
    requires IsSha(sha)
    ensures Utf8Length(SHA_KEY + sha) == 77
  {
    assert |SHA_KEY| == 13 && Ascii(SHA_KEY);
    AsciiLength(SHA_KEY + sha);
  }

  lemma SizeLength(size: nat)
    requires size <= MAX_FILE_BYTES
    ensures Utf8Length(SIZE_KEY + Decimal(size)) <= 17
  {
    assert Pow10(8) == 100_000_000 by { assert Pow10(4) == 10_000; }
    DecimalFits(size, 8);
    assert |SIZE_KEY| == 9 && Ascii(SIZE_KEY);
    AsciiLength(SIZE_KEY + Decimal(size));
  }

  lemma EntryFits(env: Env, d: Descriptor, rest: string)
    requires SourcePath(env, Strip(d.path)) && d.size <= MAX_FILE_BYTES && IsSha(d.sha)
    ensures Utf8Length(Entry(d, rest)) <= 2158 + Utf8Length(rest)
  {
    PathFits(env, d.path);
    Utf8Append("\"", EscapeAll(d.path) + EntryTail(d, rest));
    Utf8Append(EscapeAll(d.path), EntryTail(d, rest));
    AsciiLength("\"");
    TailFits(d, rest);
  }

  lemma TailFits(d: Descriptor, rest: string)
    requires d.size <= MAX_FILE_BYTES && IsSha(d.sha)
    ensures Utf8Length(EntryTail(d, rest)) <= 95 + Utf8Length(rest)
  {
    var sizes := SIZE_KEY + (Decimal(d.size) + ("}" + rest));
    ShaLength(d.sha);
    SizesFit(d.size, rest);
    Utf8Append(SHA_KEY, d.sha + sizes);
    Utf8Append(d.sha, sizes);
    Utf8Append(SHA_KEY, d.sha);
  }

  lemma SizesFit(size: nat, rest: string)
    requires size <= MAX_FILE_BYTES
    ensures Utf8Length(SIZE_KEY + (Decimal(size) + ("}" + rest))) <= 18 + Utf8Length(rest)
  {
    SizeLength(size);
    Utf8Append(SIZE_KEY, Decimal(size) + ("}" + rest));
    Utf8Append(Decimal(size), "}" + rest);
    Utf8Append(SIZE_KEY, Decimal(size));
    Utf8Append("}", rest);
    AsciiLength("}");
  }

  lemma {:induction false} EntriesFit(env: Env, files: seq<Descriptor>, rest: string)
    requires forall i | 0 <= i < |files| :: SourcePath(env, Strip(files[i].path)) && files[i].size <= MAX_FILE_BYTES && IsSha(files[i].sha)
    ensures Utf8Length(Entries(files, rest)) <= |files| * 2159 + Utf8Length(rest)
  {
    if files != [] {
      var more := Entries(files[1..], rest);
      EntriesFit(env, files[1..], rest);
      AsciiLength(",");
      Utf8Append(",", more);
      EntryFits(env, files[0], if |files| == 1 then rest else "," + more);
    }
  }

  lemma {:induction false} Utf8AtMost(s: string)
    ensures Utf8Length(s) <= 4 * |s|
  {
    if s != "" { Utf8AtMost(s[1..]); }
  }

  lemma AfterFits(id: Identity, withChecks: bool)
    requires IdentityOk(id)
    ensures Utf8Length(AfterFiles(id, withChecks)) <= 4 * 620
  {
    assert |BUNDLE_KEY| + |CANDIDATE_KEY| + |CONTRACT_KEY| + |EVALUATION_KEY| + |RECEIPT_KEY| + |PROTOCOL_KEY| + |TAIL| <= 200;
    assert |Protocol(withChecks)| <= 31;
    Utf8AtMost(AfterFiles(id, withChecks));
  }

  lemma EachFile(env: Env, files: seq<Descriptor>)
    requires FilesOk(env, files) && Digests(files)
    ensures 3 <= |files| <= MAX_FILES
    ensures forall i | 0 <= i < |files| :: SourcePath(env, Strip(files[i].path)) && files[i].size <= MAX_FILE_BYTES && IsSha(files[i].sha)
  {
    var paths := PathsOf(files);
    forall i | 0 <= i < |files| ensures SourcePath(env, Strip(files[i].path)) && IsSha(files[i].sha) {
      assert PathAt(env, paths, i) && paths[i] == files[i].path && ShaAt(files, i);
    }
  }

  /** Every manifest over valid paths fits its limit, whatever the paths and even at all three caps. */
  lemma ManifestFits(env: Env, m: Manifest)
    requires FilesOk(env, m.files) && Digests(m.files) && IdentityOk(m.identity)
    ensures Utf8Length(Encode(m)) <= MAX_MANIFEST_BYTES
  {
    EachFile(env, m.files);
    EntriesFit(env, m.files, AfterFiles(m.identity, m.withChecks));
    AfterFits(m.identity, m.withChecks);
    Utf8AtMost(HEAD);
    Utf8Append(HEAD, Entries(m.files, AfterFiles(m.identity, m.withChecks)));
  }

  // ------------------------------------------------------------ the encoding can be read back

  /** What the encoder is given: well formed digests and candidate names, paths that need no code. */
  predicate Canonical(m: Manifest) {
    IdentityOk(m.identity) && Digests(m.files) && forall i | 0 <= i < |m.files| :: Plain(m.files[i].path)
  }

  /** Texts without c, each followed by a c, end at the same place. */
  lemma CutAt(a: string, r: string, b: string, s: string, c: char)
    requires c !in a && c !in b && r != "" && s != "" && r[0] == s[0] == c && a + r == b + s
    ensures a == b && r == s
  {
    assert (a + r)[|a|] == r[0] && (b + s)[|b|] == s[0];
    CutEqual(a, r, b, s);
  }

  lemma CutEqual(a: string, r: string, b: string, s: string)
    requires |a| == |b| && a + r == b + s
    ensures a == b && r == s
  {
    assert (a + r)[..|a|] == a && (b + s)[..|b|] == b;
    assert (a + r)[|a|..] == r && (b + s)[|b|..] == s;
  }

  /** An escaped text ends at the first quote that is not escaped. */
  lemma {:induction false} EscapedApart(a: string, r: string, b: string, s: string)
    requires r != "" && s != "" && r[0] == s[0] == '"' && EscapeAll(a) + r == EscapeAll(b) + s
    ensures a == b && r == s
    decreases |a|
  {
    var x, y := EscapeAll(a) + r, EscapeAll(b) + s;
    if a != "" { assert x == Escape(a[0]) + (EscapeAll(a[1..]) + r) && x[0] == Escape(a[0])[0]; }
    if b != "" { assert y == Escape(b[0]) + (EscapeAll(b[1..]) + s) && y[0] == Escape(b[0])[0]; }
    assert (a == "" ==> x == r) && (b == "" ==> y == s) && x[0] == y[0];
    if a != "" && b != "" {
      assert Escape(a[0])[0] == Escape(b[0])[0];
      assert |Escape(a[0])| == |Escape(b[0])|;
      CutEqual(Escape(a[0]), EscapeAll(a[1..]) + r, Escape(b[0]), EscapeAll(b[1..]) + s);
      EscapedApart(a[1..], r, b[1..], s);
      assert a == [a[0]] + a[1..] && b == [b[0]] + b[1..];
    }
  }

  lemma {:induction false} DecimalDigits(n: nat)
    ensures |Decimal(n)| > 0 && forall i | 0 <= i < |Decimal(n)| :: '0' <= Decimal(n)[i] <= '9'
  {
    if n >= 10 { DecimalDigits(n / 10); }
  }

  lemma {:induction false} DecimalApart(m: nat, n: nat)
    requires Decimal(m) == Decimal(n)
    ensures m == n
  {
    DecimalParts(m);
    DecimalParts(n);
    if m >= 10 && n >= 10 { DecimalApart(m / 10, n / 10); }
  }

  lemma DecimalParts(n: nat)
    ensures var d := Decimal(n);
            |d| >= 1 && d[|d| - 1] == Digit(n % 10) && (|d| == 1 <==> n < 10) && (n >= 10 ==> d[..|d| - 1] == Decimal(n / 10))
  {
    if n >= 10 { DecimalDigits(n / 10); }
  }

  lemma EntryApart(a: Descriptor, r: string, b: Descriptor, s: string)
    requires IsSha(a.sha) && IsSha(b.sha) && Entry(a, r) == Entry(b, s)
    ensures a == b && r == s
  {
    var x, y := EntryTail(a, r), EntryTail(b, s);
    CutEqual("\"", EscapeAll(a.path) + x, "\"", EscapeAll(b.path) + y);
    assert x[0] == SHA_KEY[0] == y[0];
    EscapedApart(a.path, x, b.path, y);
    EntryTailApart(a, r, b, s);
  }

  lemma EntryTailApart(a: Descriptor, r: string, b: Descriptor, s: string)
    requires IsSha(a.sha) && IsSha(b.sha) && EntryTail(a, r) == EntryTail(b, s)
    ensures a.sha == b.sha && a.size == b.size && r == s
  {
    var x, y := Decimal(a.size) + ("}" + r), Decimal(b.size) + ("}" + s);
    CutEqual(SHA_KEY, a.sha + (SIZE_KEY + x), SHA_KEY, b.sha + (SIZE_KEY + y));
    CutEqual(a.sha, SIZE_KEY + x, b.sha, SIZE_KEY + y);
    CutEqual(SIZE_KEY, x, SIZE_KEY, y);
    DecimalDigits(a.size);
    DecimalDigits(b.size);
    CutAt(Decimal(a.size), "}" + r, Decimal(b.size), "}" + s, '}');
    CutEqual("}", r, "}", s);
    DecimalApart(a.size, b.size);
  }

  lemma RestDigests(files: seq<Descriptor>)
    requires files != [] && Digests(files)
    ensures IsSha(files[0].sha) && Digests(files[1..])
  {
    assert ShaAt(files, 0);
    forall i | 0 <= i < |files| - 1 ensures ShaAt(files[1..], i) { assert ShaAt(files, i + 1); }
  }

  /** The entries end where the object closes. */
  lemma {:induction false} EntriesApart(a: seq<Descriptor>, r: string, b: seq<Descriptor>, s: string)
    requires Digests(a) && Digests(b) && r != "" && s != "" && r[0] == s[0] == '}' && Entries(a, r) == Entries(b, s)
    ensures a == b && r == s
    decreases |a|
  {
    if a != [] { assert Entries(a, r)[0] == '"'; }
    if b != [] { assert Entries(b, s)[0] == '"'; }
    if a != [] && b != [] {
      RestDigests(a);
      RestDigests(b);
      var x := if |a| == 1 then r else "," + Entries(a[1..], r);
      var y := if |b| == 1 then s else "," + Entries(b[1..], s);
      EntryApart(a[0], x, b[0], y);
      assert x[0] == y[0] && a == [a[0]] + a[1..] && b == [b[0]] + b[1..];
      if |a| > 1 {
        CutEqual(",", Entries(a[1..], r), ",", Entries(b[1..], s));
        EntriesApart(a[1..], r, b[1..], s);
      } else {
        assert a[1..] == [] && b[1..] == [];
      }
    }
  }

  lemma EvaluationApart(a: Identity, x: bool, b: Identity, y: bool)
    requires IdentityOk(a) && IdentityOk(b) && AfterEvaluation(a, x) == AfterEvaluation(b, y)
    ensures a.evaluation == b.evaluation && a.receipt == b.receipt && x == y
  {
    var r, s := PROTOCOL_KEY + (Protocol(x) + TAIL), PROTOCOL_KEY + (Protocol(y) + TAIL);
    CutEqual(EVALUATION_KEY, a.evaluation + (RECEIPT_KEY + (a.receipt + r)), EVALUATION_KEY, b.evaluation + (RECEIPT_KEY + (b.receipt + s)));
    CutEqual(a.evaluation, RECEIPT_KEY + (a.receipt + r), b.evaluation, RECEIPT_KEY + (b.receipt + s));
    CutEqual(RECEIPT_KEY, a.receipt + r, RECEIPT_KEY, b.receipt + s);
    CutEqual(a.receipt, r, b.receipt, s);
    CutEqual(PROTOCOL_KEY, Protocol(x) + TAIL, PROTOCOL_KEY, Protocol(y) + TAIL);
    assert |Protocol(true)| != |Protocol(false)|;
  }

  lemma CandidateNoQuote(id: Identity)
    requires IdentityOk(id)
    ensures '"' !in id.candidate
  {
    assert forall i | 0 < i < |id.candidate| :: id.candidate[i] != '"';
  }

  lemma IdentityApart(a: Identity, x: bool, b: Identity, y: bool)
    requires IdentityOk(a) && IdentityOk(b) && AfterFiles(a, x) == AfterFiles(b, y)
    ensures a == b && x == y
  {
    var r, s := AfterCandidate(a, x), AfterCandidate(b, y);
    CutEqual(BUNDLE_KEY, a.bundle + (CANDIDATE_KEY + (a.candidate + r)), BUNDLE_KEY, b.bundle + (CANDIDATE_KEY + (b.candidate + s)));
    CutEqual(a.bundle, CANDIDATE_KEY + (a.candidate + r), b.bundle, CANDIDATE_KEY + (b.candidate + s));
    CutEqual(CANDIDATE_KEY, a.candidate + r, CANDIDATE_KEY, b.candidate + s);
    CandidateNoQuote(a);
    CandidateNoQuote(b);
    CutAt(a.candidate, r, b.candidate, s, '"');
    CutEqual(CONTRACT_KEY, a.contract + AfterEvaluation(a, x), CONTRACT_KEY, b.contract + AfterEvaluation(b, y));
    CutEqual(a.contract, AfterEvaluation(a, x), b.contract, AfterEvaluation(b, y));
    EvaluationApart(a, x, b, y);
  }

  /** Two manifests that the encoder is ever given are never written alike. */
  lemma EncodingApart(a: Manifest, b: Manifest)
    requires Canonical(a) && Canonical(b) && Encode(a) == Encode(b)
    ensures a == b
  {
    var r, s := AfterFiles(a.identity, a.withChecks), AfterFiles(b.identity, b.withChecks);
    CutEqual(HEAD, Entries(a.files, r), HEAD, Entries(b.files, s));
    assert r[0] == BUNDLE_KEY[0] == s[0];
    EntriesApart(a.files, r, b.files, s);
    IdentityApart(a.identity, a.withChecks, b.identity, b.withChecks);
  }

  /** What the bytes of a character say. */
  function CodePoint(b: Content): int
    requires 1 <= |b| <= 4
  {
    var d := seq(|b|, i requires 0 <= i < |b| => b[i] as int);
    if |b| == 1 then d[0]
    else if |b| == 2 then (d[0] - 0xC0) * 0x40 + (d[1] - 0x80)
    else if |b| == 3 then ((d[0] - 0xE0) * 0x40 + (d[1] - 0x80)) * 0x40 + (d[2] - 0x80)
    else (((d[0] - 0xF0) * 0x40 + (d[1] - 0x80)) * 0x40 + (d[2] - 0x80)) * 0x40 + (d[3] - 0x80)
  }

  function Width(first: Byte): nat { if first < 0x80 then 1 else if first < 0xE0 then 2 else if first < 0xF0 then 3 else 4 }

  lemma CharBytes(c: char)
    ensures var b := Utf8Char(c); |b| == Width(b[0]) && CodePoint(b) == c as int
  {
    var n := c as int;
    assert n / 0x40 / 0x40 == n / 0x1000 && n / 0x1000 / 0x40 == n / 0x40000;
  }

  lemma Utf8CharApart(c: char, r: Content, d: char, s: Content)
    requires Utf8Char(c) + r == Utf8Char(d) + s
    ensures c == d && r == s
  {
    CharBytes(c);
    CharBytes(d);
    BytesApart(Utf8Char(c), r, Utf8Char(d), s);
  }

  lemma BytesApart(x: Content, r: Content, y: Content, s: Content)
    requires x != [] && y != [] && |x| == Width(x[0]) && |y| == Width(y[0]) && x + r == y + s
    ensures x == y && r == s
  {
    assert (x + r)[0] == x[0] && (y + s)[0] == y[0];
    assert (x + r)[..|x|] == x && (y + s)[..|y|] == y;
    assert (x + r)[|x|..] == r && (y + s)[|y|..] == s;
  }

  lemma {:induction false} Utf8Apart(a: string, b: string)
    requires Utf8(a) == Utf8(b)
    ensures a == b
  {
    if a != "" && b != "" {
      Utf8CharApart(a[0], Utf8(a[1..]), b[0], Utf8(b[1..]));
      Utf8Apart(a[1..], b[1..]);
      assert a == [a[0]] + a[1..] && b == [b[0]] + b[1..];
    }
  }

  /** The parser undoes the encoder on every manifest that the encoder is ever given. */
  ghost predicate Faithful(env: Env) {
    forall m {:trigger Encode(m)} | Canonical(m) :: env.decode(Utf8(Encode(m))) == Some(m)
  }

  ghost predicate Writes(m: Manifest, raw: Content) { Canonical(m) && Utf8(Encode(m)) == raw }

  ghost function ReadBack(raw: Content): Option<Manifest> {
    if exists m :: Writes(m, raw) then (var m :| Writes(m, raw); Some(m)) else None
  }

  /** Such a parser exists, whatever the other parameters are. */
  lemma FaithfulParser(env: Env)
    ensures Faithful(env.(decode := raw => ReadBack(raw)))
  {
    forall m | Canonical(m) ensures ReadBack(Utf8(Encode(m))) == Some(m) {
      assert Writes(m, Utf8(Encode(m)));
      var n := ReadBack(Utf8(Encode(m))).value;
      assert Writes(n, Utf8(Encode(m)));
      Utf8Apart(Encode(m), Encode(n));
      EncodingApart(m, n);
    }
  }

  // ------------------------------------------------------------ publishing and inspecting a copy

  function Describe(env: Env, materials: seq<Material>): (r: seq<Descriptor>)
    ensures |r| == |materials|
    ensures forall i | 0 <= i < |r| :: r[i] == Descriptor(materials[i].path, |materials[i].content|, env.sha(materials[i].content))
  {
    seq(|materials|, i requires 0 <= i < |materials| => Descriptor(materials[i].path, |materials[i].content|, env.sha(materials[i].content)))
  }

  /** A delivery copy: everything below its directory. */
  type Copy = Disk<Content>

  const MANIFEST_PATH: Path := [MANIFEST]

  predicate HoldsFile(copy: Copy, p: Path) { p in copy && copy[p].Regular? }

  function MapOf(materials: seq<Material>): (m: map<string, Content>)
    ensures m.Keys == PathSet(materials)
  {
    if materials == [] then map[] else
    var last := materials[|materials| - 1];
    MapOf(materials[..|materials| - 1])[last.path := last.content]
  }

  function PathSet(materials: seq<Material>): set<string> {
    if materials == [] then {} else PathSet(materials[..|materials| - 1]) + {materials[|materials| - 1].path}
  }

  lemma {:induction false} MapOfAt(materials: seq<Material>, i: nat)
    requires i < |materials| && DistinctMaterials(materials)
    ensures materials[i].path in MapOf(materials) && MapOf(materials)[materials[i].path] == materials[i].content
  {
    var n := |materials| - 1;
    if i < n {
      MapOfAt(materials[..n], i);
      assert materials[i].path != materials[n].path;
    }
  }

  lemma {:induction false} PathSetAt(materials: seq<Material>, p: string) returns (i: nat)
    requires p in PathSet(materials)
    ensures i < |materials| && materials[i].path == p
  {
    var n := |materials| - 1;
    if materials[n].path == p { i := n; } else { i := PathSetAt(materials[..n], p); }
  }

  function ManifestOf(env: Env, identity: Identity, materials: Materials): Manifest {
    assert InOrder(MaterialPaths(materials)) && PathsOf(Describe(env, materials)) == MaterialPaths(materials);
    Manifest(HasChecks(PathsOf(Describe(env, materials))), identity, Describe(env, materials))
  }

  predicate DistinctMaterials(materials: seq<Material>) {
    forall i, j | 0 <= i < j < |materials| :: materials[i].path != materials[j].path
  }

  lemma PathsDiffer(materials: Materials)
    ensures DistinctMaterials(materials)
  {
    var paths := MaterialPaths(materials);
    forall i, j | 0 <= i < j < |materials| ensures materials[i].path != materials[j].path {
      assert Before(paths[i], paths[j]);
      BeforeTotal(paths[i], paths[j]);
    }
  }

  /** A manifest that was built is one that the encoder is ever given. */
  lemma BuiltCanonical(env: Env, identity: Identity, materials: Materials)
    requires Publishable(env, identity, materials)
    ensures Canonical(ManifestOf(env, identity, materials))
  {
    var files := ManifestOf(env, identity, materials).files;
    forall i | 0 <= i < |files| ensures ShaAt(files, i) && Plain(files[i].path) {
      assert PathAt(env, PathsOf(files), i);
      StripPlain(files[i].path);
    }
  }

  lemma StripPlain(path: string)
    requires Plain(Strip(path))
    ensures Plain(path)
  {
    forall i | 0 <= i < |path| ensures path[i] as int >= 0x20 {
      var rest := RemovePrefix(path, "source/");
      if StartsWith(path, "source/") && i < 7 {
        assert path[i] == path[..7][i] == "source/"[i];
      } else {
        var j := i - (|path| - |rest|);
        assert rest[j] == path[i];
        if StartsWith(rest, "inputs/") && j < 7 {
          assert rest[j] == rest[..7][j] == "inputs/"[j];
        } else {
          assert Strip(path)[j - (|rest| - |Strip(path)|)] == rest[j];
        }
      }
    }
  }

  /** What bundle_delivery_manifest demands, short of the manifest's own size. */
  predicate Publishable(env: Env, identity: Identity, materials: Materials) {
    && IdentityOk(identity) && FilesOk(env, Describe(env, materials))
    && env.sourceOk(identity, MapOf(materials), ManifestOf(env, identity, materials).withChecks)
  }

  function RawOf(env: Env, identity: Identity, materials: Materials): Content {
    Utf8(Encode(ManifestOf(env, identity, materials)))
  }

  /** The files of a copy: the materials under their paths, and the manifest. */
  function PutsOf(materials: Materials, raw: Content): (puts: seq<Put<Content>>)
    ensures |puts| == |materials| + 1 && puts[|materials|] == Put(MANIFEST_PATH, raw)
    ensures forall i | 0 <= i < |materials| :: puts[i] == Put(Split(materials[i].path), materials[i].content)
  {
    seq(|materials| + 1, i requires 0 <= i <= |materials| =>
      if i < |materials| then Put(Split(materials[i].path), materials[i].content) else Put(MANIFEST_PATH, raw))
  }

  lemma AllowedStart(path: string)
    requires Allowed(path)
    ensures path != "" && path[0] != '/' && path[0] != 'd'
  {
    assert StartsWith(path, "source/") ==> path[0] == path[..7][0];
    assert StartsWith(path, "output/") ==> path[0] == path[..7][0];
    assert StartsWith(path, "inputs/") ==> path[0] == path[..7][0];
  }

  lemma PartsApart(fold: C.Fold, paths: seq<string>, i: nat, j: nat)
    requires C.Accepted(fold, Parts(paths)) && i < |paths| && j < |paths| && i != j
    ensures Split(paths[i]) != Split(paths[j]) && !Within(Split(paths[i]), Split(paths[j]))
  {
    var a, b := Parts(paths)[i], Parts(paths)[j];
    assert a in Parts(paths) && b in Parts(paths) && C.Compatible(fold, a, b);
    if |a| <= |b| {
      assert a[..|a|] == a;
      assert C.Coexist(fold, a, |a|, b, |a|);
    }
  }

  /** No material lies at or below the manifest's place. */
  lemma NotManifest(env: Env, paths: seq<string>, i: nat)
    requires PathsOk(env, paths) && i < |paths|
    ensures Split(paths[i])[0] != MANIFEST
  {
    assert PathAt(env, paths, i);
    AllowedStart(paths[i]);
    SplitFirst(paths[i]);
  }

  lemma ManifestApart(p: Path)
    requires p != [] && p[0] != MANIFEST
    ensures p != MANIFEST_PATH && !Within(p, MANIFEST_PATH) && !Within(MANIFEST_PATH, p)
  {
    assert p[..1][0] == p[0];
  }

  /** No file of a copy stands in the way of another. */
  lemma PutsApart(env: Env, identity: Identity, materials: Materials, raw: Content)
    requires Publishable(env, identity, materials)
    ensures Apart(PutsOf(materials, raw)) && forall i | 0 <= i < |materials| + 1 :: PutsOf(materials, raw)[i].path != []
  {
    var puts, paths, n := PutsOf(materials, raw), PathsOf(Describe(env, materials)), |materials|;
    assert forall i | 0 <= i < n :: puts[i].path == Split(paths[i]);
    forall i, j | 0 <= i <= n && 0 <= j <= n && i != j ensures puts[i].path != puts[j].path && !Within(puts[i].path, puts[j].path) {
      if i < n { NotManifest(env, paths, i); ManifestApart(puts[i].path); }
      if j < n { NotManifest(env, paths, j); ManifestApart(puts[j].path); }
      if i < n && j < n { PartsApart(env.fold, paths, i, j); }
    }
  }

  // ------------------------------------------------------------ inspecting a copy

  predicate FileMatches(env: Env, copy: Copy, d: Descriptor) {
    && HoldsFile(copy, Split(d.path))
    && |copy[Split(d.path)].file| == d.size && env.sha(copy[Split(d.path)].file) == d.sha
  }

  function FilePaths(files: seq<Descriptor>): set<string> {
    if files == [] then {} else FilePaths(files[..|files| - 1]) + {files[|files| - 1].path}
  }

  /** Where a copy holds the described files and its manifest. */
  function ExpectedPaths(files: seq<Descriptor>): set<Path> {
    {MANIFEST_PATH} + set p | p in FilePaths(files) :: Split(p)
  }

  /** What reading the described files gives. */
  function Contents(copy: Copy, files: seq<Descriptor>): map<string, Content> {
    map p | p in FilePaths(files) && HoldsFile(copy, Split(p)) :: copy[Split(p)].file
  }

  /** The copy holds what the manifest says, and nothing else. */
  ghost predicate Carries(env: Env, copy: Copy, m: Manifest) {
    && IdentityOk(m.identity) && FilesOk(env, m.files)
    && (forall i {:trigger FileMatches(env, copy, m.files[i])} | 0 <= i < |m.files| :: FileMatches(env, copy, m.files[i]))
    && env.sourceOk(m.identity, Contents(copy, m.files), m.withChecks)
    && Exactly(copy, ExpectedPaths(m.files))
  }

  /** What an inspection accepts. */
  ghost predicate Intact(env: Env, copy: Copy, expected: Option<string>) {
    HoldsFile(copy, MANIFEST_PATH) &&
    var raw := copy[MANIFEST_PATH].file;
    && |raw| <= MAX_MANIFEST_BYTES && env.decode(raw).Some? && Utf8(Encode(env.decode(raw).value)) == raw
    && (expected.Some? ==> env.sha(raw) == expected.value)
    && Carries(env, copy, env.decode(raw).value)
  }

  /** The reading loop of an inspection. */
  method ReadFiles(env: Env, copy: Copy, files: seq<Descriptor>) returns (ok: bool)
    ensures ok <==>
      && Total(files) <= MAX_TOTAL_BYTES
      && forall i | 0 <= i < |files| :: files[i].size <= MAX_FILE_BYTES && FileMatches(env, copy, files[i])
  {
    var total, i := 0, 0;
    while i < |files|
      invariant 0 <= i <= |files| && total == Total(files[..i]) <= MAX_TOTAL_BYTES
      invariant forall j | 0 <= j < i :: files[j].size <= MAX_FILE_BYTES && FileMatches(env, copy, files[j])
    {
      if files[i].size > MAX_FILE_BYTES { return false; }
      total := total + files[i].size;
      assert files[..i + 1][..i] == files[..i];
      if total > MAX_TOTAL_BYTES {
        TotalGrows(files, i + 1);
        return false;
      }
      if !FileMatches(env, copy, files[i]) { return false; }
      i := i + 1;
    }
    assert files[..i] == files;
    return true;
  }

  lemma {:induction false} FilePathAt(files: seq<Descriptor>, p: string) returns (i: nat)
    requires p in FilePaths(files)
    ensures i < |files| && files[i].path == p
  {
    var n := |files| - 1;
    if files[n].path == p { i := n; } else { i := FilePathAt(files[..n], p); }
  }

  /** Once all the files were read, every expected name is a file. */
  lemma ExpectedFiles(env: Env, copy: Copy, files: seq<Descriptor>)
    requires FilesOk(env, files) && HoldsFile(copy, MANIFEST_PATH)
    requires forall i {:trigger FileMatches(env, copy, files[i])} | 0 <= i < |files| :: FileMatches(env, copy, files[i])
    ensures [] !in ExpectedPaths(files) && forall q | q in ExpectedPaths(files) && q in copy :: copy[q].Regular?
  {
    forall p | p in FilePaths(files) ensures HoldsFile(copy, Split(p)) && Split(p) != [] {
      var i := FilePathAt(files, p);
      assert FileMatches(env, copy, files[i]);
    }
  }

  method CheckFiles(env: Env, copy: Copy, m: Manifest) returns (ok: bool)
    requires HoldsFile(copy, MANIFEST_PATH)
    ensures ok <==> Carries(env, copy, m)
  {
    if !IdentityOk(m.identity) || !PathsOk(env, PathsOf(m.files)) { return false; }
    var read := ReadFiles(env, copy, m.files);
    if !read || !env.sourceOk(m.identity, Contents(copy, m.files), m.withChecks) { return false; }
    ExpectedFiles(env, copy, m.files);
    ok := Inventory(copy, ExpectedPaths(m.files));
  }

  /** inspect_bundle_delivery. */
  method Inspect(env: Env, copy: Copy, expected: Option<string>) returns (r: Option<Content>)
    ensures r.Some? <==> Intact(env, copy, expected)
    ensures r.Some? ==> HoldsFile(copy, MANIFEST_PATH) && r.value == copy[MANIFEST_PATH].file
  {
    if !HoldsFile(copy, MANIFEST_PATH) { return None; }
    var raw := copy[MANIFEST_PATH].file;
    if |raw| > MAX_MANIFEST_BYTES { return None; }
    var manifest := env.decode(raw);
    if manifest.None? || Utf8(Encode(manifest.value)) != raw { return None; }
    if expected.Some? && env.sha(raw) != expected.value { return None; }
    var carries := CheckFiles(env, copy, manifest.value);
    return if carries then Some(raw) else None;
  }

  lemma {:induction false} TotalGrows(files: seq<Descriptor>, k: nat)
    requires k <= |files|
    ensures Total(files[..k]) <= Total(files)
  {
    if k < |files| {
      TotalGrows(files[..|files| - 1], k);
      assert files[..|files| - 1][..k] == files[..k];
    } else {
      assert files[..k] == files;
    }
  }

  lemma {:induction false} SamePaths(env: Env, materials: seq<Material>)
    ensures FilePaths(Describe(env, materials)) == MapOf(materials).Keys
  {
    if materials != [] {
      var n := |materials| - 1;
      SamePaths(env, materials[..n]);
      assert Describe(env, materials)[..n] == Describe(env, materials[..n]);
    }
  }

  lemma {:induction false} PathSetHas(materials: seq<Material>, i: nat)
    requires i < |materials|
    ensures materials[i].path in PathSet(materials)
  {
    var n := |materials| - 1;
    if i < n { PathSetHas(materials[..n], i); }
  }

  lemma {:induction false} SameExpected(env: Env, materials: Materials, raw: Content)
    ensures ExpectedPaths(Describe(env, materials)) == PutPaths(PutsOf(materials, raw))
  {
    var files, puts := Describe(env, materials), PutsOf(materials, raw);
    SamePaths(env, materials);
    forall q ensures q in ExpectedPaths(files) <==> q in PutPaths(puts) {
      if q in PutPaths(puts) {
        var i :| 0 <= i < |puts| && puts[i].path == q;
        if i < |materials| { PathSetHas(materials, i); }
      }
      if q in ExpectedPaths(files) && q != MANIFEST_PATH {
        var p :| p in FilePaths(files) && Split(p) == q;
        var i := PathSetAt(materials, p);
        assert puts[i].path == q;
      }
      if q == MANIFEST_PATH { assert puts[|materials|].path == q; }
    }
  }

  /** The listed files read from a copy are the materials. */
  lemma {:induction false} SameContents(env: Env, materials: Materials, raw: Content, copy: Copy)
    requires forall i {:trigger HoldsPut(copy, PutsOf(materials, raw)[i])} | 0 <= i < |materials| :: HoldsPut(copy, PutsOf(materials, raw)[i])
    ensures Contents(copy, Describe(env, materials)) == MapOf(materials)
    ensures forall i | 0 <= i < |materials| :: FileMatches(env, copy, Describe(env, materials)[i])
  {
    var files, puts := Describe(env, materials), PutsOf(materials, raw);
    SamePaths(env, materials);
    PathsDiffer(materials);
    forall p | p in MapOf(materials) ensures HoldsFile(copy, Split(p)) && copy[Split(p)].file == MapOf(materials)[p] {
      var i := PathSetAt(materials, p);
      MapOfAt(materials, i);
      assert HoldsPut(copy, puts[i]);
    }
    forall i | 0 <= i < |materials| ensures FileMatches(env, copy, files[i]) { assert HoldsPut(copy, puts[i]); }
  }

  /** A copy just published is accepted, with and without its pin, and gives back the same manifest. */
  lemma PublishedIntact(env: Env, identity: Identity, materials: Materials, copy: Copy)
    requires Faithful(env) && Publishable(env, identity, materials)
    requires HoldsPuts(copy, PutsOf(materials, RawOf(env, identity, materials)))
    ensures HoldsFile(copy, MANIFEST_PATH) && copy[MANIFEST_PATH].file == RawOf(env, identity, materials)
    ensures Intact(env, copy, Some(env.sha(RawOf(env, identity, materials)))) && Intact(env, copy, None)
  {
    var m, raw := ManifestOf(env, identity, materials), RawOf(env, identity, materials);
    var puts := PutsOf(materials, raw);
    BuiltCanonical(env, identity, materials);
    ManifestFits(env, m);
    assert env.decode(Utf8(Encode(m))) == Some(m);
    assert HoldsPut(copy, puts[|materials|]);
    assert forall i | 0 <= i < |materials| :: HoldsPut(copy, puts[i]);
    SameContents(env, materials, raw, copy);
    SameExpected(env, materials, raw);
  }

  /** The copy holds something else than was put there, which the digest maps to the same value. */
  ghost predicate CollidesAt(env: Env, copy: Copy, put: Put<Content>) {
    HoldsFile(copy, put.path) && copy[put.path].file != put.file && env.sha(copy[put.path].file) == env.sha(put.file)
  }

  ghost predicate Collides(env: Env, copy: Copy, puts: seq<Put<Content>>) {
    exists i {:trigger CollidesAt(env, copy, puts[i])} :: 0 <= i < |puts| && CollidesAt(env, copy, puts[i])
  }

  lemma PinnedHolds(env: Env, identity: Identity, materials: Materials, copy: Copy)
    requires Faithful(env) && Publishable(env, identity, materials)
    requires Intact(env, copy, Some(env.sha(RawOf(env, identity, materials))))
    requires !Collides(env, copy, PutsOf(materials, RawOf(env, identity, materials)))
    ensures HoldsPuts(copy, PutsOf(materials, RawOf(env, identity, materials)))
  {
    var m, raw := ManifestOf(env, identity, materials), RawOf(env, identity, materials);
    var puts := PutsOf(materials, raw);
    BuiltCanonical(env, identity, materials);
    assert env.decode(Utf8(Encode(m))) == Some(m);
    assert !CollidesAt(env, copy, puts[|materials|]);
    SameExpected(env, materials, raw);
    forall i | 0 <= i < |puts| ensures HoldsPut(copy, puts[i]) {
      assert !CollidesAt(env, copy, puts[i]);
      if i < |materials| { assert FileMatches(env, copy, m.files[i]); }
    }
  }

  /**
    Pinned by the published digest, an inspection accepts the published copy, and any other copy only
    if one of its files collides with the published one under the digest.
  */
  lemma PinnedExact(env: Env, identity: Identity, materials: Materials, copy: Copy)
    requires Faithful(env) && Publishable(env, identity, materials)
    ensures var raw := RawOf(env, identity, materials);
            && (HoldsPuts(copy, PutsOf(materials, raw)) ==> Intact(env, copy, Some(env.sha(raw))))
            && (Intact(env, copy, Some(env.sha(raw))) ==>
                  HoldsPuts(copy, PutsOf(materials, raw)) || Collides(env, copy, PutsOf(materials, raw)))
  {
    var raw := RawOf(env, identity, materials);
    if HoldsPuts(copy, PutsOf(materials, raw)) { PublishedIntact(env, identity, materials, copy); }
    if Intact(env, copy, Some(env.sha(raw))) && !Collides(env, copy, PutsOf(materials, raw)) {
      PinnedHolds(env, identity, materials, copy);
    }
  }

  /** Two copies that pass under one published pin are one tree, file for file and directory for directory, or one of them has a colliding file. */
  lemma PinnedCopies(env: Env, identity: Identity, materials: Materials, a: Copy, b: Copy)
    requires Faithful(env) && Publishable(env, identity, materials)
    requires var pin := Some(env.sha(RawOf(env, identity, materials))); Intact(env, a, pin) && Intact(env, b, pin)
    ensures var puts := PutsOf(materials, RawOf(env, identity, materials));
            a == b || Collides(env, a, puts) || Collides(env, b, puts)
  {
    var puts := PutsOf(materials, RawOf(env, identity, materials));
    PinnedExact(env, identity, materials, a);
    PinnedExact(env, identity, materials, b);
    if !Collides(env, a, puts) && !Collides(env, b, puts) { SameTree(a, b, puts); }
  }

  /** publish_bundle_delivery: no limit is met and no write finds its place taken, and the copy passes its own inspection. */
  method Publish(env: Env, identity: Identity, materials: Materials) returns (r: Option<(Content, Copy)>)
    ensures r.Some? ==>
      && Publishable(env, identity, materials)
      && r.value.0 == RawOf(env, identity, materials) && |r.value.0| <= MAX_MANIFEST_BYTES
      && HoldsPuts(r.value.1, PutsOf(materials, r.value.0)) && Intact(env, r.value.1, Some(env.sha(r.value.0)))
    ensures Faithful(env) ==> (r.Some? <==> Publishable(env, identity, materials))
  {
    if !Publishable(env, identity, materials) { return None; }
    BuiltCanonical(env, identity, materials);
    ManifestFits(env, ManifestOf(env, identity, materials));
    var raw := RawOf(env, identity, materials);
    if |raw| > MAX_MANIFEST_BYTES { return None; }
    PutsApart(env, identity, materials, raw);
    var written, copy := WriteTree(PutsOf(materials, raw));
    if !written { return None; }
    if Faithful(env) { PublishedIntact(env, identity, materials, copy); }
    var inspected := Inspect(env, copy, Some(env.sha(raw)));
    if inspected.None? { return None; }
    return Some((raw, copy));
  }
}
