/**
  The append-only log of evaluator-preparation attempts: what an attempt writes, what the
  strict status reader makes of it, and when the log admits another attempt.
*/
module PreparationLog {

  datatype Option<+T> = None | Some(value: T)

  datatype Stage =
    | Preparation | CapabilityCheck | Compile | Audit | Publish      // coarse stages
    | CompilerResponse | AuditorResponse                             // local stages
    | CompilerPreflight | AuditorPreflight                           // local stages
    | OtherStage                                                     // any other text

  predicate Coarse(s: Stage) { s.Preparation? || s.CapabilityCheck? || s.Compile? || s.Audit? || s.Publish? }

  predicate LocalStage(s: Stage) {
    s.CompilerResponse? || s.AuditorResponse? || s.CompilerPreflight? || s.AuditorPreflight?
  }

  predicate WallStage(s: Stage) {
    (Coarse(s) && !s.CapabilityCheck?) || s.CompilerPreflight? || s.AuditorPreflight?
  }

  datatype Category =
    RuntimeError | ValidationError | Cancelled | Interrupted | UnsupportedVerification | PreparationTimeout | OtherCategory

  /** The categories of the coarse projection. */
  predicate CoarseCategory(c: Category) { !c.PreparationTimeout? && !c.OtherCategory? }

  datatype Status = Started | Failed | Unknown | Prepared | OtherStatus

  /** A diagnostic bound to its stage; what else it says is one value. */
  datatype Local = Local(stage: Stage, reason: nat)
  type Request = nat           // a normalized model-request observation
  type Details = nat           // the unsupported constraints of a contract
  datatype Wall = Wall(timeoutMs: int, elapsedMs: int)
  datatype Budgets = Budgets(candidate: real, request: real, wall: real)
  datatype Reason = BudgetExceeded | OtherReason

  /** An observation; a field that is None is not in the record at all. */
  datatype Observation = Observation(
    version: nat, parent: nat, attempt: Option<nat>, status: Status, stage: Stage,
    category: Option<Category>, recoverable: bool,
    unsupported: Option<Details>, local: Option<Local>, request: Option<Request>,
    wall: Option<Wall>, budgets: Option<Budgets>, reason: Option<Reason>)

  /** _observation: the schema version follows from the optional fields, the later ones winning. */
  function Observe(parent: nat, attempt: Option<nat>, status: Status, stage: Stage, category: Option<Category>,
                   recoverable: bool, unsupported: Option<Details>, local: Option<Local>, request: Option<Request>,
                   wall: Option<Wall>, budgets: Option<Budgets>, reason: Option<Reason>): Observation
  {
    var version := if budgets.Some? then 2 else if wall.Some? then 4 else if request.Some? then 3
                   else if local.Some? then 2 else 1;
    Observation(version, parent, attempt, status, stage, category, recoverable, unsupported, local, request, wall, budgets, reason)
  }

  datatype Event =
    | S(payload: Observation)   // bundle_preparation_started
    | F(payload: Observation)   // bundle_preparation_failed
    | P                         // bundle_profile_prepared

  type Log = seq<Event>

  datatype RunStatus = Active | Succeeded | RunFailed | RunCancelled

  datatype Setting = Missing | NotNumber | Number(value: real)

  /** An evolution_requested event: the policy that the budgets of a start must repeat. */
  datatype Policy = Policy(compiled: bool, timeout: Setting, requestTimeout: Setting, wallTimeout: Setting)

  /** What the reader sees beside the log. */
  datatype Context = Context(status: RunStatus, filesValid: bool, unsupported: Option<Details>, policies: seq<Policy>)

  const MAX_SECONDS := 86400.0
  const MAX_WALL_MS := 86_400_000

  function Ceil(x: real): int { -((-x).Floor) }

  function Millis(seconds: real): int { Ceil(seconds * 1000.0) }

  // ------------------------------------------------------------ starts

  function PlainStart(parent: nat, attempt: nat): Observation {
    Observe(parent, Some(attempt), Started, Preparation, None, false, None, None, None, None, None, None)
  }

  function StartOf(parent: nat, attempt: nat, budgets: Option<Budgets>): Observation {
    Observe(parent, Some(attempt), Started, Preparation, None, false, None, None, None, None, budgets, None)
  }

  predicate Allowed(x: real) { 0.0 < x <= MAX_SECONDS }

  function RequestSetting(p: Policy): Setting { if p.requestTimeout.Missing? then p.timeout else p.requestTimeout }

  predicate Repeats(b: Budgets, p: Policy) {
    && p.compiled
    && p.timeout.Number? && RequestSetting(p).Number? && p.wallTimeout.Number?
    && b == Budgets(p.timeout.value, RequestSetting(p).value, p.wallTimeout.value)
  }

  predicate ValidStart(raw: Observation, parent: nat, attempt: nat, policies: seq<Policy>) {
    raw == PlainStart(parent, attempt) ||
    (raw.budgets.Some? && raw == StartOf(parent, attempt, raw.budgets)
     && var b := raw.budgets.value;
        && Allowed(b.candidate) && Allowed(b.request) && Allowed(b.wall)
        && (policies == [] || (|policies| == 1 && Repeats(b, policies[0])))
        && b.wall >= b.request)
  }

  // ------------------------------------------------------------ the readers

  predicate StartsAttempt(e: Event, parent: nat, attempt: nat) {
    e.S? && e.payload.parent == parent && e.payload.attempt == Some(attempt)
  }

  /** The starts of one attempt. */
  function Starts(log: Log, parent: nat, attempt: nat): Log {
    if log == [] then [] else
    var rest, e := Starts(log[..|log| - 1], parent, attempt), log[|log| - 1];
    if StartsAttempt(e, parent, attempt) then rest + [e] else rest
  }

  /** The latest event follows at once on the one valid start of its attempt; that start's payload. */
  function AdjacentStart(ctx: Context, log: Log, parent: nat, attempt: Option<nat>): Option<Observation> {
    if attempt.None? || |log| < 2 then None else
    var starts := Starts(log[..|log| - 1], parent, attempt.value);
    if |starts| == 1 && log[|log| - 2] == starts[0] && starts[0].S?
       && ValidStart(starts[0].payload, parent, attempt.value, ctx.policies)
    then Some(starts[0].payload) else None
  }

  /** Some valid start of the attempt, and only one, precedes the latest event. */
  predicate HasStart(ctx: Context, log: Log, parent: nat, attempt: Option<nat>) {
    attempt.Some? && log != [] &&
    var starts := Starts(log[..|log| - 1], parent, attempt.value);
    |starts| == 1 && starts[0].S? && ValidStart(starts[0].payload, parent, attempt.value, ctx.policies)
  }

  predicate OnlyWall(raw: Observation) {
    raw.wall.Some? && raw.unsupported.None? && raw.local.None? && raw.budgets.None? && raw.reason.None?
  }

  predicate ReadsWall(ctx: Context, log: Log, parent: nat, raw: Observation, stage: Stage) {
    && OnlyWall(raw) && raw.version == 4 && raw.status.Failed?
    && raw.category == Some(PreparationTimeout) && raw.recoverable && raw.parent == parent
    && WallStage(stage) && ctx.status.Active?
    && var start := AdjacentStart(ctx, log, parent, raw.attempt);
       && start.Some? && start.value.version == 2 && start.value.budgets.Some?
       && var limit := Millis(start.value.budgets.value.wall);
          && raw.wall.value.timeoutMs == limit && limit <= raw.wall.value.elapsedMs <= MAX_WALL_MS
          && (raw.request.Some? ==> stage.Compile? || stage.Audit?)
  }

  predicate OnlyRequest(raw: Observation) {
    raw.request.Some? && raw.wall.None? && raw.unsupported.None? && raw.local.None? && raw.budgets.None? && raw.reason.None?
  }

  predicate ReadsRequest(ctx: Context, log: Log, parent: nat, raw: Observation, stage: Stage) {
    && OnlyRequest(raw) && raw.version == 3 && raw.status.Failed?
    && raw.category == Some(RuntimeError) && raw.recoverable && raw.parent == parent
    && (stage.Compile? || stage.Audit?) && ctx.status.Active?
    && AdjacentStart(ctx, log, parent, raw.attempt).Some?
  }

  predicate OnlyLocal(raw: Observation) {
    raw.local.Some? && raw.request.None? && raw.wall.None? && raw.unsupported.None? && raw.budgets.None? && raw.reason.None?
  }

  predicate ReadsLocal(ctx: Context, log: Log, parent: nat, raw: Observation, stage: Stage) {
    && OnlyLocal(raw) && raw.version == 2 && raw.status.Failed?
    && raw.category == Some(ValidationError) && !raw.recoverable && raw.parent == parent
    && ctx.status.Active? && HasStart(ctx, log, parent, raw.attempt)
    && LocalStage(raw.local.value.stage) && raw.local.value.stage == stage
  }

  function Unread(parent: nat, attempt: Option<nat>, stage: Stage): Observation {
    Observe(parent, attempt, Unknown, if Coarse(stage) then stage else Preparation, Some(Interrupted), false,
            None, None, None, None, None, None)
  }

  function Rejected(base: Observation): Observation {
    base.(status := Failed, category := Some(ValidationError))
  }

  /** The closed shape of a coarse observation. */
  predicate CoarseShape(raw: Observation) {
    && raw.version == 1 && raw.status.Failed? && Coarse(raw.stage)
    && raw.category.Some? && CoarseCategory(raw.category.value)
    && raw.local.None? && raw.request.None? && raw.wall.None? && raw.budgets.None?
    && (raw.reason.Some? ==>
          raw.reason.value.BudgetExceeded? && raw.category == Some(ValidationError) && raw.stage.Publish? && !raw.recoverable)
    && (raw.unsupported.Some? ==> raw.category == Some(UnsupportedVerification))
  }

  function ReadCoarse(ctx: Context, log: Log, parent: nat, raw: Observation, base: Observation): Observation {
    if !CoarseShape(raw) then Rejected(base)
    else if raw.parent != parent || AdjacentStart(ctx, log, parent, raw.attempt).None? then base
    else if raw.category == Some(UnsupportedVerification) then
      if ctx.unsupported.None? || raw.unsupported != ctx.unsupported || !raw.stage.CapabilityCheck? || raw.recoverable
      then Rejected(base)
      else base.(status := Failed, category := raw.category, unsupported := ctx.unsupported)
    else
      base.(status := Failed, category := raw.category,
            recoverable := raw.category == Some(RuntimeError) && (raw.stage.Compile? || raw.stage.Audit?)
                           && raw.recoverable && !ctx.status.Succeeded? && !ctx.status.RunFailed?,
            reason := raw.reason)
  }

  predicate HasP(log: Log) { exists i :: 0 <= i < |log| && log[i].P? }

  /** automatic_bundle_preparation_status. */
  function ReadStatus(ctx: Context, log: Log, parent: nat): Option<Observation> {
    if log == [] then None else
    var latest := log[|log| - 1];
    var attempt := if latest.P? then None else latest.payload.attempt;
    var stage := if latest.P? || latest.payload.stage.OtherStage? then Preparation else latest.payload.stage;
    var base := Unread(parent, attempt, stage);
    Some(
      if ctx.status.RunCancelled? then base.(status := Failed, category := Some(Cancelled))
      else if !ctx.filesValid then Rejected(base)
      else if HasP(log) then Observe(parent, None, Prepared, Publish, None, false, None, None, None, None, None, None)
      else if !latest.F? then base
      else
        var raw := latest.payload;
        if raw.version == 4 || raw.wall.Some? then
          if ReadsWall(ctx, log, parent, raw, stage)
          then Observe(parent, attempt, Failed, stage, Some(PreparationTimeout), true, None, None, raw.request, raw.wall, None, None)
          else Rejected(base)
        else if raw.version == 3 || raw.request.Some? then
          if ReadsRequest(ctx, log, parent, raw, stage)
          then Observe(parent, attempt, Failed, stage, Some(RuntimeError), true, None, None, raw.request, None, None, None)
          else Rejected(base)
        else if raw.version == 2 || raw.local.Some? || LocalStage(stage) then
          if ReadsLocal(ctx, log, parent, raw, stage)
          then Observe(parent, attempt, Failed, stage, Some(ValidationError), false, None, raw.local, None, None, None, None)
          else Rejected(base)
        else ReadCoarse(ctx, log, parent, raw, base))
  }

  // ------------------------------------------------------------ admission

  predicate HasF(log: Log) { exists i :: 0 <= i < |log| && log[i].F? }

  function CountS(log: Log): nat {
    if log == [] then 0 else CountS(log[..|log| - 1]) + if log[|log| - 1].S? then 1 else 0
  }

  /** The log is one interrupted start, and a valid one. */
  predicate OneValidStart(ctx: Context, log: Log, parent: nat) {
    && CountS(log) == 1 && log[|log| - 1].S?
    && var raw := log[|log| - 1].payload;
       raw.attempt.Some? && raw.parent == parent && ValidStart(raw, parent, raw.attempt.value, ctx.policies)
  }

  /** A failure that an explicit new attempt may follow. */
  predicate Retriable(previous: Observation) {
    || previous.recoverable
    || (previous.category == Some(UnsupportedVerification) && previous.unsupported.Some?)
    || (previous.category == Some(ValidationError) && previous.local.Some?)
    || previous.reason == Some(BudgetExceeded)
  }

  /** validate_automatic_preparation_recovery; a prepared log passes but starts nothing. */
  predicate RecoveryAdmitted(ctx: Context, log: Log, parent: nat) {
    if ctx.status.RunCancelled? then false else
    HasP(log) ||
    match ReadStatus(ctx, log, parent)
    case None => true
    case Some(previous) =>
      if previous.status.Unknown? && !HasF(log) then OneValidStart(ctx, log, parent)
      else if previous.status.Failed? || (previous.status.Unknown? && HasF(log)) then Retriable(previous)
      else true
  }

  /** A call appends a start: nothing prepared, the parent still active, files valid, recovery admitted. */
  predicate Admits(ctx: Context, log: Log, parent: nat) {
    ctx.status.Active? && ctx.filesValid && !HasP(log) && RecoveryAdmitted(ctx, log, parent)
  }

  // ------------------------------------------------------------ the writer

  /** What stopped an attempt; guardOk says whether the rechecks in the handler passed. */
  datatype Failure =
    | Diagnosed(diagnostic: Option<Local>)
    | UnsupportedConstraints
    | Runtime(stage: Stage, exact: bool, request: Option<Request>, guardOk: bool)
    | WallTimeout(stage: Stage, request: Option<Request>, guardOk: bool, raisedAt: real, handledAt: real)
    | OverBudget
    | Unexpected

  /** publishing: the attempt had reached its publication part. */
  predicate Raised(f: Failure, publishing: bool, budgets: Option<Budgets>, startedAt: real) {
    match f
    case Diagnosed(d) => !publishing && (d.Some? ==> LocalStage(d.value.stage))
    case UnsupportedConstraints => !publishing
    case Runtime(stage, exact, request, guardOk) => !publishing && (stage.Compile? || stage.Audit?)
    case WallTimeout(stage, request, guardOk, raisedAt, handledAt) =>
      // the deadline was found passed, by a clock that never runs backwards
      && budgets.Some? && raisedAt <= handledAt && raisedAt - startedAt >= budgets.value.wall
      && WallStage(stage) && (request.Some? ==> stage.Compile? || stage.Audit?)
    case OverBudget => publishing
    case Unexpected => true
  }

  function WallOf(f: Failure, budgets: Option<Budgets>, startedAt: real): Option<Wall> {
    if f.WallTimeout? && f.guardOk && budgets.Some? then
      var elapsed := Millis(f.handledAt - startedAt);
      Some(Wall(Millis(budgets.value.wall), if elapsed < MAX_WALL_MS then elapsed else MAX_WALL_MS))
    else None
  }

  /** The failure observation of an attempt under a parent that is still active. */
  function FailureOf(ctx: Context, parent: nat, attempt: nat, budgets: Option<Budgets>, startedAt: real,
                     publishing: bool, f: Failure): Observation
  {
    var at := if publishing then Publish else Preparation;
    match f
    case Diagnosed(d) =>
      Observe(parent, Some(attempt), Failed, if d.Some? then d.value.stage else at, Some(ValidationError), false,
              None, d, None, None, None, None)
    case UnsupportedConstraints =>
      Observe(parent, Some(attempt), Failed, CapabilityCheck,
              Some(if ctx.unsupported.Some? then UnsupportedVerification else ValidationError), false,
              ctx.unsupported, None, None, None, None, None)
    case Runtime(stage, exact, request, guardOk) =>
      Observe(parent, Some(attempt), Failed, stage, Some(if guardOk then RuntimeError else ValidationError), guardOk,
              None, None, if guardOk && exact then request else None, None, None, None)
    case WallTimeout(stage, request, guardOk, raisedAt, handledAt) =>
      var wall := WallOf(f, budgets, startedAt);
      Observe(parent, Some(attempt), Failed, if wall.None? && LocalStage(stage) then Preparation else stage,
              Some(if wall.Some? then PreparationTimeout else ValidationError), wall.Some?,
              None, None, if wall.Some? then request else None, wall, None, None)
    case OverBudget =>
      Observe(parent, Some(attempt), Failed, at, Some(ValidationError), false, None, None, None, None, None, Some(BudgetExceeded))
    case Unexpected =>
      Observe(parent, Some(attempt), Failed, at, Some(ValidationError), false, None, None, None, None, None, None)
  }

  /** The same, when the parent may have been cancelled or finished during the attempt. */
  function FailureUnder(ended: RunStatus, ctx: Context, parent: nat, attempt: nat, budgets: Option<Budgets>, startedAt: real,
                        publishing: bool, f: Failure): Observation
  {
    var o := FailureOf(ctx, parent, attempt, budgets, startedAt, publishing, f);
    if ended.Active? then o else
    Observe(parent, Some(attempt), Failed, if LocalStage(o.stage) then Preparation else o.stage,
            Some(if ended.RunCancelled? then Cancelled else ValidationError), false, None, None, None, None, None, o.reason)
  }

  // ------------------------------------------------------------ the reader returns what the writer wrote

  lemma {:induction false} NoStarts(log: Log, parent: nat, attempt: nat)
    requires forall i | 0 <= i < |log| && !log[i].P? :: log[i].payload.attempt != Some(attempt)
    ensures Starts(log, parent, attempt) == []
  {
    if log != [] { NoStarts(log[..|log| - 1], parent, attempt); }
  }

  predicate Fresh(log: Log, attempt: nat) {
    forall i | 0 <= i < |log| && !log[i].P? :: log[i].payload.attempt != Some(attempt)
  }

  lemma OneStart(ctx: Context, log: Log, parent: nat, attempt: nat, budgets: Option<Budgets>, failed: Observation)
    requires Fresh(log, attempt) && failed.attempt == Some(attempt)
    ensures var start := StartOf(parent, attempt, budgets);
            var whole := log + [S(start), F(failed)];
            && AdjacentStart(ctx, whole, parent, Some(attempt)) ==
               (if ValidStart(start, parent, attempt, ctx.policies) then Some(start) else None)
            && (HasStart(ctx, whole, parent, Some(attempt)) <==> ValidStart(start, parent, attempt, ctx.policies))
  {
    var start := StartOf(parent, attempt, budgets);
    var whole := log + [S(start), F(failed)];
    assert whole[..|whole| - 1] == log + [S(start)];
    assert (log + [S(start)])[..|log|] == log;
    NoStarts(log, parent, attempt);
  }

  lemma WallElapsed(budget: real, startedAt: real, raisedAt: real, handledAt: real)
    requires 0.0 < budget <= MAX_SECONDS && raisedAt - startedAt >= budget && raisedAt <= handledAt
    ensures Millis(budget) <= Millis(handledAt - startedAt) && Millis(budget) <= MAX_WALL_MS
  {
    var a, b := budget * 1000.0, (handledAt - startedAt) * 1000.0;
    assert a <= b && a <= 86400000.0;
    assert (-b).Floor <= (-a).Floor && (-86400000.0).Floor <= (-a).Floor;
  }

  /**
    A failure written right after its start is read back exactly as it was written, by a reader
    that sees the same active parent, valid files and contract, if and only if the reader accepts
    the start: with wall budgets, when they repeat the parent's one recorded policy.
  */
  lemma ReadsBack(ctx: Context, log: Log, parent: nat, attempt: nat, budgets: Option<Budgets>, startedAt: real,
                  publishing: bool, f: Failure)
    requires ctx.status.Active? && ctx.filesValid && !HasP(log) && Fresh(log, attempt)
    requires Raised(f, publishing, budgets, startedAt)
    ensures var start, failed := StartOf(parent, attempt, budgets), FailureOf(ctx, parent, attempt, budgets, startedAt, publishing, f);
            ReadStatus(ctx, log + [S(start), F(failed)], parent) == Some(failed)
            <==> ValidStart(start, parent, attempt, ctx.policies)
  {
    var start, failed := StartOf(parent, attempt, budgets), FailureOf(ctx, parent, attempt, budgets, startedAt, publishing, f);
    var whole := log + [S(start), F(failed)];
    assert !HasP(whole) by { assert forall i | 0 <= i < |log| :: whole[i] == log[i]; }
    OneStart(ctx, log, parent, attempt, budgets, failed);
    assert whole[|whole| - 1] == F(failed);
    if f.WallTimeout? && ValidStart(start, parent, attempt, ctx.policies) {
      WallElapsed(budgets.value.wall, startedAt, f.raisedAt, f.handledAt);
    }
  }

  /** The budgets of a start: none, or in range, in order, and those of the one recorded policy. */
  predicate BudgetsAccepted(budgets: Option<Budgets>, policies: seq<Policy>) {
    budgets.None? ||
    (var b := budgets.value;
     && 0.0 < b.candidate <= 86400.0 && 0.0 < b.request <= b.wall <= 86400.0
     && (policies == [] ||
         (|policies| == 1 && policies[0].compiled && policies[0].timeout == Number(b.candidate) && policies[0].wallTimeout == Number(b.wall)
          && (policies[0].requestTimeout == Number(b.request) || (policies[0].requestTimeout.Missing? && b.request == b.candidate)))))
  }

  /** Which starts the reader accepts: plain ones always, budgeted ones when they repeat the policy. */
  lemma StartAccepted(parent: nat, attempt: nat, budgets: Option<Budgets>, policies: seq<Policy>)
    ensures ValidStart(StartOf(parent, attempt, budgets), parent, attempt, policies) <==>
            BudgetsAccepted(budgets, policies)
  {
  }

  /** Which failures may be followed by another attempt. */
  predicate Recoverable(ctx: Context, f: Failure) {
    match f
    case Diagnosed(d) => d.Some?
    case UnsupportedConstraints => ctx.unsupported.Some?
    case Runtime(_, _, _, guardOk) => guardOk
    case WallTimeout(_, _, guardOk, _, _) => guardOk
    case OverBudget => true
    case Unexpected => false
  }

  /** A failed attempt may be repeated exactly when its failure is recoverable and its start is accepted. */
  lemma AdmittedAfterFailure(ctx: Context, log: Log, parent: nat, attempt: nat, budgets: Option<Budgets>, startedAt: real,
                             publishing: bool, f: Failure)
    requires ctx.status.Active? && ctx.filesValid && !HasP(log) && Fresh(log, attempt)
    requires Raised(f, publishing, budgets, startedAt)
    ensures var start, failed := StartOf(parent, attempt, budgets), FailureOf(ctx, parent, attempt, budgets, startedAt, publishing, f);
            Admits(ctx, log + [S(start), F(failed)], parent)
            <==> Recoverable(ctx, f) && ValidStart(start, parent, attempt, ctx.policies)
  {
    var start, failed := StartOf(parent, attempt, budgets), FailureOf(ctx, parent, attempt, budgets, startedAt, publishing, f);
    var whole := log + [S(start), F(failed)];
    ReadsBack(ctx, log, parent, attempt, budgets, startedAt, publishing, f);
    OneStart(ctx, log, parent, attempt, budgets, failed);
    assert whole[|log| + 1] == F(failed) && HasF(whole);
    assert forall i | 0 <= i < |log| :: whole[i] == log[i];
    assert !HasP(whole);
  }

  /** The first attempt needs nothing but an active parent and valid files. */
  lemma FirstAdmitted(ctx: Context, parent: nat)
    ensures Admits(ctx, [], parent) <==> ctx.status.Active? && ctx.filesValid
  {
  }

  /** After one interrupted start another attempt is admitted exactly if that start is accepted. */
  lemma AdmittedAfterInterruption(ctx: Context, parent: nat, attempt: nat, budgets: Option<Budgets>)
    ensures Admits(ctx, [S(StartOf(parent, attempt, budgets))], parent)
            <==> ctx.status.Active? && ctx.filesValid && BudgetsAccepted(budgets, ctx.policies)
  {
    var log: Log := [S(StartOf(parent, attempt, budgets))];
    StartAccepted(parent, attempt, budgets, ctx.policies);
    assert log[..0] == [];
    assert CountS(log) == 1;
    assert !HasF(log) && !HasP(log);
  }

  /** After any other interruption none is. */
  lemma NoneAfterInterruption(ctx: Context, log: Log, start: Observation, parent: nat)
    requires log != []
    ensures !Admits(ctx, log + [S(start)], parent)
  {
    var whole := log + [S(start)];
    assert whole[|log|] == S(start);
    if Admits(ctx, whole, parent) { AfterStart(ctx, whole, parent); }
  }

  // ------------------------------------------------------------ what admits an attempt, over any log at all

  /** The only start of this attempt is the event at k. */
  predicate OnlyStart(log: Log, k: int, parent: nat, attempt: nat) {
    && 0 <= k < |log| && log[k].S? && log[k].payload.parent == parent && log[k].payload.attempt == Some(attempt)
    && forall i | 0 <= i < |log| && log[i].S? && log[i].payload.parent == parent && log[i].payload.attempt == Some(attempt) :: i == k
  }

  lemma {:induction false} StartsNone(log: Log, parent: nat, attempt: nat)
    ensures Starts(log, parent, attempt) == [] <==> forall i | 0 <= i < |log| :: !StartsAttempt(log[i], parent, attempt)
  {
    if log != [] {
      var init := log[..|log| - 1];
      StartsNone(init, parent, attempt);
      assert forall i | 0 <= i < |init| :: init[i] == log[i];
    }
  }

  lemma {:induction false} StartsOnly(log: Log, k: int, parent: nat, attempt: nat)
    requires OnlyStart(log, k, parent, attempt)
    ensures Starts(log, parent, attempt) == [log[k]]
  {
    var init := log[..|log| - 1];
    assert forall i | 0 <= i < |init| :: init[i] == log[i];
    if k == |log| - 1 { StartsNone(init, parent, attempt); } else { StartsOnly(init, k, parent, attempt); }
  }

  lemma {:induction false} StartsFound(log: Log, parent: nat, attempt: nat) returns (k: int)
    requires |Starts(log, parent, attempt)| == 1
    ensures OnlyStart(log, k, parent, attempt)
  {
    var init := log[..|log| - 1];
    assert forall i | 0 <= i < |init| :: init[i] == log[i];
    if StartsAttempt(log[|log| - 1], parent, attempt) {
      k := |log| - 1;
      StartsNone(init, parent, attempt);
    } else {
      k := StartsFound(init, parent, attempt);
    }
  }

  lemma StartMeans(raw: Observation, parent: nat, attempt: nat, policies: seq<Policy>)
    ensures ValidStart(raw, parent, attempt, policies) <==> raw == StartOf(parent, attempt, raw.budgets) && BudgetsAccepted(raw.budgets, policies)
  {
    StartAccepted(parent, attempt, raw.budgets, policies);
  }

  /** The accepted start of the attempt is in place: right before the latest event, or anywhere before it. */
  predicate StartedBy(log: Log, k: int, parent: nat, attempt: nat, budgets: Option<Budgets>, policies: seq<Policy>) {
    && log != [] && OnlyStart(log[..|log| - 1], k, parent, attempt)
    && log[k].payload == StartOf(parent, attempt, budgets) && BudgetsAccepted(budgets, policies)
  }

  lemma AdjacentMeans(ctx: Context, log: Log, parent: nat, attempt: nat)
    requires log != []
    ensures var start := AdjacentStart(ctx, log, parent, Some(attempt));
            && (start.Some? ==> |log| >= 2 && StartedBy(log, |log| - 2, parent, attempt, start.value.budgets, ctx.policies)
                                && start.value == StartOf(parent, attempt, start.value.budgets))
            && (forall budgets {:trigger StartOf(parent, attempt, budgets)} |
                  |log| >= 2 && StartedBy(log, |log| - 2, parent, attempt, budgets, ctx.policies) ::
                  start == Some(StartOf(parent, attempt, budgets)))
  {
    var init := log[..|log| - 1];
    if AdjacentStart(ctx, log, parent, Some(attempt)).Some? {
      var k := StartsFound(init, parent, attempt);
      StartsOnly(init, k, parent, attempt);
      StartMeans(log[k].payload, parent, attempt, ctx.policies);
      assert init[|log| - 2] == log[|log| - 2];
    }
    forall budgets | |log| >= 2 && StartedBy(log, |log| - 2, parent, attempt, budgets, ctx.policies)
      ensures AdjacentStart(ctx, log, parent, Some(attempt)) == Some(StartOf(parent, attempt, budgets))
    {
      StartsOnly(init, |log| - 2, parent, attempt);
      StartMeans(log[|log| - 2].payload, parent, attempt, ctx.policies);
    }
  }

  lemma PrecedingMeans(ctx: Context, log: Log, parent: nat, attempt: nat) returns (k: int)
    requires log != []
    ensures HasStart(ctx, log, parent, Some(attempt)) ==>
      0 <= k < |log| && log[k].S? && StartedBy(log, k, parent, attempt, log[k].payload.budgets, ctx.policies)
    ensures (exists j, budgets :: StartedBy(log, j, parent, attempt, budgets, ctx.policies)) ==> HasStart(ctx, log, parent, Some(attempt))
  {
    var init := log[..|log| - 1];
    k := 0;
    if HasStart(ctx, log, parent, Some(attempt)) {
      k := StartsFound(init, parent, attempt);
      StartsOnly(init, k, parent, attempt);
      StartMeans(log[k].payload, parent, attempt, ctx.policies);
    }
    forall j, budgets | StartedBy(log, j, parent, attempt, budgets, ctx.policies) ensures HasStart(ctx, log, parent, Some(attempt)) {
      StartsOnly(init, j, parent, attempt);
      StartMeans(log[j].payload, parent, attempt, ctx.policies);
    }
  }

  /** This is the record of this failure, which may be followed by another attempt. */
  predicate Writes(ctx: Context, raw: Observation, parent: nat, attempt: nat, budgets: Option<Budgets>, startedAt: real,
                   publishing: bool, f: Failure)
  {
    Raised(f, publishing, budgets, startedAt) && Recoverable(ctx, f)
    && raw == FailureOf(ctx, parent, attempt, budgets, startedAt, publishing, f)
  }

  ghost predicate Writable(ctx: Context, raw: Observation, parent: nat, attempt: nat, budgets: Option<Budgets>) {
    exists startedAt, publishing, f :: Writes(ctx, raw, parent, attempt, budgets, startedAt, publishing, f)
  }

  /** The reader of wall timeouts takes any unknown stage for the preparation itself. */
  function Known(raw: Observation): Observation {
    if raw.wall.Some? && raw.stage.OtherStage? then raw.(stage := Preparation) else raw
  }

  predicate InPlace(log: Log, k: int)
    requires log != []
  {
    log[|log| - 1].F? && (k == |log| - 2 || log[|log| - 1].payload.local.Some?)
  }

  ghost predicate RetriesAt(ctx: Context, log: Log, parent: nat, k: int, attempt: nat, budgets: Option<Budgets>) {
    && StartedBy(log, k, parent, attempt, budgets, ctx.policies) && InPlace(log, k)
    && Writable(ctx, Known(log[|log| - 1].payload), parent, attempt, budgets)
  }

  /**
    The latest event records a recoverable failure of some attempt, as the writer writes it, and the accepted start
    of that attempt stands right before it, or, for a local diagnostic, somewhere before it.
  */
  ghost predicate Retries(ctx: Context, log: Log, parent: nat) {
    exists k, attempt, budgets :: RetriesAt(ctx, log, parent, k, attempt, budgets)
  }

  ghost predicate StartIs(e: Event, parent: nat, attempt: nat, budgets: Option<Budgets>) { e == S(StartOf(parent, attempt, budgets)) }

  /** The log is one interrupted start, and an accepted one. */
  ghost predicate Resumes(ctx: Context, log: Log, parent: nat) {
    |log| == 1 && exists attempt, budgets :: StartIs(log[0], parent, attempt, budgets) && BudgetsAccepted(budgets, ctx.policies)
  }

  lemma MillisExact(ms: int)
    ensures Millis(ms as real / 1000.0) == ms
  {
    assert ms as real / 1000.0 * 1000.0 == ms as real;
  }

  lemma WallWritten(ctx: Context, log: Log, parent: nat, raw: Observation, stage: Stage)
    requires ReadsWall(ctx, log, parent, raw, stage) && raw.attempt.Some? && log != []
    requires stage == if raw.stage.OtherStage? then Preparation else raw.stage
    ensures |log| >= 2 && exists budgets :: StartedBy(log, |log| - 2, parent, raw.attempt.value, budgets, ctx.policies)
                                        && Writable(ctx, Known(raw), parent, raw.attempt.value, budgets)
  {
    var attempt := raw.attempt.value;
    AdjacentMeans(ctx, log, parent, attempt);
    var budgets := AdjacentStart(ctx, log, parent, Some(attempt)).value.budgets;
    var at := raw.wall.value.elapsedMs as real / 1000.0;
    var f := WallTimeout(stage, raw.request, true, at, at);
    MillisExact(raw.wall.value.elapsedMs);
    assert at - 0.0 == at;
    assert at >= budgets.value.wall by { WallReached(budgets.value.wall, raw.wall.value.elapsedMs); }
    assert Writes(ctx, Known(raw), parent, attempt, budgets, 0.0, false, f);
    assert Writable(ctx, Known(raw), parent, attempt, budgets);
    assert StartedBy(log, |log| - 2, parent, attempt, budgets, ctx.policies);
  }

  lemma WallReached(budget: real, ms: int)
    requires Millis(budget) <= ms
    ensures budget <= ms as real / 1000.0
  {
    assert (-(budget * 1000.0)).Floor as real <= -(budget * 1000.0);
    assert budget * 1000.0 <= ms as real;
  }

  lemma RequestWritten(ctx: Context, log: Log, parent: nat, raw: Observation)
    requires ReadsRequest(ctx, log, parent, raw, raw.stage) && raw.attempt.Some? && log != []
    ensures |log| >= 2 && exists budgets :: StartedBy(log, |log| - 2, parent, raw.attempt.value, budgets, ctx.policies)
                                        && Writable(ctx, Known(raw), parent, raw.attempt.value, budgets)
  {
    var attempt := raw.attempt.value;
    AdjacentMeans(ctx, log, parent, attempt);
    var budgets := AdjacentStart(ctx, log, parent, Some(attempt)).value.budgets;
    assert Writes(ctx, raw, parent, attempt, budgets, 0.0, false, Runtime(raw.stage, true, raw.request, true));
    assert Writable(ctx, Known(raw), parent, attempt, budgets);
    assert StartedBy(log, |log| - 2, parent, attempt, budgets, ctx.policies);
  }

  lemma LocalWritten(ctx: Context, log: Log, parent: nat, raw: Observation)
    requires ReadsLocal(ctx, log, parent, raw, raw.stage) && raw.attempt.Some? && log != []
    ensures exists k, budgets :: StartedBy(log, k, parent, raw.attempt.value, budgets, ctx.policies)
                              && Writable(ctx, Known(raw), parent, raw.attempt.value, budgets)
  {
    var attempt := raw.attempt.value;
    var k := PrecedingMeans(ctx, log, parent, attempt);
    assert Writes(ctx, raw, parent, attempt, log[k].payload.budgets, 0.0, false, Diagnosed(raw.local));
  }

  lemma CoarseWritten(ctx: Context, log: Log, parent: nat, raw: Observation, base: Observation)
    requires log != [] && !ctx.status.RunCancelled? && base == Unread(parent, raw.attempt, raw.stage)
    requires Retriable(ReadCoarse(ctx, log, parent, raw, base))
    ensures raw.attempt.Some? && |log| >= 2
    ensures exists budgets :: StartedBy(log, |log| - 2, parent, raw.attempt.value, budgets, ctx.policies)
                           && Writable(ctx, Known(raw), parent, raw.attempt.value, budgets)
  {
    var attempt := raw.attempt.value;
    AdjacentMeans(ctx, log, parent, attempt);
    var budgets := AdjacentStart(ctx, log, parent, Some(attempt)).value.budgets;
    if raw.category == Some(UnsupportedVerification) {
      assert Writes(ctx, raw, parent, attempt, budgets, 0.0, false, UnsupportedConstraints);
    } else if raw.reason.Some? {
      assert Writes(ctx, raw, parent, attempt, budgets, 0.0, true, OverBudget);
    } else {
      assert Writes(ctx, raw, parent, attempt, budgets, 0.0, false, Runtime(raw.stage, false, None, true));
    }
    assert Writable(ctx, Known(raw), parent, attempt, budgets);
    assert StartedBy(log, |log| - 2, parent, attempt, budgets, ctx.policies);
  }

  predicate Readable(ctx: Context, log: Log) {
    ctx.status.Active? && ctx.filesValid && !HasP(log) && log != [] && log[|log| - 1].F?
  }

  /** Only records of recoverable failures, with their starts in place, are read as something to retry. */
  lemma RetriesOnlyIf(ctx: Context, log: Log, parent: nat)
    requires Readable(ctx, log) && Retriable(ReadStatus(ctx, log, parent).value)
    ensures Retries(ctx, log, parent)
  {
    var raw := log[|log| - 1].payload;
    if raw.version == 4 || raw.wall.Some? {
      WallWritten(ctx, log, parent, raw, if raw.stage.OtherStage? then Preparation else raw.stage);
    } else if raw.version == 3 || raw.request.Some? {
      RequestWritten(ctx, log, parent, raw);
    } else if raw.version == 2 || raw.local.Some? || LocalStage(raw.stage) {
      LocalWritten(ctx, log, parent, raw);
    } else {
      CoarseWritten(ctx, log, parent, raw, Unread(parent, raw.attempt, raw.stage));
    }
    var k, budgets :| StartedBy(log, k, parent, raw.attempt.value, budgets, ctx.policies)
                      && Writable(ctx, Known(raw), parent, raw.attempt.value, budgets) && InPlace(log, k);
    assert RetriesAt(ctx, log, parent, k, raw.attempt.value, budgets);
  }

  /** And all of them are. */
  lemma RetriesIf(ctx: Context, log: Log, parent: nat, k: int, attempt: nat, budgets: Option<Budgets>, startedAt: real,
                  publishing: bool, f: Failure)
    requires Readable(ctx, log) && StartedBy(log, k, parent, attempt, budgets, ctx.policies) && InPlace(log, k)
    requires Writes(ctx, Known(log[|log| - 1].payload), parent, attempt, budgets, startedAt, publishing, f)
    ensures Retriable(ReadStatus(ctx, log, parent).value)
  {
    var raw := log[|log| - 1].payload;
    AdjacentMeans(ctx, log, parent, attempt);
    if f.Diagnosed? {
      var j := PrecedingMeans(ctx, log, parent, attempt);
    } else if f.WallTimeout? {
      WallElapsed(budgets.value.wall, startedAt, f.raisedAt, f.handledAt);
    }
  }

  /**
    Over any log at all another attempt is admitted if and only if the parent is active, the files are valid, nothing
    was prepared, and the log is empty, or one accepted start, or ends with the record of a recoverable failure whose
    accepted start is in place.
  */
  lemma AdmissionDecided(ctx: Context, log: Log, parent: nat)
    ensures Admits(ctx, log, parent) <==>
      && ctx.status.Active? && ctx.filesValid && (forall i | 0 <= i < |log| :: !log[i].P?)
      && (log == [] || Resumes(ctx, log, parent) || Retries(ctx, log, parent))
  {
    if ctx.status.Active? && ctx.filesValid && !HasP(log) && log != [] {
      if log[|log| - 1].S? {
        ResumesDecided(ctx, log, parent);
      } else {
        assert log[|log| - 1].F? && HasF(log);
        if Retriable(ReadStatus(ctx, log, parent).value) { RetriesOnlyIf(ctx, log, parent); }
        if Retries(ctx, log, parent) { RetriesTaken(ctx, log, parent); }
      }
    }
  }

  lemma RetriesTaken(ctx: Context, log: Log, parent: nat)
    requires Readable(ctx, log) && Retries(ctx, log, parent)
    ensures Retriable(ReadStatus(ctx, log, parent).value)
  {
    var k, attempt, budgets :| RetriesAt(ctx, log, parent, k, attempt, budgets);
    var startedAt, publishing, f :| Writes(ctx, Known(log[|log| - 1].payload), parent, attempt, budgets, startedAt, publishing, f);
    RetriesIf(ctx, log, parent, k, attempt, budgets, startedAt, publishing, f);
  }

  lemma ResumesDecided(ctx: Context, log: Log, parent: nat)
    requires ctx.status.Active? && ctx.filesValid && !HasP(log) && log != [] && log[|log| - 1].S?
    ensures Admits(ctx, log, parent) <==> Resumes(ctx, log, parent)
    ensures !Retries(ctx, log, parent)
  {
    var raw := log[|log| - 1].payload;
    if Admits(ctx, log, parent) {
      AfterStart(ctx, log, parent);
      StartMeans(raw, parent, raw.attempt.value, ctx.policies);
      assert StartIs(log[0], parent, raw.attempt.value, raw.budgets);
    }
    if Resumes(ctx, log, parent) {
      var attempt, budgets :| StartIs(log[0], parent, attempt, budgets) && BudgetsAccepted(budgets, ctx.policies);
      StartMeans(raw, parent, attempt, ctx.policies);
      assert log[..0] == [] && CountS(log) == 1 && !HasF(log);
    }
  }

  /** What the reader says when the latest event does not decide it. */
  lemma StatusMeans(ctx: Context, log: Log, parent: nat)
    requires log != []
    ensures ReadStatus(ctx, log, parent).Some? &&
      var st := ReadStatus(ctx, log, parent).value;
      && st.parent == parent
      && (st.status.Prepared? <==> !ctx.status.RunCancelled? && ctx.filesValid && exists i :: 0 <= i < |log| && log[i].P?)
      && (st.status.Prepared? ==> st.stage.Publish? && st.category.None? && st.attempt.None? && !st.recoverable)
      && (ctx.status.RunCancelled? ==> st.status.Failed? && st.category == Some(Cancelled) && !st.recoverable)
      && (!ctx.status.RunCancelled? && !ctx.filesValid ==> st.status.Failed? && st.category == Some(ValidationError) && !st.recoverable)
      && (!ctx.status.RunCancelled? && ctx.filesValid && !st.status.Prepared? && log[|log| - 1].S? ==>
            st.status.Unknown? && st.category == Some(Interrupted) && !st.recoverable)
      && (!st.status.Prepared? && !log[|log| - 1].P? && !st.status.Failed? ==> Coarse(st.stage))
  {
  }

  /** A failure under a parent that ended in the meantime is recorded as that, never as something to retry, and read so. */
  lemma EndedReadsBack(ctx: Context, log: Log, parent: nat, attempt: nat, budgets: Option<Budgets>, startedAt: real,
                       publishing: bool, f: Failure)
    requires !ctx.status.Active? && ctx.filesValid && !HasP(log) && Fresh(log, attempt)
    requires Raised(f, publishing, budgets, startedAt)
    ensures var start, failed := StartOf(parent, attempt, budgets), FailureUnder(ctx.status, ctx, parent, attempt, budgets, startedAt, publishing, f);
            var st := ReadStatus(ctx, log + [S(start), F(failed)], parent);
            && failed.category == Some(if ctx.status.RunCancelled? then Cancelled else ValidationError)
            && !failed.recoverable && failed.status.Failed? && Coarse(failed.stage)
            && (Coarse(FailureOf(ctx, parent, attempt, budgets, startedAt, publishing, f).stage) ==>
                  failed.stage == FailureOf(ctx, parent, attempt, budgets, startedAt, publishing, f).stage)
            && st.Some? && st.value.attempt == Some(attempt) && !st.value.recoverable && st.value.stage == failed.stage
            && (st.value.status.Failed? && st.value.category == failed.category
                <==> ctx.status.RunCancelled? || ValidStart(start, parent, attempt, ctx.policies))
  {
    var start, failed := StartOf(parent, attempt, budgets), FailureUnder(ctx.status, ctx, parent, attempt, budgets, startedAt, publishing, f);
    var whole := log + [S(start), F(failed)];
    assert !HasP(whole) by { assert forall i | 0 <= i < |log| :: whole[i] == log[i]; }
    OneStart(ctx, log, parent, attempt, budgets, failed);
    assert whole[|whole| - 1] == F(failed);
  }

  // ------------------------------------------------------------ the language of reachable logs

  datatype Letter = LS | LF | LP

  function LetterOf(e: Event): Letter { match e case S(_) => LS case F(_) => LF case P => LP }

  function Word(log: Log): (w: seq<Letter>)
    ensures |w| == |log| && forall i | 0 <= i < |log| :: w[i] == LetterOf(log[i])
  {
    seq(|log|, i requires 0 <= i < |log| => LetterOf(log[i]))
  }

  predicate Pairs(w: seq<Letter>) {
    |w| % 2 == 0 && forall i | 0 <= i < |w| :: w[i] == if i % 2 == 0 then LS else LF
  }

  predicate Tail(w: seq<Letter>) { w == [] || w == [LS] || w == [LS, LP] }

  predicate Split(w: seq<Letter>, a: int, b: int) {
    && 0 <= a <= 1 && a <= b <= |w| && (a == 1 ==> w[0] == LS) && Pairs(w[a..b]) && Tail(w[b..])
  }

  /** S?(SF)*(S|SP)? */
  ghost predicate InLanguage(w: seq<Letter>) {
    exists a, b :: Split(w, a, b)
  }

  lemma LetterAt(w: seq<Letter>, a: int, b: int, i: int)
    requires Split(w, a, b) && 0 <= i < |w|
    ensures i < a ==> w[i] == LS
    ensures a <= i < b ==> w[i] == if (i - a) % 2 == 0 then LS else LF
    ensures b <= i ==> (i == b && w[i] == LS) || (i == b + 1 == |w| - 1 && w[i] == LP)
    ensures (b - a) % 2 == 0
  {
    if a <= i < b { assert w[i] == w[a..b][i - a]; }
    if b <= i { assert w[i] == w[b..][i - b]; }
  }

  /** The log grows by a whole attempt only where the language has room for it. */
  lemma AttemptFits(ctx: Context, log: Log, parent: nat)
    requires InLanguage(Word(log)) && Admits(ctx, log, parent)
    ensures forall outcome | outcome in {[LS], [LS, LF], [LS, LP]} :: InLanguage(Word(log) + outcome)
  {
    if log == [] {
      FitsFirst();
      assert Word(log) == [];
    } else if log[|log| - 1].S? {
      AfterStart(ctx, log, parent);
      FitsSecond();
      assert Word(log) == [LS];
    } else {
      assert log[|log| - 1].F?;
      FitsFailed(Word(log));
    }
  }

  lemma FitsFirst()
    ensures forall outcome | outcome in {[LS], [LS, LF], [LS, LP]} :: InLanguage([] + outcome)
  {
    var w: seq<Letter> := [];
    assert Split(w, 0, 0);
    Fits(w, 0, 0);
  }

  lemma FitsSecond()
    ensures forall outcome | outcome in {[LS], [LS, LF], [LS, LP]} :: InLanguage([LS] + outcome)
  {
    var w := [LS];
    assert w[1..1] == [] && w[1..] == [];
    assert Split(w, 1, 1);
    Fits(w, 1, 1);
  }

  lemma FitsFailed(w: seq<Letter>)
    requires InLanguage(w) && w != [] && w[|w| - 1] == LF
    ensures forall outcome | outcome in {[LS], [LS, LF], [LS, LP]} :: InLanguage(w + outcome)
  {
    var a, b :| Split(w, a, b);
    LetterAt(w, a, b, |w| - 1);
    Fits(w, a, b);
  }

  /** The only interrupted log that admits an attempt is a single start. */
  lemma AfterStart(ctx: Context, log: Log, parent: nat)
    requires log != [] && log[|log| - 1].S? && Admits(ctx, log, parent)
    ensures |log| == 1
  {
    assert !HasF(log) && CountS(log) == 1;
    CountAll(log);
  }

  lemma {:induction false} CountAll(log: Log)
    requires !HasF(log) && !HasP(log)
    ensures CountS(log) == |log|
  {
    if log != [] {
      var init := log[..|log| - 1];
      assert forall i | 0 <= i < |init| :: init[i] == log[i];
      assert log[|log| - 1].S?;
      CountAll(init);
    }
  }

  /** Where the tail is still empty, an attempt of any outcome fits. */
  lemma Fits(w: seq<Letter>, a: int, b: int)
    requires Split(w, a, b) && b == |w|
    ensures forall outcome | outcome in {[LS], [LS, LF], [LS, LP]} :: InLanguage(w + outcome)
  {
    forall outcome | outcome in {[LS], [LS, LF], [LS, LP]} ensures InLanguage(w + outcome) {
      var v := w + outcome;
      assert v[a..b] == w[a..b] && v[b..] == outcome;
      if outcome == [LS, LF] {
        assert v[a..b + 2] == w[a..b] + [LS, LF] && v[b + 2..] == [];
        assert Split(v, a, b + 2);
      } else {
        assert Split(v, a, b);
      }
    }
  }

  /** What the language means: at most one P, at the end; only the first and the last attempt may lack an outcome. */
  lemma LanguageMeans(w: seq<Letter>, i: int)
    requires InLanguage(w) && 0 <= i < |w|
    ensures w[i] == LP ==> i == |w| - 1 && i > 0 && w[i - 1] == LS
    ensures w[i] == LF ==> i > 0 && w[i - 1] == LS
    ensures w[i] == LS && 0 < i < |w| - 1 ==> w[i + 1] != LS
  {
    var a, b :| Split(w, a, b);
    LetterBefore(w, a, b, i);
    LetterAfter(w, a, b, i);
  }

  lemma LetterBefore(w: seq<Letter>, a: int, b: int, i: int)
    requires Split(w, a, b) && 0 <= i < |w|
    ensures w[i] == LP ==> i == |w| - 1 && i > 0 && w[i - 1] == LS
    ensures w[i] == LF ==> i > 0 && w[i - 1] == LS
  {
    LetterAt(w, a, b, i);
    if i > 0 { LetterAt(w, a, b, i - 1); }
  }

  lemma LetterAfter(w: seq<Letter>, a: int, b: int, i: int)
    requires Split(w, a, b) && 0 <= i < |w|
    ensures w[i] == LS && 0 < i < |w| - 1 ==> w[i + 1] != LS
  {
    LetterAt(w, a, b, i);
    if i + 1 < |w| { LetterAt(w, a, b, i + 1); }
  }

  /** One call of prepare_automatic_solve_bundle: what it sees, and what becomes of its attempt. */
  datatype Call = Call(ctx: Context, attempt: nat, budgets: Option<Budgets>, startedAt: real, publishing: bool,
                       failure: Option<Failure>, ended: RunStatus, cutOff: bool)

  predicate Legal(c: Call) { c.failure.Some? ==> Raised(c.failure.value, c.publishing, c.budgets, c.startedAt) }

  function FailureIn(c: Call, parent: nat): Observation
    requires c.failure.Some?
  {
    FailureUnder(c.ended, c.ctx, parent, c.attempt, c.budgets, c.startedAt, c.publishing, c.failure.value)
  }

  class Preparation {
    const parent: nat
    var log: Log

    constructor (parent: nat)
      ensures this.parent == parent && log == [] && InLanguage(Word(log))
    {
      this.parent := parent;
      log := [];
      new;
      assert Split(Word(log), 0, 0);
    }

    /** prepare_automatic_solve_bundle: refuse, or start an attempt and record how it ended, if it did. */
    method Prepare(c: Call) returns (outcome: seq<Letter>)
      requires InLanguage(Word(log)) && Fresh(log, c.attempt) && Legal(c)
      modifies `log
      ensures InLanguage(Word(log)) && Word(log) == Word(old(log)) + outcome
      ensures outcome == if !Admits(c.ctx, old(log), parent) then [] else if c.cutOff then [LS] else if c.failure.Some? then [LS, LF] else [LS, LP]
      ensures old(log) == [] && c.ctx.status.Active? && c.ctx.filesValid ==> outcome != []
      ensures outcome == [] ==> log == old(log)
      ensures outcome == [LS] ==> log == old(log) + [S(StartOf(parent, c.attempt, c.budgets))]
      ensures outcome == [LS, LP] ==> log == old(log) + [S(StartOf(parent, c.attempt, c.budgets)), P]
      ensures outcome == [LS, LF] ==> log == old(log) + [S(StartOf(parent, c.attempt, c.budgets)), F(FailureIn(c, parent))]
    {
      if !Admits(c.ctx, log, parent) { return []; }
      AttemptFits(c.ctx, log, parent);
      log := log + [S(StartOf(parent, c.attempt, c.budgets))];
      outcome := [LS];
      if !c.cutOff {
        if c.failure.Some? {
          log := log + [F(FailureIn(c, parent))];
          outcome := [LS, LF];
        } else {
          log := log + [P];
          outcome := [LS, LP];
        }
      }
      assert outcome in {[LS], [LS, LF], [LS, LP]};
      assert Word(log) == Word(old(log)) + outcome;
    }

    /** One call, by what it means for the later ones. */
    method Once(c: Call) returns (outcome: seq<Letter>)
      requires InLanguage(Word(log)) && Fresh(log, c.attempt) && Legal(c)
      modifies `log
      ensures InLanguage(Word(log)) && old(log) <= log
      ensures forall a {:trigger Fresh(log, a)} | a != c.attempt && Fresh(old(log), a) :: Fresh(log, a)
      ensures (|old(log)| >= 2 && old(log)[|old(log)| - 1].S?) || HasP(old(log)) ==> log == old(log)
    {
      if |log| >= 2 && log[|log| - 1].S? && Admits(c.ctx, log, parent) { AfterStart(c.ctx, log, parent); }
      outcome := Prepare(c);
      forall a | a != c.attempt && Fresh(old(log), a) ensures Fresh(log, a) {
        forall i | 0 <= i < |log| && !log[i].P? ensures log[i].payload.attempt != Some(a) {
          if i < |old(log)| { assert log[i] == old(log)[i]; }
        }
      }
    }

    /** Any number of calls, each in its own context, under attempt ids that are never drawn twice. */
    method Attempts(calls: seq<Call>)
      requires InLanguage(Word(log)) && forall i | 0 <= i < |calls| :: Legal(calls[i]) && Fresh(log, calls[i].attempt)
      requires forall i, j | 0 <= i < j < |calls| :: calls[i].attempt != calls[j].attempt
      modifies `log
      ensures InLanguage(Word(log)) && old(log) <= log
      ensures |old(log)| >= 2 && old(log)[|old(log)| - 1].S? ==> log == old(log)
      ensures HasP(old(log)) ==> log == old(log)
    {
      var i := 0;
      while i < |calls|
        invariant 0 <= i <= |calls| && InLanguage(Word(log)) && old(log) <= log
        invariant forall j | i <= j < |calls| :: Fresh(log, calls[j].attempt)
        invariant (|old(log)| >= 2 && old(log)[|old(log)| - 1].S?) || HasP(old(log)) ==> log == old(log)
      {
        var outcome := Once(calls[i]);
        i := i + 1;
      }
    }
  }
}
