/**
  The bounded agent loop: its transcript-pairing check, its tool-step accounting, and the
  budget diagnostic that every run leaves behind.
*/
module AgentLoops {

  datatype Option<+T> = None | Some(value: T)

  type CallId = string

  datatype Role = System | User | Assistant | Tool | OtherRole

  /** The tool_calls of a message; an id that is not a non-empty string is None. */
  datatype Calls = NoCalls | NotAList | Calls(ids: seq<Option<CallId>>)

  datatype Message = Message(role: Role, answers: Option<CallId>, calls: Calls)

  // ------------------------------------------------------------ what a paired transcript is

  predicate DistinctIds(ids: seq<Option<CallId>>) {
    && (forall i | 0 <= i < |ids| :: ids[i].Some?)
    && (forall i, j | 0 <= i < j < |ids| :: ids[i] != ids[j])
  }

  /** The messages are the results of these calls, one each, in any order. */
  predicate Answers(ms: seq<Message>, ids: seq<Option<CallId>>) {
    && |ms| == |ids|
    && (forall i | 0 <= i < |ms| :: ms[i].role.Tool? && ms[i].answers.Some? && ms[i].answers in ids)
    && (forall i, j | 0 <= i < j < |ms| :: ms[i].answers != ms[j].answers)
  }

  /** A message without calls, or an assistant message with all the results of its distinct calls. */
  predicate Block(b: seq<Message>) {
    && b != [] && !b[0].role.Tool?
    && match b[0].calls
       case NoCalls => |b| == 1
       case NotAList => false
       case Calls(ids) => b[0].role.Assistant? && DistinctIds(ids) && Answers(b[1..], ids)
  }

  /** The transcript splits into blocks. */
  ghost predicate Blocks(ms: seq<Message>) {
    ms == [] || exists k :: 0 < k <= |ms| && Block(ms[..k]) && Blocks(ms[k..])
  }

  // ------------------------------------------------------------ the same, one message at a time

  /** What the check does with the rest of a transcript while some calls are still unanswered. */
  predicate Scan(ms: seq<Message>, pending: set<CallId>)
    decreases |ms|
  {
    if ms == [] then pending == {} else
    var m := ms[0];
    if m.role.Tool? then m.answers.Some? && m.answers.value in pending && Scan(ms[1..], pending - {m.answers.value})
    else if pending != {} then false else
    match m.calls
    case NoCalls => Scan(ms[1..], {})
    case NotAList => false
    case Calls(ids) => m.role.Assistant? && DistinctIds(ids) && Scan(ms[1..], IdSet(ids))
  }

  function IdSet(ids: seq<Option<CallId>>): set<CallId> {
    set i | 0 <= i < |ids| && ids[i].Some? :: ids[i].value
  }

  /** The first messages of a scan with pending calls are their results, and nothing else. */
  predicate Results(ms: seq<Message>, pending: set<CallId>)
    decreases |ms|
  {
    if ms == [] then pending == {} else
    ms[0].role.Tool? && ms[0].answers.Some? && ms[0].answers.value in pending
    && Results(ms[1..], pending - {ms[0].answers.value})
  }

  lemma {:induction false} ScanResults(ms: seq<Message>, pending: set<CallId>)
    requires Scan(ms, pending)
    ensures |pending| <= |ms| && Results(ms[..|pending|], pending) && Scan(ms[|pending|..], {})
    decreases |ms|
  {
    if pending != {} {
      var rest := pending - {ms[0].answers.value};
      ScanResults(ms[1..], rest);
      assert |rest| == |pending| - 1;
      assert ms[..|pending|][1..] == ms[1..][..|rest|] && ms[|pending|..] == ms[1..][|rest|..];
    } else {
      assert ms[..0] == [] && ms[0..] == ms;
    }
  }

  lemma {:induction false} ResultsScan(b: seq<Message>, rest: seq<Message>, pending: set<CallId>)
    requires Results(b, pending) && Scan(rest, {})
    ensures Scan(b + rest, pending)
    decreases |b|
  {
    if b == [] {
      assert b + rest == rest;
    } else {
      ResultsScan(b[1..], rest, pending - {b[0].answers.value});
      assert (b + rest)[1..] == b[1..] + rest;
    }
  }

  predicate DistinctAnswers(b: seq<Message>) {
    forall i, j | 0 <= i < j < |b| :: b[i].answers != b[j].answers
  }

  predicate AnswersIn(b: seq<Message>, pending: set<CallId>) {
    forall i | 0 <= i < |b| :: b[i].role.Tool? && b[i].answers.Some? && b[i].answers.value in pending
  }

  /** One result for each pending call, told by counting instead of by crossing off. */
  lemma {:induction false} ResultsAre(b: seq<Message>, pending: set<CallId>)
    ensures Results(b, pending) <==> |b| == |pending| && AnswersIn(b, pending) && DistinctAnswers(b)
    decreases |b|
  {
    if b != [] && b[0].role.Tool? && b[0].answers.Some? && b[0].answers.value in pending {
      var id := b[0].answers.value;
      var rest, less := b[1..], pending - {id};
      ResultsAre(rest, less);
      assert |less| == |pending| - 1;
      if AnswersIn(rest, less) && DistinctAnswers(rest) {
        forall i, j | 0 <= i < j < |b| ensures b[i].answers != b[j].answers {
          assert b[j] == rest[j - 1];
          if i > 0 { assert b[i] == rest[i - 1]; }
        }
        forall i | 0 <= i < |b| ensures b[i].role.Tool? && b[i].answers.Some? && b[i].answers.value in pending {
          if i > 0 { assert b[i] == rest[i - 1]; }
        }
      }
      if AnswersIn(b, pending) && DistinctAnswers(b) {
        forall i | 0 <= i < |rest| ensures rest[i].role.Tool? && rest[i].answers.Some? && rest[i].answers.value in less {
          assert rest[i] == b[i + 1] && b[0].answers != b[i + 1].answers;
        }
        forall i, j | 0 <= i < j < |rest| ensures rest[i].answers != rest[j].answers { assert b[i + 1].answers != b[j + 1].answers; }
      }
    }
  }

  lemma {:induction false} IdSetSize(ids: seq<Option<CallId>>)
    requires DistinctIds(ids)
    ensures |IdSet(ids)| == |ids| && forall x :: x in IdSet(ids) <==> Some(x) in ids
  {
    if ids != [] {
      var init, last := ids[..|ids| - 1], ids[|ids| - 1];
      IdSetSize(init);
      assert ids == init + [last];
      assert Some(last.value) !in init;
      assert IdSet(ids) == IdSet(init) + {last.value};
    }
  }

  lemma AnswersAre(b: seq<Message>, ids: seq<Option<CallId>>)
    requires DistinctIds(ids)
    ensures Answers(b, ids) <==> Results(b, IdSet(ids))
  {
    IdSetSize(ids);
    ResultsAre(b, IdSet(ids));
    forall i | 0 <= i < |b| && b[i].answers.Some? ensures b[i].answers in ids <==> b[i].answers.value in IdSet(ids) {
      assert b[i].answers == Some(b[i].answers.value);
    }
  }

  /** The message-by-message check accepts exactly the transcripts that split into blocks. */
  lemma {:induction false} ScanIsBlocks(ms: seq<Message>)
    ensures Scan(ms, {}) <==> Blocks(ms)
    decreases |ms|
  {
    if ms != [] {
      if Scan(ms, {}) {
        ScanTakesBlock(ms);
      }
      if Blocks(ms) {
        var k :| 0 < k <= |ms| && Block(ms[..k]) && Blocks(ms[k..]);
        ScanIsBlocks(ms[k..]);
        BlockScans(ms, k);
      }
    }
  }

  lemma ScanTakesBlock(ms: seq<Message>)
    requires ms != [] && Scan(ms, {})
    ensures Blocks(ms)
    decreases |ms|, 0
  {
    var k := 1;
    if ms[0].calls.Calls? {
      var ids := ms[0].calls.ids;
      ScanResults(ms[1..], IdSet(ids));
      k := 1 + |IdSet(ids)|;
      assert ms[..k][1..] == ms[1..][..k - 1] && ms[k..] == ms[1..][k - 1..];
      AnswersAre(ms[..k][1..], ids);
    }
    assert Block(ms[..k]) && Scan(ms[k..], {});
    ScanIsBlocks(ms[k..]);
  }

  lemma BlockScans(ms: seq<Message>, k: int)
    requires 0 < k <= |ms| && Block(ms[..k]) && Scan(ms[k..], {})
    ensures Scan(ms, {})
  {
    if ms[0].calls.Calls? {
      var ids := ms[0].calls.ids;
      AnswersAre(ms[..k][1..], ids);
      ResultsScan(ms[..k][1..], ms[k..], IdSet(ids));
      assert ms[1..] == ms[..k][1..] + ms[k..];
    } else {
      assert ms[k..] == ms[1..];
    }
  }

  /** The last loaded message is the last of this conversation. */
  predicate TailMatches(durable: seq<Message>, messages: seq<Message>) {
    && durable != [] && messages != []
    && durable[|durable| - 1].role == messages[|messages| - 1].role
    && durable[|durable| - 1].answers == messages[|messages| - 1].answers
  }

  /** _durable_transcript_complete. */
  method TranscriptComplete(durable: seq<Message>, messages: seq<Message>) returns (complete: bool)
    ensures complete <==> TailMatches(durable, messages) && Blocks(durable)
  {
    if durable == [] || messages == [] { return false; }
    var d, m := durable[|durable| - 1], messages[|messages| - 1];
    if d.role != m.role { return false; }
    if d.answers != m.answers { return false; }
    ScanIsBlocks(durable);
    var pending: set<CallId> := {};
    var i := 0;
    while i < |durable|
      invariant 0 <= i <= |durable|
      invariant Scan(durable, {}) <==> Scan(durable[i..], pending)
    {
      var message := durable[i];
      assert durable[i..][0] == message && durable[i..][1..] == durable[i + 1..];
      i := i + 1;
      if message.role.Tool? {
        if message.answers.None? || message.answers.value !in pending { return false; }
        pending := pending - {message.answers.value};
        continue;
      }
      if pending != {} { return false; }
      if message.calls.NoCalls? { continue; }
      if !message.role.Assistant? || message.calls.NotAList? { return false; }
      var ok := true;
      ok, pending := AddCalls(message.calls.ids);
      if !ok { return false; }
    }
    return pending == {};
  }

  /** The inner loop over the calls of one message. */
  method AddCalls(ids: seq<Option<CallId>>) returns (ok: bool, pending: set<CallId>)
    ensures ok <==> DistinctIds(ids)
    ensures ok ==> pending == IdSet(ids)
  {
    pending := {};
    var i := 0;
    while i < |ids|
      invariant 0 <= i <= |ids| && DistinctIds(ids[..i]) && pending == IdSet(ids[..i])
    {
      if ids[i].None? { return false, pending; }
      assert ids[..i + 1] == ids[..i] + [ids[i]];
      IdSetSize(ids[..i]);
      if ids[i].value in pending {
        assert Some(ids[i].value) in ids[..i];
        return false, pending;
      }
      assert ids[i] !in ids[..i] by { assert ids[i] == Some(ids[i].value); }
      assert IdSet(ids[..i + 1]) == pending + {ids[i].value};
      pending := pending + {ids[i].value};
      i := i + 1;
    }
    assert ids[..i] == ids;
    return true, pending;
  }

  // ------------------------------------------------------------ what the loop appends

  function CallMessage(ids: seq<Option<CallId>>): Message { Message(Assistant, None, Calls(ids)) }
  function ResultMessage(id: Option<CallId>): Message { Message(Tool, id, NoCalls) }

  /** The results of the first n calls. */
  function ResultMessages(ids: seq<Option<CallId>>, n: nat): (b: seq<Message>)
    requires n <= |ids|
    ensures |b| == n && forall i | 0 <= i < n :: b[i] == ResultMessage(ids[i])
  {
    seq(n, i requires 0 <= i < n => ResultMessage(ids[i]))
  }

  lemma {:induction false} ScanAppend(ms: seq<Message>, more: seq<Message>, pending: set<CallId>)
    requires Scan(ms, pending)
    ensures Scan(ms + more, pending) <==> Scan(more, {})
    decreases |ms|
  {
    if ms == [] {
      assert ms + more == more;
    } else {
      assert (ms + more)[1..] == ms[1..] + more;
      var m := ms[0];
      if m.role.Tool? {
        ScanAppend(ms[1..], more, pending - {m.answers.value});
      } else if m.calls.Calls? {
        ScanAppend(ms[1..], more, IdSet(m.calls.ids));
      } else {
        ScanAppend(ms[1..], more, {});
      }
    }
  }

  /** A message without calls keeps a paired transcript paired. */
  lemma PlainKeepsBlocks(ms: seq<Message>, m: Message)
    requires Blocks(ms) && !m.role.Tool? && m.calls.NoCalls?
    ensures Blocks(ms + [m])
  {
    ScanIsBlocks(ms);
    ScanAppend(ms, [m], {});
    ScanIsBlocks(ms + [m]);
  }

  /** After the call message and n results, a paired transcript is paired again exactly when n is all of them. */
  lemma BatchPairs(ms: seq<Message>, ids: seq<Option<CallId>>, n: nat)
    requires Blocks(ms) && n <= |ids|
    ensures Blocks(ms + [CallMessage(ids)] + ResultMessages(ids, n)) <==> DistinctIds(ids) && n == |ids|
  {
    var batch := [CallMessage(ids)] + ResultMessages(ids, n);
    var all := ms + [CallMessage(ids)] + ResultMessages(ids, n);
    assert all == ms + batch;
    ScanIsBlocks(ms);
    ScanIsBlocks(all);
    ScanAppend(ms, batch, {});
    assert batch[1..] == ResultMessages(ids, n);
    if DistinctIds(ids) { PartialResults(ids, n); }
  }

  lemma PartialResults(ids: seq<Option<CallId>>, n: nat)
    requires DistinctIds(ids) && n <= |ids|
    ensures Scan(ResultMessages(ids, n), IdSet(ids)) <==> n == |ids|
  {
    var b := ResultMessages(ids, n);
    IdSetSize(ids);
    if Scan(b, IdSet(ids)) { ScanResults(b, IdSet(ids)); }
    if n == |ids| {
      forall i | 0 <= i < n ensures b[i].answers.value in IdSet(ids) { assert Some(ids[i].value) in ids; }
      ResultsAre(b, IdSet(ids));
      assert b + [] == b;
      ResultsScan(b, [], IdSet(ids));
    }
  }

  // ------------------------------------------------------------ budget diagnostics

  datatype Reason =
    Running | Completed | StepLimit | ToolFailed | Timeout | EmptyResponse | MalformedCandidate | Cancelled | WorkerFailed

  datatype Phase = ModelTurn | ToolBatch | ToolCall | Response | WholeRun

  /** Why a model request failed, as far as the repository's own exception says. */
  datatype Cause = TransportTimeout | OtherCause(code: nat)

  /** What is read off an exception. */
  datatype Error = Error(timedOut: bool, cancelled: bool, cause: Option<Cause>)

  const PLAIN := Error(false, false, None)
  const TIMED_OUT := Error(true, false, None)

  /** candidate_failure_reason */
  function FailureReason(e: Error): Reason {
    if e.timedOut then Timeout
    else if e.cancelled then Cancelled
    else if e.cause == Some(TransportTimeout) then Timeout
    else WorkerFailed
  }

  /** A budget id: the generator's own, numbered by iteration and call, or one that its caller gave. */
  datatype BudgetId = Numbered(iteration: nat, call: nat) | Given(name: nat)

  /** CandidateGenerationBudget, which refuses other numbers of steps. */
  type Authority = n: int | 1 <= n <= 200 witness 1

  datatype Budget = Budget(id: BudgetId, steps: Authority)

  datatype Diagnostic = Diagnostic(budget: BudgetId, maximum: int, used: int, remaining: int, attempted: int, completion: bool,
                                   reason: Reason, phase: Phase, cause: Option<Cause>)

  function Max(a: int, b: int): int { if a < b then b else a }

  function Min(a: int, b: int): int { if a < b then a else b }

  function Diagnose(budget: BudgetId, maximum: int, used: int, attempted: int, completion: bool, reason: Reason, phase: Phase,
                    cause: Option<Cause>): Diagnostic {
    Diagnostic(budget, maximum, used, Max(0, maximum - used), attempted, completion, reason, phase, cause)
  }

  function Unfinished(budget: BudgetId, maximum: int, offset: int): Diagnostic {
    Diagnose(budget, maximum, offset, 0, false, Running, ModelTurn, None)
  }

  // ------------------------------------------------------------ the loop

  datatype Turn = Turn(hasText: bool, calls: seq<Option<CallId>>)

  /** How a run ends: a Failure leaves a diagnostic of its own, a Refused run does not. */
  datatype Outcome =
    | Final
    | LimitReached(maximum: int, steps: int, attempted: int)
    | Boundary                       // StageBoundary
    | InputRequired
    | Failure(attempted: int, reason: Reason, phase: Phase, error: Error)
    | Refused(error: Error)

  /** The exception that ends a run without an answer. */
  function ErrorOf(outcome: Outcome): Error {
    if outcome.Failure? || outcome.Refused? then outcome.error else PLAIN
  }

  /** The diagnostic that a run leaves behind. */
  function Report(budget: BudgetId, maximum: int, offset: int, steps: int, outcome: Outcome): Diagnostic {
    match outcome
    case Final => Diagnose(budget, maximum, steps, 0, true, Completed, Response, None)
    case LimitReached(_, _, attempted) => Diagnose(budget, maximum, steps, attempted, false, StepLimit, ToolBatch, None)
    case Failure(attempted, reason, phase, error) =>
      Diagnose(budget, maximum, steps, attempted, false, reason, phase, if phase.ModelTurn? then error.cause else None)
    case _ => Unfinished(budget, maximum, offset)
  }

  /** The run itself said how it ended. */
  predicate Told(outcome: Outcome) {
    outcome.Final? || outcome.LimitReached? || outcome.Failure?
  }

  /** A told failure names its exception's reason, or one of the two that the loop finds by itself. */
  predicate Sensible(outcome: Outcome) {
    && (outcome.LimitReached? ==> outcome.attempted >= 0)
    && (outcome.Failure? ==>
          && outcome.attempted >= 0 && !outcome.phase.WholeRun?
          && (outcome.reason == FailureReason(outcome.error)
              || (outcome.error == PLAIN && (outcome.reason.ToolFailed? || outcome.reason.EmptyResponse?))))
  }

  function TurnAt(turns: seq<Turn>, k: nat): Turn { if k < |turns| then turns[k] else Turn(false, []) }

  /**
    Where a run goes whose model gives these turns from the k-th on and which nothing disturbs: to the first turn
    without calls, or to the first whose calls would pass the limit. With the tool steps that it has then taken.
  */
  function Course(turns: seq<Turn>, k: nat, steps: int, maximum: int): (Outcome, int)
    decreases |turns| - k
  {
    var turn := TurnAt(turns, k);
    if turn.calls == [] then (if turn.hasText then Final else Failure(0, EmptyResponse, Response, PLAIN), steps)
    else if steps + |turn.calls| > maximum then (LimitReached(maximum, steps, |turn.calls|), steps)
    else Course(turns, k + 1, steps + |turn.calls|, maximum)
  }

  class AgentLoop {
    const faulty: bool               // a run may time out, fail, be refused or be interrupted at any step
    const maxSteps: int              // min(max_steps, profile.max_steps)
    const profile: Option<int>       // the profile's own max_steps
    var transcript: seq<Message>     // the durable transcript
    var messages: seq<Message>
    var toolSteps: int
    var diagnostic: Option<Diagnostic>
    // this invocation
    var budgeted: bool               // a candidate budget rides on it
    var budget: BudgetId
    var maximum: int                 // effective_max_steps
    var staged: bool                 // the caller passed a stage boundary
    var executed: nat                // tools started
    var requests: nat                // model requests
    ghost var distinct: bool         // every batch so far had distinct ids
    var turns: seq<Turn>             // what the model answers, one turn a request
    ghost var last: Turn             // the latest turn

    constructor (faulty: bool, maxSteps: int, profile: Option<int>, transcript: seq<Message>)
      requires maxSteps >= 1 && (profile.Some? ==> profile.value >= 1)
      ensures Valid() && this.transcript == transcript && diagnostic == None && this.profile == profile && this.faulty == faulty
      ensures profile.Some? ==> this.maxSteps <= profile.value
    {
      this.faulty, this.profile, this.maxSteps := faulty, profile, if profile.Some? then Min(maxSteps, profile.value) else maxSteps;
      this.transcript, messages := transcript, transcript;
      toolSteps, executed, requests, diagnostic, distinct := 0, 0, 0, None, true;
      budgeted, budget, maximum, staged := false, Given(0), 0, false;
      turns, last := [], Turn(false, []);
    }

    predicate Valid() {
      maxSteps >= 1 && (profile.Some? ==> profile.value >= 1)
    }

    /** A candidate budget replaces the ordinary limit, and only a profile narrows it. */
    function Effective(candidate: Option<Budget>): int {
      if candidate.None? then maxSteps
      else if profile.None? then candidate.value.steps
      else Min(candidate.value.steps, profile.value)
    }

    /** The diagnostic, when there is one, describes this budget and adds up. */
    ghost predicate Accounted(offset: int)
      reads this
    {
      && toolSteps == offset + executed
      && (diagnostic.Some? ==>
            && budgeted && diagnostic.value.budget == budget && diagnostic.value.maximum == maximum
            && offset <= diagnostic.value.used <= toolSteps
            && diagnostic.value.remaining == Max(0, maximum - diagnostic.value.used)
            && (diagnostic.value.completion <==> diagnostic.value.reason.Completed?))
    }

    /** The diagnostic still says that the run is going on. */
    ghost predicate Going(offset: int)
      reads this
    {
      budgeted ==> diagnostic == Some(Unfinished(budget, maximum, offset))
    }

    ghost predicate Reported(offset: int, outcome: Outcome)
      reads this
    {
      Sensible(outcome) && (budgeted ==> diagnostic == Some(Report(budget, maximum, offset, toolSteps, outcome)))
    }

    /** An answer is a turn of text alone, an empty one a turn of nothing, and the limit counts the calls of the turn. */
    ghost predicate Answered(outcome: Outcome)
      reads this
    {
      && (outcome.Final? ==> last.calls == [] && last.hasText)
      && (outcome.Failure? && outcome.reason.EmptyResponse? ==> last.calls == [] && !last.hasText)
      && (outcome.LimitReached? ==> outcome.attempted == |last.calls| > 0)
    }

    /** Something may go wrong here. */
    method Disturbed() returns (b: bool)
      ensures !faulty ==> !b
    {
      b := *;
      b := b && faulty;
    }

    method SetDiagnostic(attempted: int, completion: bool, reason: Reason, phase: Phase, cause: Option<Cause>, ghost offset: int)
      requires Accounted(offset) && (completion <==> reason.Completed?)
      modifies `diagnostic
      ensures Accounted(offset)
      ensures budgeted ==> diagnostic == Some(Diagnose(budget, maximum, toolSteps, attempted, completion, reason, phase, cause))
    {
      if budgeted { diagnostic := Some(Diagnose(budget, maximum, toolSteps, attempted, completion, reason, phase, cause)); }
    }

    method Append(m: Message)
      modifies `messages, `transcript
      ensures messages == old(messages) + [m] && transcript == old(transcript) + [m]
    {
      messages := messages + [m];
      transcript := transcript + [m];
    }

    /** The tools of one admitted batch, one result appended after each. */
    method RunBatch(ids: seq<Option<CallId>>, ghost offset: int, ghost base: seq<Message>) returns (outcome: Option<Outcome>)
      requires Accounted(offset) && Going(offset) && 0 < |ids| && toolSteps + |ids| <= maximum
      requires transcript == base + [CallMessage(ids)]
      requires transcript != [] && messages != [] && TailMatches(transcript, messages)
      modifies `messages, `transcript, `toolSteps, `executed, `diagnostic
      ensures Accounted(offset) && old(toolSteps) <= toolSteps <= maximum
      ensures exists n :: 0 <= n <= |ids| && transcript == base + [CallMessage(ids)] + ResultMessages(ids, n)
      ensures outcome.None? ==> toolSteps == old(toolSteps) + |ids| && TailMatches(transcript, messages) && Going(offset)
      ensures outcome.None? ==> transcript == base + [CallMessage(ids)] + ResultMessages(ids, |ids|)
      ensures outcome.Some? ==> Stopped(outcome.value) && Reported(offset, outcome.value)
      ensures !faulty ==> outcome.None?
    {
      var i := 0;
      assert base + [CallMessage(ids)] + ResultMessages(ids, 0) == transcript;
      while i < |ids|
        invariant 0 <= i <= |ids| && Accounted(offset) && Going(offset) && toolSteps == old(toolSteps) + i
        invariant transcript == base + [CallMessage(ids)] + ResultMessages(ids, i)
        invariant TailMatches(transcript, messages)
      {
        outcome := RunTool(offset);
        if outcome.Some? { return; }
        Append(ResultMessage(ids[i]));
        assert ResultMessages(ids, i + 1) == ResultMessages(ids, i) + [ResultMessage(ids[i])];
        i := i + 1;
        var late := Disturbed();
        if late {
          outcome := Fail(1, Timeout, ToolCall, TIMED_OUT, offset);
          return;
        }
        var asks := Disturbed();
        if asks { return Some(InputRequired); }
      }
      return None;
    }

    /** One tool: refused, out of time, raising, unsuccessful under a candidate budget, or executed. */
    method RunTool(ghost offset: int) returns (outcome: Option<Outcome>)
      requires Accounted(offset) && Going(offset)
      modifies `toolSteps, `executed, `diagnostic
      ensures Accounted(offset) && old(toolSteps) <= toolSteps <= old(toolSteps) + 1
      ensures outcome.None? ==> toolSteps == old(toolSteps) + 1 && Going(offset)
      ensures !faulty ==> outcome.None?
      ensures outcome.Some? ==> Stopped(outcome.value) && Reported(offset, outcome.value)
    {
      outcome := CheckContinuation();
      if outcome.Some? { return; }
      var late := Disturbed();
      if late {
        outcome := Fail(1, Timeout, ToolCall, TIMED_OUT, offset);
        return;
      }
      toolSteps, executed := toolSteps + 1, executed + 1;
      var raised := Disturbed();
      if raised {
        var error: Error := *;
        outcome := Fail(1, FailureReason(error), ToolCall, error, offset);
        return;
      }
      var failed := Disturbed();
      if budgeted && failed {
        outcome := Fail(1, ToolFailed, ToolCall, PLAIN, offset);
        return;
      }
      return None;
    }

    /** What ends a batch early. */
    predicate Stopped(outcome: Outcome) {
      outcome.InputRequired? || (outcome.Failure? && !outcome.reason.EmptyResponse?) || outcome.Refused?
    }

    /** The continuation guard, the usage ledger and the profile's ceilings may forbid to go on. */
    method CheckContinuation() returns (outcome: Option<Outcome>)
      ensures outcome.Some? ==> outcome.value.Refused?
      ensures !faulty ==> outcome.None?
    {
      var stopped := Disturbed();
      if !stopped { return None; }
      var error: Error := *;
      return Some(Refused(error));
    }

    method Fail(attempted: int, reason: Reason, phase: Phase, error: Error, ghost offset: int) returns (outcome: Option<Outcome>)
      requires Accounted(offset) && Sensible(Failure(attempted, reason, phase, error))
      modifies `diagnostic
      ensures Accounted(offset) && outcome == Some(Failure(attempted, reason, phase, error)) && Reported(offset, outcome.value)
    {
      SetDiagnostic(attempted, false, reason, phase, if phase.ModelTurn? then error.cause else None, offset);
      return Some(Failure(attempted, reason, phase, error));
    }

    /** One admitted batch: the assistant's message, then every tool and its result. */
    method TakeBatch(ids: seq<Option<CallId>>, ghost offset: int) returns (outcome: Option<Outcome>)
      requires Accounted(offset) && Going(offset) && 0 < |ids| && toolSteps + |ids| <= maximum
      modifies `messages, `transcript, `toolSteps, `executed, `diagnostic, `distinct
      ensures Accounted(offset) && old(toolSteps) <= toolSteps <= maximum
      ensures outcome.Some? ==> Stopped(outcome.value) && Reported(offset, outcome.value)
      ensures distinct == (old(distinct) && DistinctIds(ids))
      ensures !faulty ==> outcome.None?
      ensures outcome.None? ==> toolSteps == old(toolSteps) + |ids| && TailMatches(transcript, messages) && Going(offset)
      ensures outcome.None? && Blocks(old(transcript)) && distinct ==> Blocks(transcript)
    {
      distinct := distinct && DistinctIds(ids);
      Append(CallMessage(ids));
      outcome := RunBatch(ids, offset, old(transcript));
      if Blocks(old(transcript)) { BatchPairs(old(transcript), ids, |ids|); }
    }

    /** The final answer. */
    method Answer(ghost offset: int)
      requires Accounted(offset)
      modifies `transcript, `diagnostic
      ensures Accounted(offset)
      ensures Blocks(old(transcript)) ==> Blocks(transcript)
      ensures Reported(offset, Final)
    {
      if Blocks(transcript) { PlainKeepsBlocks(transcript, Message(Assistant, None, NoCalls)); }
      transcript := transcript + [Message(Assistant, None, NoCalls)];
      SetDiagnostic(0, true, Completed, Response, None, offset);
    }

    /** Before every later request, the caller may end the stage, but only on paired history. */
    method CheckBoundary() returns (outcome: Option<Outcome>)
      requires staged
      ensures outcome.Some? ==> outcome.value.Boundary? || outcome.value.Refused?
      ensures outcome == Some(Boundary) ==> TailMatches(transcript, messages) && Blocks(transcript)
    {
      var complete := TranscriptComplete(transcript, messages);
      outcome := CheckContinuation();                 // the caller's boundary itself may raise
      if outcome.Some? { return; }
      var ends: bool := *;
      if !ends { return None; }
      var usageComplete: bool := *;
      if !usageComplete || !complete { return Some(Refused(PLAIN)); }
      return Some(Boundary);
    }

    /** The model's turn: its text or its calls, or a failed or interrupted request. */
    method Request(ghost offset: int) returns (turn: Turn, outcome: Option<Outcome>)
      requires Accounted(offset) && Going(offset)
      modifies `requests, `diagnostic, `last
      ensures Accounted(offset) && requests == old(requests) + 1 && last == turn
      ensures !faulty ==> outcome.None?
      ensures outcome.None? ==> turn == TurnAt(turns, old(requests))
      ensures if outcome.Some? then Stopped(outcome.value) && Reported(offset, outcome.value) else Going(offset)
    {
      turn := TurnAt(turns, requests);
      requests := requests + 1;
      last := turn;
      var asks := Disturbed();
      if asks { return turn, Some(InputRequired); }
      var raised := Disturbed();
      if raised {
        var error: Error := *;
        outcome := Fail(0, FailureReason(error), ModelTurn, error, offset);
        return;
      }
      outcome := CheckContinuation();                 // the usage of the turn could not be recorded
      if outcome.Some? { return; }
      var late := Disturbed();
      if late { outcome := Fail(0, Timeout, Response, TIMED_OUT, offset); }
    }

    /** The time left, the profile's ceilings and the stage boundary, before a request. */
    method Ready(ghost offset: int) returns (outcome: Option<Outcome>)
      requires Accounted(offset) && Going(offset)
      modifies `diagnostic
      ensures Accounted(offset) && (if outcome.Some? then Reported(offset, outcome.value) else Going(offset))
      ensures outcome.Some? ==> Stopped(outcome.value) || outcome.value.Boundary?
      ensures outcome == Some(Boundary) ==> staged && Blocks(transcript)
      ensures !faulty && !staged ==> outcome.None?
    {
      var late := Disturbed();
      if late {
        outcome := Fail(0, Timeout, ModelTurn, TIMED_OUT, offset);
        return;
      }
      outcome := CheckContinuation();
      if outcome.None? && requests > 0 && staged { outcome := CheckBoundary(); }
    }

    /** What a turn of the model leads to: an answer, the limit, or its batch. */
    method TakeTurn(turn: Turn, ghost offset: int) returns (outcome: Option<Outcome>)
      requires Accounted(offset) && Going(offset) && TailMatches(transcript, messages) && last == turn
      modifies `messages, `transcript, `toolSteps, `executed, `diagnostic, `distinct
      ensures Accounted(offset) && old(executed) <= executed && (executed == old(executed) || toolSteps <= maximum)
      ensures old(distinct) || !distinct
      ensures outcome.None? ==> executed > old(executed) && TailMatches(transcript, messages) && Going(offset)
      ensures outcome.None? && Blocks(old(transcript)) && distinct ==> Blocks(transcript)
      ensures outcome.Some? ==> Reported(offset, outcome.value) && Answered(outcome.value) && !outcome.value.Boundary?
      ensures outcome.Some? && outcome.value.LimitReached? ==>
        && outcome.value == LimitReached(maximum, toolSteps, outcome.value.attempted)
        && toolSteps + outcome.value.attempted > maximum && transcript == old(transcript) && executed == old(executed)
      ensures outcome == Some(Final) ==> (Blocks(old(transcript)) ==> Blocks(transcript))
      ensures !faulty ==>
        if turn.calls == [] then toolSteps == old(toolSteps) && outcome == Some(if turn.hasText then Final else Failure(0, EmptyResponse, Response, PLAIN))
        else if old(toolSteps) + |turn.calls| > maximum then toolSteps == old(toolSteps) && outcome == Some(LimitReached(maximum, toolSteps, |turn.calls|))
        else outcome.None? && toolSteps == old(toolSteps) + |turn.calls|
    {
      if turn.calls == [] {
        outcome := CheckContinuation();
        if outcome.Some? { return; }
        if !turn.hasText {
          outcome := Fail(0, EmptyResponse, Response, PLAIN, offset);
          return;
        }
        Answer(offset);
        return Some(Final);
      }
      if toolSteps + |turn.calls| > maximum {
        SetDiagnostic(|turn.calls|, false, StepLimit, ToolBatch, None, offset);
        return Some(LimitReached(maximum, toolSteps, |turn.calls|));
      }
      outcome := TakeBatch(turn.calls, offset);
    }

    /** One round of the loop: at most one model request, then what its turn leads to. */
    method Round(ghost offset: int) returns (outcome: Option<Outcome>)
      requires Accounted(offset) && Going(offset) && TailMatches(transcript, messages)
      modifies `messages, `transcript, `toolSteps, `executed, `requests, `diagnostic, `distinct, `last
      ensures Accounted(offset) && requests <= old(requests) + 1
      ensures executed == old(executed) || toolSteps <= maximum
      ensures executed >= old(executed) && (old(distinct) || !distinct)
      ensures outcome.None? ==> executed > old(executed) && TailMatches(transcript, messages) && Going(offset)
      ensures outcome.None? && Blocks(old(transcript)) && distinct ==> Blocks(transcript)
      ensures outcome.Some? ==> Reported(offset, outcome.value) && Answered(outcome.value)
      ensures outcome == Some(Boundary) ==> staged && Blocks(transcript)
      ensures outcome.Some? && outcome.value.LimitReached? ==>
        && outcome.value == LimitReached(maximum, toolSteps, outcome.value.attempted)
        && toolSteps + outcome.value.attempted > maximum
        && transcript == old(transcript) && executed == old(executed)
      ensures outcome == Some(Final) ==> (Blocks(old(transcript)) ==> Blocks(transcript))
      ensures !faulty && !staged ==>
        && requests == old(requests) + 1
        && Course(turns, old(requests), old(toolSteps), maximum)
           == if outcome.Some? then (outcome.value, toolSteps) else Course(turns, requests, toolSteps, maximum)
    {
      outcome := Ready(offset);
      if outcome.Some? { return; }
      var turn;
      turn, outcome := Request(offset);
      if outcome.Some? { return; }
      outcome := TakeTurn(turn, offset);
    }

    /** _initial_messages: the loaded history, a system message if it has none, and the prompt unless it ends with it. */
    method Begin(promptIsLast: bool)
      modifies `messages, `transcript
      ensures TailMatches(transcript, messages) && (Blocks(old(transcript)) ==> Blocks(transcript))
    {
      ghost var began := Blocks(transcript);
      var system, prompt := Message(System, None, NoCalls), Message(User, None, NoCalls);
      var loaded := transcript;
      messages := loaded;
      if forall i | 0 <= i < |loaded| :: !loaded[i].role.System? {
        messages := [system] + loaded;
        if loaded == [] {
          if began { PlainKeepsBlocks(transcript, system); }
          transcript := transcript + [system];
        }
      }
      if !promptIsLast || loaded == [] || !loaded[|loaded| - 1].role.User? {
        if began { PlainKeepsBlocks(transcript, prompt); }
        Append(prompt);
      }
    }

    /** The rounds, until one ends the run. */
    method Rounds(ghost offset: int) returns (outcome: Outcome)
      requires Accounted(offset) && Going(offset) && executed == requests == 0 && distinct && TailMatches(transcript, messages)
      modifies `messages, `transcript, `toolSteps, `executed, `requests, `diagnostic, `distinct, `last
      ensures Accounted(offset) && Reported(offset, outcome) && Answered(outcome) && (offset <= maximum ==> toolSteps <= maximum)
      ensures executed <= Max(0, maximum - offset) && requests <= Max(0, maximum - offset) + 1
      ensures outcome == Boundary ==> staged && Blocks(transcript)
      ensures !faulty && !staged ==> (outcome, toolSteps) == Course(turns, 0, offset, maximum)
      ensures outcome.LimitReached? ==>
        && outcome == LimitReached(maximum, toolSteps, outcome.attempted) && toolSteps + outcome.attempted > maximum
      ensures (outcome.LimitReached? || outcome == Final) && Blocks(old(transcript)) && distinct ==> Blocks(transcript)
    {
      ghost var began := Blocks(transcript);
      while true
        invariant Accounted(offset) && Going(offset) && (executed > 0 ==> toolSteps <= maximum) && requests <= executed
        invariant TailMatches(transcript, messages)
        invariant !faulty && !staged ==> Course(turns, requests, toolSteps, maximum) == Course(turns, 0, offset, maximum)
        invariant began && distinct ==> Blocks(transcript)
        decreases maximum - toolSteps
      {
        var ended := Round(offset);
        if ended.Some? { return ended.value; }
      }
    }

    /** run: from an offset into the tool budget to a final answer, a limit, a boundary or an error. */
    method Run(offset: int, promptIsLast: bool, candidate: Option<Budget>, stageBoundary: bool, turns: seq<Turn>) returns (outcome: Outcome)
      requires offset >= 0
      modifies this
      ensures maximum == Effective(candidate) && staged == stageBoundary
      ensures budgeted == candidate.Some? && (budgeted ==> budget == candidate.value.id && diagnostic.Some?)
      ensures Accounted(offset) && Reported(offset, outcome) && Answered(outcome) && (offset <= maximum ==> toolSteps <= maximum)
      ensures executed <= Max(0, maximum - offset) && requests <= Max(0, maximum - offset) + 1
      ensures outcome == Boundary ==> staged && Blocks(transcript)
      ensures !faulty && !staged ==> (outcome, toolSteps) == Course(turns, 0, offset, maximum)
      ensures outcome.LimitReached? ==>
        && outcome == LimitReached(maximum, toolSteps, outcome.attempted) && toolSteps + outcome.attempted > maximum
      ensures (outcome.LimitReached? || outcome == Final) && Blocks(old(transcript)) && distinct ==> Blocks(transcript)
    {
      this.turns := turns;
      budgeted, maximum, staged := candidate.Some?, Effective(candidate), stageBoundary;
      toolSteps, executed, requests, distinct := offset, 0, 0, true;
      diagnostic := None;
      if candidate.Some? {
        budget := candidate.value.id;
        diagnostic := Some(Unfinished(budget, maximum, offset));
      }
      Begin(promptIsLast);
      outcome := Rounds(offset);
    }
  }
}
