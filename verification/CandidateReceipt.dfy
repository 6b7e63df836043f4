/**
  The receipt of one candidate generation: the budget diagnostic of an agent loop on its way
  through the runtime adapter and the candidate generator to the observer.
*/
module CandidateReceipts {

  import opened AgentLoops

  /** An agent_candidate_generation event; the counts are None where the code writes null. */
  datatype Receipt = Receipt(budget: BudgetId, maximum: int, used: Option<int>, remaining: Option<int>, attempted: Option<int>,
                             completion: bool, reason: Reason, phase: Phase, cause: Option<Cause>)
  {
    predicate Counted() { used.Some? && remaining.Some? && attempted.Some? }

    predicate Blank() { used.None? && remaining.None? && attempted.None? }

    /** The counts add up to the limit that the receipt states. */
    predicate AddsUp() { Counted() && 0 <= used.value && 0 <= remaining.value && used.value + remaining.value == maximum }
  }

  // ------------------------------------------------------------ the adapter's part

  /** What the adapter lets through as a diagnostic of this budget. */
  function Filtered(d: Diagnostic, budget: Budget, completed: bool): Option<Diagnostic> {
    if !(1 <= d.maximum <= 200) || d.used < 0 || d.remaining < 0 || d.attempted < 0 || (d.cause.Some? && (d.completion || d.reason.Running?))
       || d.budget != budget.id || d.completion != completed || d.reason.Running? || (d.reason.Completed? != completed)
       || d.maximum > budget.steps || d.used + d.remaining != d.maximum
    then None else Some(d)
  }

  /** _invocation_candidate_diagnostic, for a runtime that emits no such event itself. */
  function Observed(now: Option<Diagnostic>, previous: Option<Diagnostic>, budget: Budget, completed: bool): Option<Diagnostic> {
    if now == previous || now.None? then None else Filtered(now.value, budget, completed)
  }

  /** A diagnostic as an event: its own limit replaces the request's, and only the exception itself gives a cause. */
  function Forwarded(d: Diagnostic, error: Error): Receipt {
    Receipt(d.budget, d.maximum, Some(d.used), Some(d.remaining), Some(d.attempted), d.completion, d.reason, d.phase, error.cause)
  }

  /** The receipt that knows nothing about the run but its exception. */
  function Fallback(budget: Budget, error: Error): Receipt {
    Receipt(budget.id, budget.steps, None, None, None, false, FailureReason(error), WholeRun, error.cause)
  }

  function FailureReceipt(budget: Budget, now: Option<Diagnostic>, previous: Option<Diagnostic>, error: Error): Receipt {
    var d := Observed(now, previous, budget, false);
    if d.Some? then Forwarded(d.value, error) else Fallback(budget, error)
  }

  /** Whatever it is given, the filter lets through exactly the finished diagnostics of this budget that add up. */
  lemma FilterMeans(d: Diagnostic, budget: Budget, completed: bool)
    ensures Filtered(d, budget, completed).Some? <==>
      && d.budget == budget.id && d.completion == completed && !d.reason.Running? && (d.reason.Completed? <==> completed)
      && 1 <= d.maximum <= budget.steps && 0 <= d.used <= d.maximum && d.remaining == d.maximum - d.used && 0 <= d.attempted
      && (completed ==> d.cause.None?)
    ensures Filtered(d, budget, completed).Some? ==> Filtered(d, budget, completed) == Some(d)
  {
  }

  // ------------------------------------------------------------ the generator's part

  /** _emit_generation_diagnostic for a returned result: the receipt states the original authority again. */
  function ResultReceipt(d: Diagnostic, budget: Budget, reason: Reason): Option<Receipt> {
    if !(1 <= d.maximum <= budget.steps) || d.used < 0 || d.remaining < 0 || d.attempted < 0 || d.used + d.remaining != d.maximum
    then None
    else Some(Receipt(budget.id, budget.steps, Some(d.used), Some(budget.steps - d.used), Some(d.attempted), reason.Completed?, reason, Response, None))
  }

  /** Whatever the metadata of a result say, its receipt adds up to the authority, or there is none. */
  lemma ResultMeans(d: Diagnostic, budget: Budget, reason: Reason)
    ensures ResultReceipt(d, budget, reason).Some? <==>
      1 <= d.maximum <= budget.steps && 0 <= d.used <= d.maximum && d.remaining == d.maximum - d.used && 0 <= d.attempted
    ensures ResultReceipt(d, budget, reason).Some? ==>
      var r := ResultReceipt(d, budget, reason).value;
      r.maximum == budget.steps && r.used == Some(d.used) && r.remaining == Some(budget.steps - d.used)
  {
  }

  // ------------------------------------------------------------ which receipts have counts, and over which limit

  /**
    The diagnostic of a run passes the filter of a call that completed, or of one that did not, exactly
    when the run said how it ended and ended that way.
  */
  lemma DiagnosticSurvives(budget: Budget, maximum: int, steps: int, outcome: Outcome, completed: bool)
    requires 1 <= maximum <= budget.steps && 0 <= steps <= maximum && Sensible(outcome)
    ensures var d := Report(budget.id, maximum, 0, steps, outcome);
            Filtered(d, budget, completed) == if Told(outcome) && outcome.Final? == completed then Some(d) else None
  {
  }

  /**
    A failed call's receipt has the counts of the run, over the limit that the run kept to, exactly when the
    run said how it failed and what it said differs from what the runtime said before; all other receipts of
    failed calls are blank and state the authority.
  */
  lemma FailureCounts(budget: Budget, maximum: int, steps: int, outcome: Outcome, previous: Option<Diagnostic>, error: Error)
    requires 1 <= maximum <= budget.steps && 0 <= steps <= maximum && Sensible(outcome)
    ensures var d := Report(budget.id, maximum, 0, steps, outcome);
            var r := FailureReceipt(budget, Some(d), previous, error);
            && r.budget == budget.id && !r.completion && r.cause == error.cause
            && (if Told(outcome) && !outcome.Final? && Some(d) != previous
                then r.AddsUp() && r.maximum == maximum && r.used == Some(steps) && r.reason == d.reason && r.attempted == Some(d.attempted)
                else r.Blank() && r.maximum == budget.steps && r.reason == FailureReason(error) && r.phase.WholeRun?)
  {
    DiagnosticSurvives(budget, maximum, steps, outcome, false);
  }

  /** A final answer's receipt has the counts over the authority, whether or not the draft parses. */
  lemma ResultCounts(budget: Budget, maximum: int, steps: int, reason: Reason)
    requires 1 <= maximum <= budget.steps && 0 <= steps <= maximum
    ensures var r := ResultReceipt(Report(budget.id, maximum, 0, steps, Final), budget, reason);
            && r.Some? && r.value.AddsUp() && r.value.maximum == budget.steps && r.value.used == Some(steps) && r.value.attempted == Some(0)
            && r.value.budget == budget.id && r.value.reason == reason && (r.value.completion <==> reason.Completed?)
  {
  }

  /** An authority of twelve under a profile of two: three calls in the first turn leave a receipt over two. */
  lemma NarrowedLimit(id: BudgetId, previous: Option<Diagnostic>)
    requires previous.None? || previous.value.budget != id
    ensures var d := Report(id, 2, 0, 0, LimitReached(2, 0, 3));
            && FailureReceipt(Budget(id, 12), Some(d), previous, PLAIN)
               == Receipt(id, 2, Some(0), Some(2), Some(3), false, StepLimit, ToolBatch, None)
            && FailureReceipt(Budget(id, 12), Some(d), Some(d), PLAIN)
               == Receipt(id, 12, None, None, None, false, WorkerFailed, WholeRun, None)
  {
    FailureCounts(Budget(id, 12), 2, 0, LimitReached(2, 0, 3), previous, PLAIN);
  }

  // ------------------------------------------------------------ one generation

  datatype Invoked = Returned(metadata: Diagnostic) | Raised(error: Error, told: bool)

  /** How a call of the generator ends. */
  datatype Ended =
    | Drafted                        // a parsed draft is returned
    | Malformed                      // the final answer is no draft
    | RunFailed(error: Error)        // the adapter's invocation of the runtime failed
    | Elsewhere                      // before the invocation, at reading its result, or at the generator's own deadline

  /** What an undisturbed generation makes of its run. */
  function EndOf(outcome: Outcome, parses: bool): Ended {
    if outcome.Final? then (if parses then Drafted else Malformed) else RunFailed(ErrorOf(outcome))
  }

  function ResultReason(ended: Ended): Reason { if ended.Drafted? then Completed else MalformedCandidate }

  predicate Upto(id: BudgetId, calls: nat) { id.Numbered? && id.call <= calls }

  /** The diagnostic and the receipts speak of these calls only, and the receipts of later and later ones. */
  ghost predicate InOrder(d: Option<Diagnostic>, receipts: seq<Receipt>, calls: nat) {
    && (d.Some? ==> Upto(d.value.budget, calls))
    && (forall i | 0 <= i < |receipts| :: Upto(receipts[i].budget, calls))
    && (forall i, j | 0 <= i < j < |receipts| :: receipts[i].budget.call < receipts[j].budget.call)
  }

  /** The next call keeps the order: its diagnostic is a new one, and its receipt comes last. */
  lemma NextInOrder(before: Option<Diagnostic>, receipts: seq<Receipt>, calls: nat, iteration: nat, after: Option<Diagnostic>, r: Option<Receipt>)
    requires InOrder(before, receipts, calls)
    requires after == before || (after.Some? && after.value.budget == Numbered(iteration, calls + 1))
    requires r.Some? ==> r.value.budget == Numbered(iteration, calls + 1)
    ensures InOrder(after, receipts + (if r.Some? then [r.value] else []), calls + 1)
    ensures after.Some? && after.value.budget == Numbered(iteration, calls + 1) ==> after != before
  {
    var all := receipts + (if r.Some? then [r.value] else []);
    forall i | 0 <= i < |all| ensures Upto(all[i].budget, calls + 1) {
      if i < |receipts| { assert Upto(receipts[i].budget, calls); }
    }
    forall i, j | 0 <= i < j < |all| ensures all[i].budget.call < all[j].budget.call {
      assert Upto(receipts[i].budget, calls);
    }
  }

  class CandidateGenerator {
    const runtime: AgentLoop         // inside its adapter
    const steps: Authority
    const given: Option<nat>         // a budget id other than "candidate-generation"
    var calls: nat
    var receipts: seq<Receipt>       // what the observer has seen

    constructor (runtime: AgentLoop, steps: Authority, given: Option<nat>)
      ensures this.runtime == runtime && this.steps == steps && this.given == given && receipts == []
      ensures runtime.diagnostic == None ==> Numbering()
    {
      this.runtime, this.steps, this.given := runtime, steps, given;
      calls, receipts := 0, [];
    }

    /** Under its own numbers: nothing speaks of a later call, and no call has two receipts. */
    ghost predicate Numbering()
      reads this, runtime
    {
      given.None? ==> InOrder(runtime.diagnostic, receipts, calls)
    }

    function Id(iteration: nat): BudgetId
      reads this
    {
      if given.Some? then Given(given.value) else Numbered(iteration, calls)
    }

    /** After a run, the runtime's diagnostic is the one that this run's end calls for, under the narrowed limit. */
    ghost predicate Ran(budget: Budget, ran: Option<Outcome>)
      reads runtime
    {
      ran.Some? ==>
        && runtime.maximum == runtime.Effective(Some(budget)) && 0 <= runtime.executed <= runtime.maximum && Sensible(ran.value)
        && runtime.diagnostic == Some(Report(budget.id, runtime.maximum, 0, runtime.executed, ran.value))
        && (ran.value.LimitReached? ==> runtime.executed + ran.value.attempted > runtime.maximum) && !ran.value.Boundary?
    }

    /** The invocation said how it failed, and not just what the runtime had said before. */
    predicate Telling(ran: Option<Outcome>, previous: Option<Diagnostic>)
      reads this, runtime
    {
      ran.Some? && Told(ran.value) && !ran.value.Final? && runtime.diagnostic != previous
    }

    /**
      What a receipt says. It has counts exactly after a final answer, or after a run that said how it failed and
      did not repeat the runtime's earlier diagnostic: after an answer they are over the authority, after a failure
      over the limit that the profile left. Every other receipt is blank and states the authority.
    */
    ghost predicate Ruled(id: BudgetId, ended: Ended, ran: Option<Outcome>, r: Receipt, previous: Option<Diagnostic>)
      reads this, runtime
    {
      && r.budget == id && (r.completion <==> ended.Drafted?)
      && (if ended.Drafted? || ended.Malformed? then
            && r.AddsUp() && r.maximum == steps && r.used == Some(runtime.executed)
            && r.reason == ResultReason(ended) && r.attempted == Some(0)
          else if ended.RunFailed? && Telling(ran, previous) then
            && r.AddsUp() && r.maximum == runtime.maximum && r.used == Some(runtime.executed)
            && (ran.value.Failure? ==> r.reason == ran.value.reason && r.attempted == Some(ran.value.attempted))
            && (ran.value.LimitReached? ==>
                  r.reason.StepLimit? && r.attempted == Some(ran.value.attempted) && r.attempted.value > r.remaining.value)
          else
            r.Blank() && r.maximum == steps && r.phase.WholeRun?)
      && (ended.RunFailed? ==>
            && r.cause == ended.error.cause
            && (ran.Some? && !ran.value.Final? ==> ended.error == ErrorOf(ran.value))
            && (!Telling(ran, previous) ==> r.reason == FailureReason(ended.error)))
    }

    lemma ReceiptRuled(budget: Budget, ended: Ended, ran: Option<Outcome>, r: Receipt, previous: Option<Diagnostic>)
      requires runtime.Valid() && budget.steps == steps && Ran(budget, ran) && (ran.None? ==> runtime.diagnostic == previous)
      requires ended.Drafted? || ended.Malformed? ==>
        ran == Some(Final) && Some(r) == ResultReceipt(runtime.diagnostic.value, budget, ResultReason(ended))
      requires ended.RunFailed? ==>
        && r == FailureReceipt(budget, runtime.diagnostic, previous, ended.error)
        && (ran.Some? && !ran.value.Final? ==> ended.error == ErrorOf(ran.value))
      requires ended.Elsewhere? ==> exists e :: r == Fallback(budget, e)
      ensures Ruled(budget.id, ended, ran, r, previous)
    {
      match ended
      case RunFailed(error) =>
        if ran.Some? { FailureCounts(budget, runtime.maximum, runtime.executed, ran.value, previous, error); }
      case Elsewhere =>
      case _ => ResultCounts(budget, runtime.maximum, runtime.executed, ResultReason(ended));
    }

    /** Something may go wrong here. */
    method Disturbed() returns (b: bool)
      ensures !runtime.faulty ==> !b
    {
      b := *;
      b := b && runtime.faulty;
    }

    method Emit(r: Receipt)
      modifies `receipts
      ensures receipts == old(receipts) + [r]
    {
      receipts := receipts + [r];
    }

    /** Undisturbed, the run takes its course. */
    ghost predicate RanCourse(ran: Option<Outcome>, turns: seq<Turn>)
      reads runtime
    {
      !runtime.faulty ==> ran.Some? && (ran.value, runtime.executed) == Course(turns, 0, 0, runtime.maximum)
    }

    /** The runtime under the adapter: the guard, the run, the guard again. */
    method Invoke(budget: Budget, promptIsLast: bool, turns: seq<Turn>) returns (ran: Option<Outcome>, error: Option<Error>)
      requires runtime.Valid() && budget.steps == steps
      modifies runtime
      ensures Ran(budget, ran) && (ran.None? ==> runtime.diagnostic == old(runtime.diagnostic) && error.Some?)
      ensures RanCourse(ran, turns) && (!runtime.faulty && ran.value.Final? ==> error.None?)
      ensures ran.Some? && !ran.value.Final? ==> error == Some(ErrorOf(ran.value))
    {
      var refusal: Error := *;
      var before := Disturbed();
      if before { return None, Some(refusal); }
      var outcome := runtime.Run(0, promptIsLast, Some(budget), false, turns);
      if !outcome.Final? { return Some(outcome), Some(ErrorOf(outcome)); }
      var after := Disturbed();
      return Some(outcome), if after then Some(refusal) else None;
    }

    /** RuntimeAgentAdapter.run: a failed invocation emits once, a successful one only returns metadata. */
    method RunAdapter(budget: Budget, promptIsLast: bool, turns: seq<Turn>) returns (ran: Option<Outcome>, result: Invoked)
      requires runtime.Valid() && budget.steps == steps
      modifies runtime, `receipts
      ensures Ran(budget, ran) && (ran.None? ==> runtime.diagnostic == old(runtime.diagnostic) && result.Raised?)
      ensures RanCourse(ran, turns) && (!runtime.faulty ==> if ran.value.Final? then result.Returned? else result == Raised(ErrorOf(ran.value), true))
      ensures ran.Some? && !ran.value.Final? ==> result == Raised(ErrorOf(ran.value), true)
      ensures result.Returned? ==> ran == Some(Final) && Some(result.metadata) == runtime.diagnostic
      ensures receipts == old(receipts) +
                          (if result.Raised? && result.told
                           then [FailureReceipt(budget, runtime.diagnostic, old(runtime.diagnostic), result.error)] else [])
    {
      var barred := Disturbed();                          // the guard, before anything is watched
      if barred {
        var refusal: Error := *;
        return None, Raised(refusal, false);
      }
      var previous := runtime.diagnostic;
      var error;
      ran, error := Invoke(budget, promptIsLast, turns);
      if error.Some? {
        Emit(FailureReceipt(budget, runtime.diagnostic, previous, error.value));
        return ran, Raised(error.value, true);
      }
      var unusable := Disturbed();                    // its session artifact and its text
      if unusable { return ran, Raised(PLAIN, false); }
      var metadata := runtime.diagnostic.value;       // the loop writes it into its own result
      var d := Observed(runtime.diagnostic, previous, budget, true);
      if d.Some? { metadata := d.value; }
      return ran, Returned(metadata);
    }

    /** An exception that carries no diagnostic gets a blank receipt, unless the whole solve is being stopped. */
    method NoteFailure(budget: Budget, error: Error)
      returns (receipt: Option<Receipt>)
      modifies `receipts
      ensures receipts == old(receipts) + (if receipt.Some? then [receipt.value] else [])
      ensures receipt.Some? ==> receipt.value == Fallback(budget, error)
    {
      var stopping: bool := *;
      if stopping { return None; }
      Emit(Fallback(budget, error));
      return Some(Fallback(budget, error));
    }

    /** The generator's part of one call, from the adapter's result to the receipt. */
    method Generate(budget: Budget, promptIsLast: bool, turns: seq<Turn>, parses: bool) returns (ended: Ended, ran: Option<Outcome>, receipt: Option<Receipt>)
      requires runtime.Valid() && budget.steps == steps
      modifies runtime, `receipts
      ensures receipts == old(receipts) + (if receipt.Some? then [receipt.value] else [])
      ensures Ran(budget, ran) && (ran.None? ==> runtime.diagnostic == old(runtime.diagnostic))
      ensures RanCourse(ran, turns) && (!runtime.faulty ==> ended == EndOf(ran.value, parses))
      ensures ended.Drafted? || ended.Malformed? ==>
        && ran == Some(Final) && receipt == ResultReceipt(runtime.diagnostic.value, budget, ResultReason(ended))
        && (ended.Drafted? <==> parses)
      ensures ended.RunFailed? ==>
        && receipt == Some(FailureReceipt(budget, runtime.diagnostic, old(runtime.diagnostic), ended.error))
        && (ran.Some? && !ran.value.Final? ==> ended.error == ErrorOf(ran.value))
      ensures ended.Elsewhere? ==>
        (ran.None? || ran.value.Final?) && (receipt.Some? ==> exists e :: receipt.value == Fallback(budget, e))
    {
      var result;
      ran, result := RunAdapter(budget, promptIsLast, turns);
      if result.Raised? {
        if result.told { return RunFailed(result.error), ran, Some(receipts[|receipts| - 1]); }
        receipt := NoteFailure(budget, result.error);
        return Elsewhere, ran, receipt;
      }
      var late := Disturbed();                            // its own deadline, checked as part of the invocation
      if late {
        var error: Error := *;
        receipt := NoteFailure(budget, error);
        return Elsewhere, ran, receipt;
      }
      var unseen := Disturbed();                          // its artifacts could not be reported
      if unseen { return Elsewhere, ran, None; }
      if parses {
        late := Disturbed();
        if late { return Elsewhere, ran, None; }
      }
      ended := if parses then Drafted else Malformed;
      receipt := ResultReceipt(result.metadata, budget, ResultReason(ended));
      ResultCounts(budget, runtime.maximum, runtime.executed, ResultReason(ended));
      Emit(receipt.value);
    }

    /** The same, by what the receipt says. */
    method Settle(budget: Budget, promptIsLast: bool, turns: seq<Turn>, parses: bool) returns (ended: Ended, ran: Option<Outcome>, receipt: Option<Receipt>)
      requires runtime.Valid() && budget.steps == steps
      modifies runtime, `receipts
      ensures receipts == old(receipts) + (if receipt.Some? then [receipt.value] else [])
      ensures Ran(budget, ran) && (ran.None? ==> runtime.diagnostic == old(runtime.diagnostic))
      ensures RanCourse(ran, turns) && (!runtime.faulty ==> ended == EndOf(ran.value, parses))
      ensures !ended.Elsewhere? ==> receipt.Some?
      ensures ended.Drafted? || ended.Malformed? ==> ran == Some(Final) && (ended.Drafted? <==> parses)
      ensures receipt.Some? ==> Ruled(budget.id, ended, ran, receipt.value, old(runtime.diagnostic))
    {
      ended, ran, receipt := Generate(budget, promptIsLast, turns, parses);
      if !ended.Elsewhere? && !ended.RunFailed? {
        ResultCounts(budget, runtime.maximum, runtime.executed, ResultReason(ended));
      }
      if receipt.Some? { ReceiptRuled(budget, ended, ran, receipt.value, old(runtime.diagnostic)); }
    }

    /**
      One generation: at most one receipt, and exactly one for a draft, for an answer that is no draft and for a
      failed invocation. Under the generator's own budget ids every run that says how it failed is counted.
    */
    method Call(iteration: nat, promptIsLast: bool, turns: seq<Turn>, parses: bool) returns (ended: Ended, ran: Option<Outcome>, receipt: Option<Receipt>)
      requires runtime.Valid()
      modifies runtime, this
      ensures calls == old(calls) + 1 && Ran(Budget(Id(iteration), steps), ran)
      ensures RanCourse(ran, turns) && (!runtime.faulty ==> ended == EndOf(ran.value, parses))
      ensures ended.Drafted? ==> parses
      ensures ended.Malformed? ==> !parses
      ensures receipt.Some? ==> receipt.value.budget == if given.Some? then Given(given.value) else Numbered(iteration, old(calls) + 1)
      ensures receipts == old(receipts) + (if receipt.Some? then [receipt.value] else [])
      ensures !ended.Elsewhere? ==> receipt.Some?
      ensures ended.Drafted? || ended.Malformed? ==> ran == Some(Final)
      ensures receipt.Some? ==> Ruled(Id(iteration), ended, ran, receipt.value, old(runtime.diagnostic))
      ensures old(Numbering()) ==> Numbering() && (given.None? && ran.Some? ==> runtime.diagnostic != old(runtime.diagnostic))
    {
      calls := calls + 1;
      var budget := Budget(Id(iteration), steps);
      ended, ran, receipt := Elsewhere, None, None;
      var early := Disturbed();                           // staging, the prompt, or its own deadline
      if !early { ended, ran, receipt := Settle(budget, promptIsLast, turns, parses); }
      if old(Numbering()) && given.None? {
        NextInOrder(old(runtime.diagnostic), old(receipts), old(calls), iteration, runtime.diagnostic, receipt);
      }
    }
  }
}
