/** Where decisions and results come from, over every run of tool calls: a verdict decides its call,
    what a body returned is what the record stores, and every final result has one origin. */
module ToolOrigins {
  import opened Messages
  import opened ToolRecords
  import opened ToolRuns
  import opened ToolSafety
  import opened ToolTheorems

  lemma StepAt(states: seq<State>, steps: seq<Step>, retrySafe: set<string>, k: nat)
    requires Trace(states, steps, retrySafe) && k < |steps|
    ensures Safe(states[k], retrySafe) && WellFormed(states[k]) && Allowed(states[k], steps[k])
    ensures states[k + 1] == Next(states[k], steps[k], retrySafe)
  {
    EveryStateIsSafe(states, steps, retrySafe, k);
    SafeIsWellFormed(states[k], retrySafe);
    assert Follows(states[k], steps[k], states[k + 1], retrySafe);
  }

  // ---------- Which task a step moves ----------

  predicate Starts(step: Step) {
    step.Say? || step.StartAdmit? || step.StartExecute? || step.StartResolve? || step.StartGroup?
    || step.StartClosing? || step.CancelThread?
  }

  predicate By(step: Step, t: nat) {
    !Starts(step) && step.t == t
  }

  predicate OfAdmission(step: Step) {
    step.WriteAdmit? || step.FailAdmit? || step.ReturnAdmit?
  }

  /** How a task came to be what it is: the step, and what it was before that. */
  predicate From(s: State, step: Step, retrySafe: set<string>, t: nat, task: Task) {
    match task
    case Admitting(call) => step == StartAdmit(call) && t == |s.tasks|
    case Admitted(call, decision) =>
      && (step.WriteAdmit? || (step.FailAdmit? && decision.Deny?)) && step.t == t
      && t < |s.tasks| && IsAdmission(s.tasks[t]) && s.tasks[t].call == call
    case Executing(call, _) => step == StartExecute(call) && t == |s.tasks|
    case InBody(call) =>
      && step == ReadExecute(t, true) && t < |s.tasks| && s.tasks[t].Executing? && s.tasks[t].call == call
      && call in s.records && !Terminal(s.records[call])
      && (s.tasks[t].attempt <= 1 || call in retrySafe)
    case Writing(call, result) => FromAttempt(s, step, retrySafe, t, call, result)
    case Resolving(call) => step == StartResolve(call) && t == |s.tasks|
    case Resolved(call, result) =>
      && step == ReadResolve(t, result) && t < |s.tasks| && s.tasks[t] == Resolving(call)
      && call in s.records && s.records[call].status.Waiting?
    case _ =>
      || t == |s.tasks|
      || (By(step, t) && !step.WriteAdmit? && !step.FailAdmit? && (step.ReturnAdmit? || step.Lose? ==> task.Gone?))
  }

  /** A result about to be written by an attempt: its body's, or a failure that says why there is none. */
  predicate FromAttempt(s: State, step: Step, retrySafe: set<string>, t: nat, call: string, result: ToolResult) {
    && t < |s.tasks|
    && var task := s.tasks[t];
      match step
      case EndBody(u, r) => u == t && task == InBody(call) && result == r
      case ReadExecute(u, found) =>
        && u == t && task.Executing? && task.call == call && call in s.records && !Terminal(s.records[call])
        && (if !found then result == Fail("Tool not found")
            else task.attempt > 1 && call !in retrySafe && result == Fail(TOOL_INTERRUPTED))
      case FailExecute(u, reason) =>
        && u == t && result == Fail(reason)
        && (if task.Wrote? then task.outcome.call == call
            else (task.Executing? || task.InBody? || task.Writing?) && task.call == call)
      case ReadResolve(u, _) =>
        && u == t && task == Resolving(call) && result == Fail("Tool call is not waiting")
        && call in s.records && !Terminal(s.records[call]) && !s.records[call].status.Waiting?
      case _ => false
  }

  predicate KeptOrFrom(s: State, step: Step, retrySafe: set<string>, t: nat, task: Task) {
    if t < |s.tasks| && !By(step, t) then s.tasks[t] == task else From(s, step, retrySafe, t, task)
  }

  lemma StartsFrom(s: State, step: Step, retrySafe: set<string>, t: nat)
    requires WellFormed(s) && Allowed(s, step) && Starts(step)
    ensures |Next(s, step, retrySafe).tasks| >= |s.tasks|
    ensures var s' := Next(s, step, retrySafe);
      t < |s'.tasks| ==> KeptOrFrom(s, step, retrySafe, t, s'.tasks[t])
  {
    hide AllKnown, Lists, ListsUnanswered, ToolRuns.Settled, AnswerEach, CloseAll, NewRecords, Count, Fail;
  }

  lemma VerdictsFrom(s: State, step: Step, retrySafe: set<string>, t: nat)
    requires WellFormed(s) && Allowed(s, step) && step.WriteAdmit?
    ensures |Next(s, step, retrySafe).tasks| >= |s.tasks|
    ensures var s' := Next(s, step, retrySafe);
      t < |s'.tasks| ==> KeptOrFrom(s, step, retrySafe, t, s'.tasks[t])
  {
    hide ReadAttempt, ReadWaiting, WriteResult, WriteResolution, AppendResult, CloseOne, AllKnown, Updated, Terminal,
        Count, Dict, FinalStatus, OutcomeOf, OutcomeFromRecord, FinishedWaiting, CloseInRun, StoredResult, WithResult,
        ToolRuns.ToSet, Fail;
  }

  lemma AdmissionsFrom(s: State, step: Step, retrySafe: set<string>, t: nat)
    requires WellFormed(s) && Allowed(s, step) && (step.FailAdmit? || step.ReturnAdmit?)
    ensures |Next(s, step, retrySafe).tasks| >= |s.tasks|
    ensures var s' := Next(s, step, retrySafe);
      t < |s'.tasks| ==> KeptOrFrom(s, step, retrySafe, t, s'.tasks[t])
  {
    hide ReadAttempt, ReadWaiting, WriteResult, WriteResolution, WriteVerdict, AppendResult, CloseOne, AllKnown,
        Updated, Terminal, Count, Dict, FinalStatus, OutcomeOf, OutcomeFromRecord, FinishedWaiting, CloseInRun,
        StoredResult, WithResult, ToolRuns.ToSet, Fail;
  }

  lemma ExecutesFrom(s: State, step: Step, retrySafe: set<string>, t: nat)
    requires WellFormed(s) && Allowed(s, step) && step.ReadExecute?
    ensures |Next(s, step, retrySafe).tasks| >= |s.tasks|
    ensures var s' := Next(s, step, retrySafe);
      t < |s'.tasks| ==> KeptOrFrom(s, step, retrySafe, t, s'.tasks[t])
  {
    assert Known(s.records, s.tasks[step.t]);
    hide AllKnown, AppendResult, CloseOne, WriteVerdict, WriteResult, WriteResolution, Updated, Terminal, Count, Dict,
        FinalStatus, OutcomeOf, OutcomeFromRecord, FinishedWaiting, CloseInRun, StoredResult, WithResult,
        ToolRuns.ToSet, Fail;
  }

  lemma ResolvesFrom(s: State, step: Step, retrySafe: set<string>, t: nat)
    requires WellFormed(s) && Allowed(s, step) && step.ReadResolve?
    ensures |Next(s, step, retrySafe).tasks| >= |s.tasks|
    ensures var s' := Next(s, step, retrySafe);
      t < |s'.tasks| ==> KeptOrFrom(s, step, retrySafe, t, s'.tasks[t])
  {
    assert Known(s.records, s.tasks[step.t]);
    hide AllKnown, AppendResult, CloseOne, WriteVerdict, WriteResult, WriteResolution, Updated, Terminal, Count, Dict,
        FinalStatus, OutcomeOf, OutcomeFromRecord, FinishedWaiting, CloseInRun, StoredResult, WithResult,
        ToolRuns.ToSet, Fail;
  }

  lemma OthersFrom(s: State, step: Step, retrySafe: set<string>, t: nat)
    requires WellFormed(s) && Allowed(s, step)
    requires !Starts(step) && !OfAdmission(step) && !step.ReadExecute? && !step.ReadResolve?
    ensures |Next(s, step, retrySafe).tasks| >= |s.tasks|
    ensures var s' := Next(s, step, retrySafe);
      t < |s'.tasks| ==> KeptOrFrom(s, step, retrySafe, t, s'.tasks[t])
  {
    hide ReadAttempt, ReadWaiting, WriteVerdict, AllKnown, Updated, Terminal, Count, Dict, FinalStatus, OutcomeOf,
        OutcomeFromRecord, FinishedWaiting, CloseInRun, StoredResult, WithResult, ToolRuns.ToSet, Fail;
  }

  lemma ComesFrom(s: State, step: Step, retrySafe: set<string>, t: nat)
    requires WellFormed(s) && Allowed(s, step)
    ensures |Next(s, step, retrySafe).tasks| >= |s.tasks|
    ensures var s' := Next(s, step, retrySafe);
      t < |s'.tasks| ==> KeptOrFrom(s, step, retrySafe, t, s'.tasks[t])
  {
    hide WellFormed, Allowed, Next, KeptOrFrom;
    if Starts(step) {
      StartsFrom(s, step, retrySafe, t);
    } else if step.WriteAdmit? {
      VerdictsFrom(s, step, retrySafe, t);
    } else if OfAdmission(step) {
      AdmissionsFrom(s, step, retrySafe, t);
    } else if step.ReadExecute? {
      ExecutesFrom(s, step, retrySafe, t);
    } else if step.ReadResolve? {
      ResolvesFrom(s, step, retrySafe, t);
    } else {
      OthersFrom(s, step, retrySafe, t);
    }
  }

  lemma OthersKeepTask(s: State, step: Step, retrySafe: set<string>, t: nat)
    requires WellFormed(s) && Allowed(s, step) && t < |s.tasks| && !By(step, t)
    ensures var s' := Next(s, step, retrySafe);
      t < |s'.tasks| && s'.tasks[t] == s.tasks[t]
  {
    hide WellFormed, Allowed, Next;
    ComesFrom(s, step, retrySafe, t);
  }

  lemma {:induction false} TaskWaits(states: seq<State>, steps: seq<Step>, retrySafe: set<string>, t: nat, i: nat,
        j: nat)
    requires Trace(states, steps, retrySafe) && i <= j < |states| && t < |states[i].tasks|
    requires forall m :: i <= m < j ==> !By(steps[m], t)
    ensures t < |states[j].tasks| && states[j].tasks[t] == states[i].tasks[t]
    decreases j
  {
    if i < j {
      TaskWaits(states, steps, retrySafe, t, i, j - 1);
      StepAt(states, steps, retrySafe, j - 1);
      hide Trace, Safe, WellFormed, Allowed, Next;
      OthersKeepTask(states[j - 1], steps[j - 1], retrySafe, t);
    }
  }

  // ---------- A verdict decides its call ----------

  ghost predicate FieldsMove(s: State, step: Step, s': State) {
    && s'.admitting == s.admitting + (if step.StartAdmit? then {step.call} else {})
    && (if step.ReturnAdmit? then
          step.t < |s.tasks| && s.tasks[step.t].Admitted?
          && s'.admits == s.admits[s.tasks[step.t].call := s.tasks[step.t].decision]
        else s'.admits == s.admits)
    && (!step.ReadExecute? ==> s'.bodies == s.bodies)
  }

  lemma StartsMove(s: State, step: Step, retrySafe: set<string>)
    requires WellFormed(s) && Allowed(s, step) && Starts(step)
    ensures FieldsMove(s, step, Next(s, step, retrySafe))
  {
    hide AllKnown, Lists, ListsUnanswered, ToolRuns.Settled, AnswerEach, CloseAll, NewRecords, Count, Fail, Updated,
        Terminal, Dict, FinalStatus, OutcomeOf, OutcomeFromRecord, FinishedWaiting, CloseInRun, StoredResult,
        WithResult, ToolRuns.ToSet;
  }

  lemma AdmissionsMove(s: State, step: Step, retrySafe: set<string>)
    requires WellFormed(s) && Allowed(s, step) && OfAdmission(step)
    ensures FieldsMove(s, step, Next(s, step, retrySafe))
  {
    hide ReadAttempt, ReadWaiting, WriteResult, WriteResolution, AppendResult, CloseOne, AllKnown, Lists,
        ListsUnanswered, ToolRuns.Settled, AnswerEach, CloseAll, NewRecords, Count, Fail, Updated, Terminal, Dict,
        FinalStatus, OutcomeOf, OutcomeFromRecord, FinishedWaiting, CloseInRun, StoredResult, WithResult,
        ToolRuns.ToSet;
  }

  lemma ReadsMove(s: State, step: Step, retrySafe: set<string>)
    requires WellFormed(s) && Allowed(s, step) && (step.ReadExecute? || step.ReadResolve?)
    ensures FieldsMove(s, step, Next(s, step, retrySafe))
  {
    hide WriteVerdict, WriteResult, WriteResolution, AppendResult, CloseOne, AllKnown, Lists, ListsUnanswered,
        ToolRuns.Settled, AnswerEach, CloseAll, NewRecords, Count, Fail, Updated, Terminal, Dict, FinalStatus,
        OutcomeOf, OutcomeFromRecord, FinishedWaiting, CloseInRun, StoredResult, WithResult, ToolRuns.ToSet;
  }

  lemma OthersMove(s: State, step: Step, retrySafe: set<string>)
    requires WellFormed(s) && Allowed(s, step)
    requires !Starts(step) && !OfAdmission(step) && !step.ReadExecute? && !step.ReadResolve?
    ensures FieldsMove(s, step, Next(s, step, retrySafe))
  {
    hide AllKnown, Lists, ListsUnanswered, ToolRuns.Settled, AnswerEach, CloseAll, NewRecords, Count, Fail, Updated,
        Terminal, Dict, FinalStatus, OutcomeOf, OutcomeFromRecord, FinishedWaiting, CloseInRun, StoredResult,
        WithResult, ToolRuns.ToSet;
  }

  /** Only a start admits a call anew, only a return of an admission records its decision, and only
      an attempt's read starts a body. */
  lemma AdmissionFields(s: State, step: Step, retrySafe: set<string>)
    requires WellFormed(s) && Allowed(s, step)
    ensures FieldsMove(s, step, Next(s, step, retrySafe))
  {
    hide WellFormed, Allowed, Next, FieldsMove;
    if Starts(step) {
      StartsMove(s, step, retrySafe);
    } else if OfAdmission(step) {
      AdmissionsMove(s, step, retrySafe);
    } else if step.ReadExecute? || step.ReadResolve? {
      ReadsMove(s, step, retrySafe);
    } else {
      OthersMove(s, step, retrySafe);
    }
  }

  /** An admission's write leaves exactly what its verdict says, and decides Deny on a final record. */
  lemma VerdictIsWritten(states: seq<State>, steps: seq<Step>, retrySafe: set<string>, j: nat, t: nat,
        verdict: Verdict)
    requires Trace(states, steps, retrySafe) && j < |steps| && steps[j] == WriteAdmit(t, verdict)
    ensures t < |states[j].tasks| && states[j].tasks[t].Admitting? && t < |states[j + 1].tasks|
    ensures var call := states[j].tasks[t].call;
      && call in states[j].records
      && var record := states[j].records[call];
      var after := states[j + 1].tasks[t];
      && states[j + 1].records == states[j].records[call :=
           if FinalIn(states[j], call) then record
           else match verdict
                case Allowing => record.(status := Running)
                case Asking(prompt, waitRequest) =>
                  record.(status := Waiting, prompt := Some(prompt),
                          waitRequest := if waitRequest.Some? then waitRequest else record.waitRequest)
                case Refusing(reason) =>
                  var why := if reason == "" then "Tool call denied" else reason;
                  record.(status := Blocked, result := Some(Object(ToDict(Fail(why).(toolCallId := Some(call))))))]
      && after == Admitted(call, if FinalIn(states[j], call) || verdict.Refusing? then Deny
                                 else if verdict.Asking? then Await else Execute)
  {
    StepAt(states, steps, retrySafe, j);
    hide Trace, Safe;
    assert Known(states[j].records, states[j].tasks[t]);
  }

  /** Task `t` is the one admission of a call. */
  ghost predicate Admits(s: State, t: nat, call: string) {
    && t < |s.tasks| && call in s.admitting
    && forall u :: 0 <= u < |s.tasks| && u != t && IsAdmission(s.tasks[u]) ==> s.tasks[u].call != call
  }

  /** What the call's admission decides, or decided, is `decision`. */
  predicate Decides(s: State, t: nat, call: string, decision: Decision)
    requires t < |s.tasks|
  {
    if call in s.admits then s.tasks[t].Gone? && s.admits[call] == decision
    else s.tasks[t].Gone? || s.tasks[t] == Admitted(call, decision)
  }

  ghost predicate Decided(s: State, t: nat, call: string, decision: Decision) {
    Admits(s, t, call) && Decides(s, t, call, decision)
  }

  lemma AdmitsNext(s: State, step: Step, retrySafe: set<string>, t: nat, call: string)
    requires WellFormed(s) && Allowed(s, step) && Admits(s, t, call)
    ensures Admits(Next(s, step, retrySafe), t, call)
  {
    hide WellFormed, Next, FromAttempt;
    var s' := Next(s, step, retrySafe);
    AdmissionFields(s, step, retrySafe);
    ComesFrom(s, step, retrySafe, t);
    assert step.StartAdmit? ==> step.call !in s.admitting;
    hide Allowed;
    forall u | 0 <= u < |s'.tasks| && u != t && IsAdmission(s'.tasks[u]) ensures s'.tasks[u].call != call {
      ComesFrom(s, step, retrySafe, u);
    }
  }

  /** A decision stays, but for an admission that fails before it returns. */
  lemma DecidedNext(s: State, step: Step, retrySafe: set<string>, t: nat, call: string, decision: Decision)
    requires WellFormed(s) && Allowed(s, step) && Decided(s, t, call, decision)
    ensures var s' := Next(s, step, retrySafe);
      Decided(s', t, call, decision) || (step.FailAdmit? && step.t == t && Decided(s', t, call, Deny))
  {
    hide WellFormed, Next;
    AdmitsNext(s, step, retrySafe, t, call);
    AdmissionFields(s, step, retrySafe);
    ComesFrom(s, step, retrySafe, t);
  }

  /** What an admission on such a record decides. */
  function DecisionFor(verdict: Verdict, final: bool): Decision {
    if final || verdict.Refusing? then Deny else if verdict.Asking? then Await else Execute
  }

  predicate FailsBetween(steps: seq<Step>, j: nat, k: nat, t: nat) {
    exists m :: j < m < k && m < |steps| && steps[m].FailAdmit? && steps[m].t == t
  }

  lemma DecidedAfter(states: seq<State>, steps: seq<Step>, retrySafe: set<string>, j: nat, t: nat, verdict: Verdict)
    requires Trace(states, steps, retrySafe) && j < |steps| && steps[j] == WriteAdmit(t, verdict)
    ensures t < |states[j].tasks| && states[j].tasks[t].Admitting?
    ensures var call := states[j].tasks[t].call;
      Decided(states[j + 1], t, call, DecisionFor(verdict, FinalIn(states[j], call)))
  {
    StepAt(states, steps, retrySafe, j);
    VerdictIsWritten(states, steps, retrySafe, j, t, verdict);
    assert StageOk(states[j].tasks, t, states[j].admitting, states[j].admits);
    hide Trace, Safe, WellFormed, Next;
    AdmitsNext(states[j], steps[j], retrySafe, t, states[j].tasks[t].call);
    AdmissionFields(states[j], steps[j], retrySafe);
  }

  lemma {:induction false} DecidedSince(states: seq<State>, steps: seq<Step>, retrySafe: set<string>, j: nat, k: nat,
        t: nat, verdict: Verdict)
    requires Trace(states, steps, retrySafe) && j < k < |states| && steps[j] == WriteAdmit(t, verdict)
    ensures t < |states[j].tasks| && states[j].tasks[t].Admitting?
    ensures var call := states[j].tasks[t].call;
      || Decided(states[k], t, call, DecisionFor(verdict, FinalIn(states[j], call)))
      || (Decided(states[k], t, call, Deny) && FailsBetween(steps, j, k, t))
    decreases k
  {
    DecidedAfter(states, steps, retrySafe, j, t, verdict);
    if j + 1 < k {
      DecidedSince(states, steps, retrySafe, j, k - 1, t, verdict);
      StepAt(states, steps, retrySafe, k - 1);
      hide Trace, Safe, WellFormed, Allowed, Next, Decided;
      var call := states[j].tasks[t].call;
      var decision := DecisionFor(verdict, FinalIn(states[j], call));
      if Decided(states[k - 1], t, call, decision) {
        DecidedNext(states[k - 1], steps[k - 1], retrySafe, t, call, decision);
      } else {
        DecidedNext(states[k - 1], steps[k - 1], retrySafe, t, call, Deny);
      }
    }
  }

  /** A body has run, or an attempt is on its way to it. */
  ghost predicate Runs(s: State, call: string) {
    Count(s.bodies, call) > 0 || exists t :: 0 <= t < |s.tasks| && s.tasks[t].Executing? && s.tasks[t].call == call
  }

  predicate Executes(s: State, call: string) {
    call in s.admits && s.admits[call].Execute?
  }

  lemma BodiesCount(s: State, t: nat, found: bool, retrySafe: set<string>, call: string)
    requires WellFormed(s) && Allowed(s, ReadExecute(t, found))
    ensures Count(Next(s, ReadExecute(t, found), retrySafe).bodies, call) == Count(s.bodies, call)
        || call == s.tasks[t].call
  {
  }

  lemma RunsNext(s: State, step: Step, retrySafe: set<string>, call: string)
    requires Safe(s, retrySafe) && WellFormed(s) && Allowed(s, step)
    requires Runs(s, call) ==> Executes(s, call)
    ensures Runs(Next(s, step, retrySafe), call) ==> Executes(Next(s, step, retrySafe), call)
  {
    hide Next, WellFormed;
    var s' := Next(s, step, retrySafe);
    AdmissionFields(s, step, retrySafe);
    assert step.ReturnAdmit? ==> StageOk(s.tasks, step.t, s.admitting, s.admits);
    hide Safe;
    assert Executes(s, call) ==> Executes(s', call);
    if Runs(s', call) {
      if t :| 0 <= t < |s'.tasks| && s'.tasks[t].Executing? && s'.tasks[t].call == call {
        ComesFrom(s, step, retrySafe, t);
      } else if step.ReadExecute? {
        BodiesCount(s, step.t, step.found, retrySafe, call);
      }
    }
  }

  lemma {:induction false} RunsAreDecided(states: seq<State>, steps: seq<Step>, retrySafe: set<string>, k: nat,
        call: string)
    requires Trace(states, steps, retrySafe) && k < |states| && Runs(states[k], call)
    ensures Executes(states[k], call)
  {
    if k > 0 {
      StepAt(states, steps, retrySafe, k - 1);
      if Runs(states[k - 1], call) {
        RunsAreDecided(states, steps, retrySafe, k - 1, call);
      }
      RunsNext(states[k - 1], steps[k - 1], retrySafe, call);
    }
  }

  /** The verdict decides: a call is executed only if it was allowed, awaits a human only if its
      tool asked, and else is denied, as it is when its admission fails or its record was final. So a
      tool that asked or was refused never starts its body. */
  lemma VerdictDecides(states: seq<State>, steps: seq<Step>, retrySafe: set<string>, j: nat, k: nat, t: nat,
        verdict: Verdict)
    requires Trace(states, steps, retrySafe) && j < k < |states| && steps[j] == WriteAdmit(t, verdict)
    ensures t < |states[j].tasks| && states[j].tasks[t].Admitting?
    ensures var call := states[j].tasks[t].call;
      var open := !FinalIn(states[j], call);
      && (call in states[k].admits ==>
            match states[k].admits[call]
            case Execute => verdict.Allowing? && open
            case Await => verdict.Asking? && open
            case Deny => verdict.Refusing? || !open || FailsBetween(steps, j, k, t))
      && (!verdict.Allowing? || !open ==> Count(states[k].bodies, call) == 0)
  {
    DecidedSince(states, steps, retrySafe, j, k, t, verdict);
    var call := states[j].tasks[t].call;
    if Runs(states[k], call) {
      RunsAreDecided(states, steps, retrySafe, k, call);
    }
  }

  /** A call was allowed while its record was open. */
  ghost predicate AllowedBefore(states: seq<State>, steps: seq<Step>, k: nat, call: string) {
    exists j: nat, t: nat :: j < k && j < |steps| && j < |states| && steps[j] == WriteAdmit(t, Allowing)
                   && t < |states[j].tasks| && states[j].tasks[t] == Admitting(call) && !FinalIn(states[j], call)
  }

  ghost predicate Executable(s: State, call: string) {
    Executes(s, call) || Admitted(call, Execute) in s.tasks
  }

  lemma {:induction false} ExecutableWasAllowed(states: seq<State>, steps: seq<Step>, retrySafe: set<string>, k: nat,
        call: string)
    requires Trace(states, steps, retrySafe) && k < |states| && Executable(states[k], call)
    ensures AllowedBefore(states, steps, k, call)
  {
    if k > 0 {
      var s, step := states[k - 1], steps[k - 1];
      StepAt(states, steps, retrySafe, k - 1);
      AdmissionFields(s, step, retrySafe);
      if Executable(s, call) {
        ExecutableWasAllowed(states, steps, retrySafe, k - 1, call);
      } else {
        var t :| 0 <= t < |states[k].tasks| && states[k].tasks[t] == Admitted(call, Execute);
        ComesFrom(s, step, retrySafe, t);
        VerdictIsWritten(states, steps, retrySafe, k - 1, t, step.verdict);
      }
    }
  }

  /** No body runs, in any attempt, without a verdict that allowed its call. */
  lemma BodiesWereAllowed(states: seq<State>, steps: seq<Step>, retrySafe: set<string>, k: nat, call: string)
    requires Trace(states, steps, retrySafe) && k < |states| && Count(states[k].bodies, call) > 0
    ensures AllowedBefore(states, steps, k, call)
  {
    RunsAreDecided(states, steps, retrySafe, k, call);
    ExecutableWasAllowed(states, steps, retrySafe, k, call);
  }
}
