/** What the records come to hold: results that bodies and humans gave, and failures that say why there
    is none. */
module ToolResults {
  import opened Messages
  import opened ToolRecords
  import opened ToolRuns
  import opened ToolSafety
  import opened ToolTheorems
  import opened ToolOrigins

  // ---------- What a step makes of a record ----------

  function VerdictOn(before: Record, call: string, verdict: Verdict): Record {
    match verdict
    case Allowing => before.(status := Running)
    case Asking(prompt, waitRequest) =>
      before.(status := Waiting, prompt := Some(prompt),
              waitRequest := if waitRequest.Some? then waitRequest else before.waitRequest)
    case Refusing(reason) =>
      before.(status := Blocked,
              result := Some(Dict(call, Fail(if reason == "" then "Tool call denied" else reason))))
  }

  function Ended(before: Record, call: string, result: ToolResult): Record {
    before.(status := if result.error.None? then Completed else Failed, result := Some(Dict(call, result)))
  }

  /** What closing a run or a thread leaves of an open record. */
  function ClosedAs(before: Record, cancelled: bool, reason: string): Record {
    if cancelled then
      before.(status := Completed, result := Some(
        Object(map["status" := Text("cancelled"), "reason" := Text("session_cancelled")])))
    else
      before.(status := Failed, result := Some(
        Object(map["error" := Text("run failed; tool outcome uncertain: " + reason)])))
  }

  /** A step's effect on one record: a final record stays, and others are written by the activities
      of their own call, by a run that closes, and by a cancel. */
  ghost predicate Effect(s: State, step: Step, call: string, before: Record, after: Record)
    requires WellFormed(s) && Allowed(s, step)
  {
    if Terminal(before) then after == before
    else
      match step
      case WriteAdmit(t, verdict) =>
        after == if s.tasks[t].call == call then VerdictOn(before, call, verdict) else before
      case FailAdmit(t, reason) =>
        after == if s.tasks[t].call == call
                 then before.(status := Blocked, result := Some(Dict(call, Fail(reason)))) else before
      case WriteExecute(t) =>
        after == if s.tasks[t].call == call then Ended(before, call, s.tasks[t].result) else before
      case WriteResolve(t) =>
        after == if s.tasks[t].call == call && before.status.Waiting? then Ended(before, call, s.tasks[t].result)
                 else before
      case UpdateInClosing(t) =>
        var task := s.tasks[t];
        after == before
        || (task.order[task.next] == call && after == ClosedAs(before, task.cancelled, task.reason))
      case CancelThread(_) => after == ClosedAs(before, true, "")
      case _ => after == before
  }

  lemma VerdictEffect(s: State, step: Step, retrySafe: set<string>, call: string)
    requires WellFormed(s) && Allowed(s, step) && call in s.records
    requires step.WriteAdmit?
    ensures var s' := Next(s, step, retrySafe);
      call in s'.records && Effect(s, step, call, s.records[call], s'.records[call])
  {
    hide AllKnown, Lists, ListsUnanswered, ToolRuns.Settled, AnswerEach, CloseAll, NewRecords, Count, Fail, Dict,
        OutcomeOf, OutcomeFromRecord, CloseInRun, StoredResult, WithResult, ToolRuns.ToSet, ReadAttempt, ReadWaiting,
        AppendResult, CloseOne, WriteResult, WriteResolution;
  }

  lemma AdmissionEffect(s: State, step: Step, retrySafe: set<string>, call: string)
    requires WellFormed(s) && Allowed(s, step) && call in s.records
    requires (step.FailAdmit? || step.ReturnAdmit?)
    ensures var s' := Next(s, step, retrySafe);
      call in s'.records && Effect(s, step, call, s.records[call], s'.records[call])
  {
    hide AllKnown, Lists, ListsUnanswered, ToolRuns.Settled, AnswerEach, CloseAll, NewRecords, Count, Fail, Dict,
        OutcomeOf, OutcomeFromRecord, CloseInRun, StoredResult, WithResult, ToolRuns.ToSet, ReadAttempt, ReadWaiting,
        AppendResult, CloseOne, WriteVerdict, WriteResult, WriteResolution;
  }

  lemma OutcomeEffect(s: State, step: Step, retrySafe: set<string>, call: string)
    requires WellFormed(s) && Allowed(s, step) && call in s.records
    requires step.WriteExecute? || step.WriteResolve?
    ensures var s' := Next(s, step, retrySafe);
      call in s'.records && Effect(s, step, call, s.records[call], s'.records[call])
  {
    hide AllKnown, Lists, ListsUnanswered, ToolRuns.Settled, AnswerEach, CloseAll, NewRecords, Count, Fail, Dict,
        OutcomeOf, OutcomeFromRecord, CloseInRun, StoredResult, WithResult, ToolRuns.ToSet, ReadAttempt, ReadWaiting,
        AppendResult, CloseOne, WriteVerdict;
  }

  lemma OtherEffect(s: State, step: Step, retrySafe: set<string>, call: string)
    requires WellFormed(s) && Allowed(s, step) && call in s.records
    requires !(OfAdmission(step) || step.WriteExecute? || step.WriteResolve?)
    ensures var s' := Next(s, step, retrySafe);
      call in s'.records && Effect(s, step, call, s.records[call], s'.records[call])
  {
    hide AllKnown, Lists, ListsUnanswered, ToolRuns.Settled, AnswerEach, Count, Fail, Dict, OutcomeOf,
        OutcomeFromRecord, StoredResult, WithResult, ToolRuns.ToSet, ReadAttempt, ReadWaiting, AppendResult,
        WriteVerdict, WriteResult, WriteResolution;
  }

  lemma EffectOf(s: State, step: Step, retrySafe: set<string>, call: string)
    requires WellFormed(s) && Allowed(s, step) && call in s.records
    ensures var s' := Next(s, step, retrySafe);
      call in s'.records && Effect(s, step, call, s.records[call], s'.records[call])
  {
    hide WellFormed, Allowed, Next, Effect;
    if step.WriteAdmit? {
      VerdictEffect(s, step, retrySafe, call);
    } else if OfAdmission(step) {
      AdmissionEffect(s, step, retrySafe, call);
    } else if step.WriteExecute? || step.WriteResolve? {
      OutcomeEffect(s, step, retrySafe, call);
    } else {
      OtherEffect(s, step, retrySafe, call);
    }
  }

  // ---------- A body's result ----------

  /** What a body returned is stored as it is and reported, unless the record was final by then. */
  lemma BodyResultIsStored(states: seq<State>, steps: seq<Step>, retrySafe: set<string>, i: nat, j: nat, t: nat,
        result: ToolResult)
    requires Trace(states, steps, retrySafe) && i < j < |steps|
    requires steps[i] == EndBody(t, result) && steps[j] == WriteExecute(t)
    requires forall m :: i < m < j ==> !By(steps[m], t)
    ensures t < |states[i].tasks| && states[i].tasks[t].InBody? && t < |states[j + 1].tasks|
    ensures var call := states[i].tasks[t].call;
      && call in states[j].records && call in states[j + 1].records
      && var before := states[j].records[call];
      if FinalIn(states[j], call)
      then states[j + 1].records[call] == before && states[j + 1].tasks[t] == Rereading(call)
      else
        && states[j + 1].records[call] ==
           before.(status := if result.error.None? then Completed else Failed,
                   result := Some(Object(ToDict(result.(toolCallId := Some(call))))))
        && states[j + 1].tasks[t] ==
           Wrote(Outcome(call, result.error.None?, Truthy(Field(result.metadata, "terminal"))))
  {
    StepAt(states, steps, retrySafe, i);
    assert states[i + 1].tasks[t] == Writing(states[i].tasks[t].call, result);
    TaskWaits(states, steps, retrySafe, t, i + 1, j);
    StepAt(states, steps, retrySafe, j);
    hide Trace, Safe;
    assert Known(states[j].records, states[j].tasks[t]);
  }

  /** What a human's answer resolved to is stored and reported while the record waits; and it does,
      unless it is final. */
  lemma ResolutionIsStored(states: seq<State>, steps: seq<Step>, retrySafe: set<string>, i: nat, j: nat, t: nat,
        result: ToolResult)
    requires Trace(states, steps, retrySafe) && i < j < |steps|
    requires steps[i] == ReadResolve(t, result) && steps[j] == WriteResolve(t)
    requires forall m :: i < m < j ==> !By(steps[m], t)
    ensures t < |states[i].tasks| && states[i].tasks[t].Resolving? && t < |states[j + 1].tasks|
    ensures var call := states[i].tasks[t].call;
      && call in states[j].records && call in states[j + 1].records
      && var before := states[j].records[call];
      if FinalIn(states[j], call)
      then states[j + 1].records[call] == before && states[j + 1].tasks[t] == Rereading(call)
      else
        && before.status.Waiting?
        && states[j + 1].records[call] ==
           before.(status := if result.error.None? then Completed else Failed,
                   result := Some(Object(ToDict(result.(toolCallId := Some(call))))))
        && states[j + 1].tasks[t] ==
           Wrote(Outcome(call, result.error.None?, Truthy(Field(result.metadata, "terminal"))))
  {
    StepAt(states, steps, retrySafe, i);
    StepAt(states, steps, retrySafe, i + 1);
    TaskWaits(states, steps, retrySafe, t, i + 1, j);
    StepAt(states, steps, retrySafe, j);
    hide Trace;
    var s := states[j];
    assert TaskOk(s.records, s.transcript, s.tasks[t]);
    hide Safe;
    assert Known(s.records, s.tasks[t]);
  }

  /** What an attempt wrote or read is what it returns. */
  lemma ReportIsReturned(states: seq<State>, steps: seq<Step>, retrySafe: set<string>, j: nat, k: nat, t: nat,
        outcome: Outcome)
    requires Trace(states, steps, retrySafe) && j <= k < |steps| && steps[k] == Return(t)
    requires t < |states[j].tasks| && states[j].tasks[t] == Wrote(outcome)
    requires forall m :: j <= m < k ==> !By(steps[m], t)
    ensures outcome in states[k + 1].returned && states[k].returned <= states[k + 1].returned
  {
    TaskWaits(states, steps, retrySafe, t, j, k);
    StepAt(states, steps, retrySafe, k);
  }

  // ---------- Where a final result comes from ----------

  /** Task `t` carries this result from step `i` up to step `j`. */
  ghost predicate Carries(states: seq<State>, steps: seq<Step>, retrySafe: set<string>, i: nat, j: nat, t: nat,
        call: string, result: ToolResult) {
    && i < j <= |steps| && i < |states| && FromAttempt(states[i], steps[i], retrySafe, t, call, result)
    && !steps[i].ReadResolve?
    && forall m :: i < m < j ==> !By(steps[m], t)
  }

  lemma {:induction false} WritingComesFrom(states: seq<State>, steps: seq<Step>, retrySafe: set<string>, j: nat,
        t: nat, call: string, result: ToolResult) returns (i: nat)
    requires Trace(states, steps, retrySafe) && j < |states|
    requires t < |states[j].tasks| && states[j].tasks[t] == Writing(call, result)
    ensures Carries(states, steps, retrySafe, i, j, t, call, result)
  {
    var s, step := states[j - 1], steps[j - 1];
    StepAt(states, steps, retrySafe, j - 1);
    ComesFrom(s, step, retrySafe, t);
    if t < |s.tasks| && !By(step, t) {
      i := WritingComesFrom(states, steps, retrySafe, j - 1, t, call, result);
    } else {
      assert TaskOk(s.records, s.transcript, s.tasks[t]);
      i := j - 1;
    }
  }

  /** Task `t` read this answer for a waiting call at step `i`. */
  ghost predicate Answers(states: seq<State>, steps: seq<Step>, i: nat, j: nat, t: nat, call: string,
        result: ToolResult) {
    && i < j <= |steps| && i < |states| && steps[i] == ReadResolve(t, result)
    && call in states[i].records && states[i].records[call].status.Waiting?
    && forall m :: i < m < j ==> !By(steps[m], t)
  }

  lemma {:induction false} ResolvedComesFrom(states: seq<State>, steps: seq<Step>, retrySafe: set<string>, j: nat,
        t: nat, call: string, result: ToolResult) returns (i: nat)
    requires Trace(states, steps, retrySafe) && j < |states|
    requires t < |states[j].tasks| && states[j].tasks[t] == Resolved(call, result)
    ensures Answers(states, steps, i, j, t, call, result)
  {
    var s, step := states[j - 1], steps[j - 1];
    StepAt(states, steps, retrySafe, j - 1);
    hide Safe;
    ComesFrom(s, step, retrySafe, t);
    if t < |s.tasks| && !By(step, t) {
      i := ResolvedComesFrom(states, steps, retrySafe, j - 1, t, call, result);
    } else {
      i := j - 1;
    }
  }

  /** Step `j` made the record final, with this status and result. */
  ghost predicate EndedBy(states: seq<State>, steps: seq<Step>, retrySafe: set<string>, j: nat, call: string,
        status: Status, result: Json)
    requires j < |steps| && j < |states|
  {
    match steps[j]
    case WriteAdmit(t, verdict) =>
      && t < |states[j].tasks| && states[j].tasks[t] == Admitting(call) && verdict.Refusing? && status.Blocked?
      && var why := if verdict.reason == "" then "Tool call denied" else verdict.reason;
        result == Object(ToDict(Fail(why).(toolCallId := Some(call))))
    case FailAdmit(t, reason) =>
      && t < |states[j].tasks| && IsAdmission(states[j].tasks[t]) && states[j].tasks[t].call == call
      && status.Blocked? && result == Object(ToDict(Fail(reason).(toolCallId := Some(call))))
    case WriteExecute(t) =>
      exists i: nat, r: ToolResult :: Carries(states, steps, retrySafe, i, j, t, call, r)
        && status == (if r.error.None? then Completed else Failed)
        && result == Object(ToDict(r.(toolCallId := Some(call))))
    case WriteResolve(t) =>
      exists i: nat, r: ToolResult :: Answers(states, steps, i, j, t, call, r)
        && status == (if r.error.None? then Completed else Failed)
        && result == Object(ToDict(r.(toolCallId := Some(call))))
    case UpdateInClosing(t) =>
      && t < |states[j].tasks| && states[j].tasks[t].Closing?
      && states[j].tasks[t].next < |states[j].tasks[t].order|
      && states[j].tasks[t].order[states[j].tasks[t].next] == call
      && (if states[j].tasks[t].cancelled
          then status.Completed? && result == CANCELLED_RESULT
          else status.Failed? && result == Object(map["error" := Text(
            "run failed; tool outcome uncertain: " + states[j].tasks[t].reason)]))
    case CancelThread(_) => status.Completed? && result == CANCELLED_RESULT
    case _ => false
  }

  lemma EndedByStep(states: seq<State>, steps: seq<Step>, retrySafe: set<string>, j: nat, call: string)
    requires Trace(states, steps, retrySafe) && j < |steps|
    requires call in states[j].records && !FinalIn(states[j], call) && FinalIn(states[j + 1], call)
    ensures states[j + 1].records[call].result.Some?
    ensures var after := states[j + 1].records[call];
      EndedBy(states, steps, retrySafe, j, call, after.status, after.result.value)
  {
    StepAt(states, steps, retrySafe, j);
    var s, step := states[j], steps[j];
    EffectOf(s, step, retrySafe, call);
    hide Next, Safe, WellFormed, ToDict;
    match step
    case WriteExecute(t) =>
      var i := WritingComesFrom(states, steps, retrySafe, j, t, call, s.tasks[t].result);
    case WriteResolve(t) =>
      var i := ResolvedComesFrom(states, steps, retrySafe, j, t, call, s.tasks[t].result);
    case _ =>
  }

  /** Every final record was made final by one step, and holds what that step gave it ever since: what a
      body returned, an answer read for a waiting call, the reason of a refusal or a failure, or that its
      run was closed. */
  lemma {:induction false} FinalResultHasOrigin(states: seq<State>, steps: seq<Step>, retrySafe: set<string>, k: nat,
        call: string) returns (j: nat)
    requires Trace(states, steps, retrySafe) && k < |states| && FinalIn(states[k], call)
    ensures j < k && j < |steps| && !FinalIn(states[j], call) && FinalIn(states[j + 1], call)
    ensures states[k].records[call] == states[j + 1].records[call] && states[k].records[call].result.Some?
    ensures var record := states[k].records[call];
      EndedBy(states, steps, retrySafe, j, call, record.status, record.result.value)
  {
    if FinalIn(states[k - 1], call) {
      j := FinalResultHasOrigin(states, steps, retrySafe, k - 1, call);
      FinalForever(states, steps, retrySafe, call, k - 1, k);
    } else {
      j := k - 1;
      NewIsOpen(states, steps, retrySafe, j, call);
      EndedByStep(states, steps, retrySafe, j, call);
    }
  }

  /** A record is open when it is first stored. */
  lemma NewIsOpen(states: seq<State>, steps: seq<Step>, retrySafe: set<string>, j: nat, call: string)
    requires Trace(states, steps, retrySafe) && j < |steps| && FinalIn(states[j + 1], call)
    ensures call in states[j].records
  {
    StepAt(states, steps, retrySafe, j);
    if steps[j].Say? {
    } else {
      KeysStay(states[j], steps[j], retrySafe);
    }
  }

  lemma CallKeysStay(s: State, step: Step, retrySafe: set<string>)
    requires WellFormed(s) && Allowed(s, step)
    requires OfAdmission(step) || step.WriteExecute? || step.WriteResolve?
    ensures Next(s, step, retrySafe).records.Keys == s.records.Keys
  {
    hide Lists, ListsUnanswered, ToolRuns.Settled, AnswerEach, Count, Fail, Dict, OutcomeOf, OutcomeFromRecord,
        StoredResult, WithResult, ToolRuns.ToSet, ReadAttempt, ReadWaiting, AppendResult, Updated, FinishedWaiting,
        CloseOne, CloseAll, Terminal;
  }

  lemma OtherKeysStay(s: State, step: Step, retrySafe: set<string>)
    requires WellFormed(s) && Allowed(s, step) && !step.Say?
    requires !(OfAdmission(step) || step.WriteExecute? || step.WriteResolve?)
    ensures Next(s, step, retrySafe).records.Keys == s.records.Keys
  {
    hide Lists, ListsUnanswered, ToolRuns.Settled, AnswerEach, Count, Fail, Dict, OutcomeOf, OutcomeFromRecord,
        StoredResult, WithResult, ToolRuns.ToSet, ReadAttempt, ReadWaiting, AppendResult, CloseInRun, WriteVerdict,
        WriteResult, WriteResolution, Close;
  }

  lemma KeysStay(s: State, step: Step, retrySafe: set<string>)
    requires WellFormed(s) && Allowed(s, step) && !step.Say?
    ensures Next(s, step, retrySafe).records.Keys == s.records.Keys
  {
    hide WellFormed, Allowed, Next;
    if OfAdmission(step) || step.WriteExecute? || step.WriteResolve? {
      CallKeysStay(s, step, retrySafe);
    } else {
      OtherKeysStay(s, step, retrySafe);
    }
  }

  // ---------- What a verdict finds ----------

  ghost predicate Unadmitted(s: State, call: string) {
    call in s.records && (call in s.admitting ==> Admitting(call) in s.tasks)
  }

  /** A record that a step neither admits nor ends stays what it was. */
  lemma StaysNew(s: State, step: Step, retrySafe: set<string>, call: string)
    requires Safe(s, retrySafe) && WellFormed(s) && Allowed(s, step) && call in s.records
    requires Unadmitted(Next(s, step, retrySafe), call)
    ensures Unadmitted(s, call)
    ensures var after := Next(s, step, retrySafe);
      FinalIn(after, call) || after.records[call] == s.records[call]
  {
    hide Next, WellFormed;
    AdmissionFields(s, step, retrySafe);
    EffectOf(s, step, retrySafe, call);
    var after := Next(s, step, retrySafe);
    if call in after.admitting {
      var t :| 0 <= t < |after.tasks| && after.tasks[t] == Admitting(call);
      ComesFrom(s, step, retrySafe, t);
      if step.WriteAdmit? {
        assert StageOk(s.tasks, step.t, s.admitting, s.admits);
      }
    } else if step.WriteAdmit? {
      assert StageOk(s.tasks, step.t, s.admitting, s.admits);
    }
  }

  lemma {:induction false} UnadmittedIsNew(states: seq<State>, steps: seq<Step>, retrySafe: set<string>, k: nat,
        call: string)
    requires Trace(states, steps, retrySafe) && k < |states| && Unadmitted(states[k], call)
    ensures var record := states[k].records[call];
      FinalIn(states[k], call) || record == Record(record.groupId, record.runId, Requested, None, None, None)
  {
    if k > 0 {
      StepAt(states, steps, retrySafe, k - 1);
      if call in states[k - 1].records {
        StaysNew(states[k - 1], steps[k - 1], retrySafe, call);
        UnadmittedIsNew(states, steps, retrySafe, k - 1, call);
        if FinalIn(states[k - 1], call) {
          FinalForever(states, steps, retrySafe, call, k - 1, k);
        }
      } else if !steps[k - 1].Say? {
        KeysStay(states[k - 1], steps[k - 1], retrySafe);
      }
    }
  }

  /** Unless the record was final, a verdict leaves it running, waiting with this prompt and request, or
      blocked for this reason, and nothing else in it. */
  lemma VerdictIsRecorded(states: seq<State>, steps: seq<Step>, retrySafe: set<string>, j: nat, t: nat,
        verdict: Verdict)
    requires Trace(states, steps, retrySafe) && j < |steps| && steps[j] == WriteAdmit(t, verdict)
    ensures t < |states[j].tasks| && states[j].tasks[t].Admitting?
    ensures var call := states[j].tasks[t].call;
      && call in states[j].records && call in states[j + 1].records
      && var before := states[j].records[call];
      states[j + 1].records[call] ==
      if FinalIn(states[j], call) then before
      else match verdict
           case Allowing => Record(before.groupId, before.runId, Running, None, None, None)
           case Asking(prompt, waitRequest) =>
             Record(before.groupId, before.runId, Waiting, None, Some(prompt), waitRequest)
           case Refusing(reason) =>
             var why := if reason == "" then "Tool call denied" else reason;
             Record(before.groupId, before.runId, Blocked,
                    Some(Object(ToDict(Fail(why).(toolCallId := Some(call))))), None, None)
  {
    VerdictIsWritten(states, steps, retrySafe, j, t, verdict);
    var call := states[j].tasks[t].call;
    assert Admitting(call) in states[j].tasks;
    UnadmittedIsNew(states, steps, retrySafe, j, call);
  }
}
