/** The guarantees a reader relies on, over every run of tool calls. */
module ToolTheorems {
  import opened Messages
  import opened ToolRecords
  import opened ToolRuns
  import opened ToolSafety

  /** `states` is what `steps` lead through. */
  ghost predicate Trace(states: seq<State>, steps: seq<Step>, retrySafe: set<string>) {
    && |states| == |steps| + 1
    && states[0] == Init
    && forall k :: 0 <= k < |steps| ==> Follows(states[k], steps[k], states[k + 1], retrySafe)
  }

  ghost predicate Follows(s: State, step: Step, s': State, retrySafe: set<string>) {
    && Allowed(s, step)
    && (WellFormed(s) ==> s' == Next(s, step, retrySafe))
  }

  lemma {:induction false} EveryStateIsSafe(states: seq<State>, steps: seq<Step>, retrySafe: set<string>, k: nat)
    requires Trace(states, steps, retrySafe) && k < |states|
    ensures Safe(states[k], retrySafe)
  {
    if k > 0 {
      EveryStateIsSafe(states, steps, retrySafe, k - 1);
      assert Follows(states[k - 1], steps[k - 1], states[k], retrySafe);
      SafeIsWellFormed(states[k - 1], retrySafe);
      SafeNext(states[k - 1], steps[k - 1], retrySafe);
    }
  }

  // ---------- One final status ----------

  ghost predicate FinalIn(s: State, call: string) {
    call in s.records && Terminal(s.records[call])
  }

  predicate WritesRecords(step: Step) {
    step.Say? || step.WriteAdmit? || step.FailAdmit? || step.WriteExecute? || step.WriteResolve?
    || step.UpdateInClosing? || step.CancelThread?
  }

  lemma OthersKeepRecords(s: State, step: Step, retrySafe: set<string>)
    requires WellFormed(s) && Allowed(s, step) && !WritesRecords(step)
    ensures Next(s, step, retrySafe).records == s.records
  {
    hide AllKnown, Lists, Settled, ReadAttempt, ReadWaiting, AppendResult;
  }

  lemma WritersKeepFinal(s: State, step: Step, retrySafe: set<string>, call: string)
    requires WellFormed(s) && Allowed(s, step) && WritesRecords(step) && FinalIn(s, call)
    ensures var s' := Next(s, step, retrySafe);
      FinalIn(s', call) && s'.records[call] == s.records[call]
  {
    hide AllKnown, ListsUnanswered, AnswerEach;
  }

  lemma FinalStays(s: State, step: Step, retrySafe: set<string>, call: string)
    requires WellFormed(s) && Allowed(s, step) && FinalIn(s, call)
    ensures var s' := Next(s, step, retrySafe);
      FinalIn(s', call) && s'.records[call] == s.records[call]
  {
    hide WellFormed, Allowed, Next;
    if WritesRecords(step) {
      WritersKeepFinal(s, step, retrySafe, call);
    } else {
      OthersKeepRecords(s, step, retrySafe);
    }
  }

  /** A record that has become final is never written again, by any activity. */
  lemma {:induction false} FinalForever(states: seq<State>, steps: seq<Step>, retrySafe: set<string>, call: string,
        j: nat, k: nat)
    requires Trace(states, steps, retrySafe) && j <= k < |states| && FinalIn(states[j], call)
    ensures FinalIn(states[k], call) && states[k].records[call] == states[j].records[call]
    decreases k
  {
    if j < k {
      FinalForever(states, steps, retrySafe, call, j, k - 1);
      EveryStateIsSafe(states, steps, retrySafe, k - 1);
      assert Follows(states[k - 1], steps[k - 1], states[k], retrySafe);
      SafeIsWellFormed(states[k - 1], retrySafe);
      FinalStays(states[k - 1], steps[k - 1], retrySafe, call);
    }
  }

  /** How often a call's record went from open to final. */
  function FinalTransitions(states: seq<State>, call: string): nat {
    if |states| < 2 then 0
    else
      var before, after := states[|states| - 2], states[|states| - 1];
      FinalTransitions(states[..|states| - 1], call)
      + if !(call in before.records && Terminal(before.records[call])) && call in after.records
          && Terminal(after.records[call]) then 1 else 0
  }

  lemma {:induction false} AtMostOneFinalTransition(states: seq<State>, steps: seq<Step>, retrySafe: set<string>,
        call: string)
    requires Trace(states, steps, retrySafe)
    ensures FinalTransitions(states, call) == if FinalIn(states[|states| - 1], call) then 1 else 0
  {
    if |states| >= 2 {
      var n := |steps| - 1;
      assert Trace(states[..n + 1], steps[..n], retrySafe);
      AtMostOneFinalTransition(states[..n + 1], steps[..n], retrySafe, call);
      if FinalIn(states[n], call) {
        FinalForever(states, steps, retrySafe, call, n, n + 1);
      }
    } else {
      assert states[0] == Init;
    }
  }

  // ---------- One message, the record's result ----------

  function ResultCount(transcript: seq<Entry>, call: string): nat {
    if transcript == [] then 0
    else
      var last := transcript[|transcript| - 1];
      ResultCount(transcript[..|transcript| - 1], call) + if last.Answered? && last.call == call then 1 else 0
  }

  lemma {:induction false} AnsweredOnceCounts(transcript: seq<Entry>, call: string)
    requires AnsweredOnce(transcript)
    ensures ResultCount(transcript, call) == if HasResult(transcript, call) then 1 else 0
  {
    if transcript != [] {
      var n := |transcript| - 1;
      AnsweredOnceCounts(transcript[..n], call);
      if HasResult(transcript[..n], call) {
        var k :| 0 <= k < n && transcript[..n][k].Answered? && transcript[..n][k].call == call;
        assert transcript[k] == transcript[..n][k];
      }
      if HasResult(transcript, call) && !(transcript[n].Answered? && transcript[n].call == call) {
        var k :| 0 <= k <= n && transcript[k].Answered? && transcript[k].call == call;
        assert transcript[..n][k] == transcript[k];
      }
    }
  }

  /** A call has at most one message, exactly one once its group or its run is finalized, and it
      carries the record's final result. */
  lemma OneMessagePerCall(states: seq<State>, steps: seq<Step>, retrySafe: set<string>, k: nat, call: string)
    requires Trace(states, steps, retrySafe) && k < |states|
    ensures var s := states[k];
      && ResultCount(s.transcript, call) <= 1
      && (call in s.finalized ==> ResultCount(s.transcript, call) == 1)
      && forall i :: 0 <= i < |s.transcript| && s.transcript[i].Answered? && s.transcript[i].call == call ==>
           FinalIn(s, call) && s.records[call].result == Some(s.transcript[i].result)
  {
    EveryStateIsSafe(states, steps, retrySafe, k);
    AnsweredOnceCounts(states[k].transcript, call);
    var s := states[k];
    forall i | 0 <= i < |s.transcript| && s.transcript[i].Answered? && s.transcript[i].call == call
      ensures FinalIn(s, call) && s.records[call].result == Some(s.transcript[i].result)
    {
      assert ResultAt(s.records, s.transcript[i]);
    }
  }

  /** A group is ready to finalize only with every record of it final, so no message says that
      a call has no result. */
  lemma GroupsFinalizeFinalRecords(states: seq<State>, steps: seq<Step>, retrySafe: set<string>, k: nat,
        groupId: string, order: seq<string>)
    requires Trace(states, steps, retrySafe) && k < |steps| && steps[k] == StartGroup(groupId, order)
    ensures forall call :: call in states[k].records && states[k].records[call].groupId == groupId ==>
              call in order && FinalIn(states[k], call) && states[k].records[call].result.Some?
  {
    EveryStateIsSafe(states, steps, retrySafe, k);
    var s := states[k];
    assert Follows(s, steps[k], states[k + 1], retrySafe);
    forall call | call in s.records && s.records[call].groupId == groupId
      ensures call in order && FinalIn(s, call) && s.records[call].result.Some?
    {
      assert call in OfGroup(s.records, groupId);
      assert Settled(s.admits, s.returned, call);
      assert RecordOk(s.records[call]);
    }
  }

  // ---------- Attempts ----------

  /** A tool that is not safe to retry runs its body once at most over every attempt, and every
      attempt that returns, the late ones too, reports what the record says from then on. */
  lemma AttemptsAgree(states: seq<State>, steps: seq<Step>, retrySafe: set<string>, k: nat, call: string,
        outcome: Outcome)
    requires Trace(states, steps, retrySafe) && k < |states|
    ensures var s := states[k];
      && (call !in retrySafe ==> Count(s.bodies, call) <= 1)
      && (outcome in s.returned ==>
            FinalIn(s, outcome.call) && outcome == OutcomeFromRecord(outcome.call, s.records[outcome.call]))
  {
    EveryStateIsSafe(states, steps, retrySafe, k);
    assert call !in retrySafe ==> BodyOk(states[k].tasks, states[k].attempts, states[k].bodies, call);
    assert outcome in states[k].returned ==> ReportOk(states[k].records, outcome);
  }

  /** Two attempts of one call, whenever they return, report the same. */
  lemma OutcomesAgree(states: seq<State>, steps: seq<Step>, retrySafe: set<string>, j: nat, k: nat, a: Outcome,
        b: Outcome)
    requires Trace(states, steps, retrySafe) && j <= k < |states|
    requires a in states[j].returned && b in states[k].returned && a.call == b.call
    ensures a == b
  {
    AttemptsAgree(states, steps, retrySafe, j, a.call, a);
    AttemptsAgree(states, steps, retrySafe, k, b.call, b);
    FinalForever(states, steps, retrySafe, a.call, j, k);
  }

  /** Cancelling a thread in any state closes every record and answers every recorded call. */
  lemma CancelSettles(states: seq<State>, steps: seq<Step>, retrySafe: set<string>, k: nat, order: seq<string>)
    requires Trace(states, steps, retrySafe) && k < |steps| && steps[k] == CancelThread(order)
    ensures Cancelled(states[k + 1].records, states[k + 1].transcript)
  {
    EveryStateIsSafe(states, steps, retrySafe, k);
    assert Follows(states[k], steps[k], states[k + 1], retrySafe);
    SafeIsWellFormed(states[k], retrySafe);
    CancellingCancels(states[k].records, states[k].transcript, order);
  }
}
